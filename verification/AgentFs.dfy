/** The agent's deployment directories, and shipping a run-mode deployment into one of them. */
module AgentFs {
  import opened Wrappers
  import opened Protocol
  import opened Trees
  import opened ZipShipping
  import R = ZipRoundTrip
  import U = Uploads
  import A = Activation

  /**
   * The zip library: any way of turning a list of entries into bytes that reads back, and that does not open
   * what has lost its beginning.
   */
  datatype Codec = Codec(encode: seq<ZipEntry> -> Bytes, decode: Bytes -> Option<seq<ZipEntry>>)

  ghost predicate Lawful(codec: Codec) {
    forall archive ::
      && codec.decode(codec.encode(archive)) == Some(archive)
      && forall n | 0 < n <= |codec.encode(archive)| :: codec.decode(codec.encode(archive)[n..]) == None
  }

  /** An archive that passes both passes of `unpack_zip` into an empty directory. */
  predicate Unpacks(archive: seq<ZipEntry>, limit: nat) {
    AllEnclosed(archive) && SaturatingAdd(0, TotalSize(archive)) <= limit && ExtractAll(map[], archive).1
  }

  /** `unpack_zip` into a new, empty directory. */
  method UnpackFresh(archive: seq<ZipEntry>, limit: nat) returns (r: Result<nat, ZipError>, files: Files)
    requires limit <= U64_MAX
    ensures r.Ok? <==> Unpacks(archive, limit)
    ensures r.Ok? ==> files == ExtractAll(map[], archive).0 && r.value == SaturatingAdd(0, TotalSize(archive))
  {
    var dest := new Destination();
    r := dest.UnpackZip(archive, limit);
    files := dest.files;
  }

  /** Opening an archive and unpacking it; bytes that are no archive are an error. */
  method UnpackBytes(codec: Codec, zip: Bytes, limit: nat) returns (r: Result<nat, ZipError>, files: Files)
    requires limit <= U64_MAX
    ensures r.Ok? <==> codec.decode(zip).Some? && Unpacks(codec.decode(zip).value, limit)
    ensures r.Ok? ==> files == ExtractAll(map[], codec.decode(zip).value).0
    ensures r.Ok? ==> r.value == SaturatingAdd(0, TotalSize(codec.decode(zip).value))
  {
    var archive := codec.decode(zip);
    if archive.None? {
      return Err(Io), map[];
    }
    r, files := UnpackFresh(archive.value, limit);
  }

  class AgentStore {
    /** `tmp/upload-<id>`, where an archive is unpacked before it is moved. */
    var staging: map<string, Files>
    /** `deployments/<id>`, and its `files/` once there is one. */
    var deployments: map<string, Option<Files>>
    /** `tmp/deleted-deployment-<id>`, where a directory is moved before it is removed. */
    var trash: set<string>

    constructor ()
      ensures staging == map[] && deployments == map[] && trash == {}
    {
      staging, deployments, trash := map[], map[], {};
    }

    method CreateDeploymentDir(id: string)
      modifies this`deployments
      ensures deployments == if id in old(deployments) then old(deployments) else old(deployments)[id := None]
    {
      if id !in deployments {
        deployments := deployments[id := None];
      }
    }

    /** A directory can be renamed to `files/` if the deployment directory is there and `files/` holds nothing. */
    predicate CanPlace(id: string)
      reads this
    {
      id in deployments && (deployments[id] == None || deployments[id] == Some(map[]))
    }

    /**
     * Content is complete before it appears under its final name; on any failure nothing appears at all. The
     * flags say whether the scratch directory can be created, the archive opened and the content renamed.
     */
    method ExtractAndPlace(codec: Codec, id: string, zip: Bytes, limit: nat, creates: bool, opens: bool, renames: bool)
      returns (r: Result<nat, ZipError>)
      requires limit <= U64_MAX
      modifies this`staging, this`deployments
      ensures r.Ok? <==>
              && creates && opens && renames
              && codec.decode(zip).Some? && Unpacks(codec.decode(zip).value, limit) && old(CanPlace(id))
      ensures r.Ok? ==> deployments == old(deployments)[id := Some(ExtractAll(map[], codec.decode(zip).value).0)]
      ensures r.Ok? ==> r.value == SaturatingAdd(0, TotalSize(codec.decode(zip).value))
      ensures r.Err? ==> deployments == old(deployments)
      // Only an archive that cannot be opened leaves its empty scratch directory behind.
      ensures staging == if creates && !opens then old(staging)[id := map[]] else old(staging) - {id}
    {
      staging := staging - {id};
      if !creates {
        return Err(Io);
      }
      staging := staging[id := map[]];
      if !opens {
        return Err(Io);
      }
      var files;
      r, files := UnpackBytes(codec, zip, limit);
      staging := staging[id := files];
      staging := staging - {id};
      assert staging == old(staging) - {id};
      if r.Ok? {
        var placed := Place(id, files, renames);
        if !placed {
          r := Err(Io);
        }
      }
    }

    /** The rename that makes the content visible; whether it works or not, the scratch directory is gone. */
    method Place(id: string, files: Files, renames: bool) returns (ok: bool)
      modifies this`deployments
      ensures ok <==> renames && old(CanPlace(id))
      ensures deployments == if ok then old(deployments)[id := Some(files)] else old(deployments)
    {
      ok := renames && CanPlace(id);
      if ok {
        deployments := deployments[id := Some(files)];
      }
    }

    /**
     * A deployment's directory is there whole or not at all: it is moved aside first, and what a failing
     * removal leaves is only ever in `tmp/`. A missing directory counts as success.
     */
    method DeleteDeploymentDir(id: string, tmp: bool, moves: bool, removes: bool) returns (ok: bool)
      modifies this`deployments, this`trash
      ensures ok ==> id !in deployments
      ensures ok <==> tmp && (id !in old(deployments) || (moves && removes))
      ensures deployments == old(deployments) || deployments == old(deployments) - {id}
      ensures id in deployments <==> id in old(deployments) && !(tmp && moves)
      ensures trash - {id} == old(trash) - {id}
      ensures id in old(deployments) && tmp && moves ==> (id in trash <==> !removes)
      ensures !(id in old(deployments) && tmp && moves) ==> trash == old(trash)
    {
      if !tmp {
        return false;
      }
      if id !in deployments {
        return true;
      }
      if !moves {
        return false;
      }
      deployments, trash := deployments - {id}, trash + {id};
      if !removes {
        return false;
      }
      trash := trash - {id};
      return true;
    }
  }

  /** The archive of a tree unpacks exactly if the tree is within the limit, and into what arrives of it. */
  lemma TreeUnpacks(l: Listing, limit: nat)
    requires IsTree(l) && TreeBytes(l) <= U64_MAX && limit <= U64_MAX
    ensures Unpacks(Entries([], l), limit) <==> TreeBytes(l) <= limit
    ensures AllEnclosed(Entries([], l)) && ExtractAll(map[], Entries([], l)).0 == Flatten([], R.Arrived(l))
    ensures SaturatingAdd(0, TotalSize(Entries([], l))) == TreeBytes(l)
  {
    R.EntriesAdmissible([], l);
    R.TreeArrivesIff(l);
  }

  /**
   * What goes wrong while a deployment is shipped. On the hub: zipping its files, and the two requests; of the
   * upload, `arrives` is how many chunks reach the agent before the session ends, if not all do. On the
   * agent: making the directory, receiving, and unpacking; `again` is the chunk that starts the handler
   * which gets the rest, should one fail while chunks are still to come.
   */
  datatype ShipFaults = ShipFaults(
    zips: bool, create: A.Rpc, makes: bool, upload: A.Rpc, arrives: Option<nat>,
    receives: U.UploadFaults, again: Option<nat>, creates: bool, opens: bool, renames: bool)

  /** All of the upload gets there, and nothing goes wrong on the agent or in reading the archive. */
  ghost predicate NothingFails(f: ShipFaults) {
    && f.zips && f.create == A.Delivered && f.makes && f.upload != A.NotSent && f.arrives == None
    && U.Faultless(f.receives) && f.creates && f.opens && f.renames
  }

  /** A handler that is started by a later chunk unpacks what it gets, and has nothing to show for it. */
  method UnpackRest(codec: Codec, agent: AgentStore, id: string, ghost archive: seq<ZipEntry>,
      chunks: seq<Chunk>, k: nat, limit: nat, f: ShipFaults)
    requires Lawful(codec) && limit <= U64_MAX && 0 < k < |chunks|
    requires U.IsUpload(chunks, codec.encode(archive)) || U.IsCutShort(chunks, codec.encode(archive))
    modifies agent
    ensures agent.deployments == old(agent.deployments)
  {
    var rest := U.ReceiveZip(chunks[k..], false, true, i => true);
    if rest.Got? {
      var _ := U.RestIsShorter(chunks, codec.encode(archive), k);
      assert chunks[k..][..|chunks| - k] == chunks[k..];
      var placed := agent.ExtractAndPlace(codec, id, rest.file, limit, f.creates, f.opens, f.renames);
    }
  }

  /**
   * The archive's way from its tree to its place. The agent goes to the end of it whether or not the hub is
   * still there to hear; the result is what it would report.
   */
  method UploadTree(codec: Codec, agent: AgentStore, id: string, l: Listing, limit: nat, f: ShipFaults)
    returns (r: Result<nat, ZipError>)
    requires Lawful(codec) && IsTree(l) && TreeBytes(l) <= U64_MAX && limit <= U64_MAX
    modifies agent
    ensures r.Ok? ==> TreeBytes(l) <= limit && r.value == TreeBytes(l)
    ensures r.Ok? ==> agent.deployments == old(agent.deployments)[id := Some(Flatten([], R.Arrived(l)))]
    ensures r.Err? ==> agent.deployments == old(agent.deployments)
    ensures f.arrives == None && U.Faultless(f.receives) && f.creates && f.opens && f.renames ==>
              (r.Ok? <==> TreeBytes(l) <= limit && old(agent.CanPlace(id)))
  {
    var archive := ZipDir(l);
    TreeUnpacks(l, limit);
    var chunks, received := U.UploadAlone(codec.encode(archive), f.receives, f.arrives);
    if received.Failed? && f.again.Some? && 0 < f.again.value < |chunks| {
      UnpackRest(codec, agent, id, archive, chunks, f.again.value, limit, f);
    }
    if !received.Got? {
      // The handler has failed, or it waits for a final chunk and says nothing.
      return Err(Io);
    }
    r := agent.ExtractAndPlace(codec, id, received.file, limit, f.creates, f.opens, f.renames);
  }

  /**
   * Zip, chunk, send, reassemble, unpack, move into place. Whatever goes wrong, the agent has all that
   * arrives of the hub's tree afterwards or none of it; when nothing does, it has it if and only if the tree
   * is within the limit and there is room for it. What arrives is the tree itself exactly if none of its
   * files has a name that marks a directory. The hub is told of success if and only if the tree is `placed`
   * and the reply to the upload gets through.
   */
  method ShipRunDeployment(codec: Codec, agent: AgentStore, id: string, l: Listing, limit: nat, f: ShipFaults)
    returns (r: Result<nat, ZipError>, ghost placed: bool)
    requires Lawful(codec) && IsTree(l) && TreeBytes(l) <= U64_MAX && limit <= U64_MAX
    modifies agent
    ensures r.Ok? <==> placed && f.upload == A.Delivered
    ensures r.Ok? ==> r.value == TreeBytes(l)
    ensures placed ==> f.zips && f.create == A.Delivered && f.makes && f.upload != A.NotSent && TreeBytes(l) <= limit
    ensures placed ==> agent.deployments == old(agent.deployments)[id := Some(Flatten([], R.Arrived(l)))]
    ensures placed ==> (agent.deployments[id] == Some(Flatten([], l)) <==> R.NoMarkedFiles(l))
    ensures !placed ==>
              agent.deployments
              == if f.zips && f.create != A.NotSent && f.makes && id !in old(agent.deployments)
                 then old(agent.deployments)[id := None]
                 else old(agent.deployments)
    ensures NothingFails(f) ==>
              (placed <==> TreeBytes(l) <= limit && (id in old(agent.deployments) ==> old(agent.CanPlace(id))))
  {
    placed := false;
    if !f.zips {
      return Err(Io), false;
    }
    if f.create != A.NotSent && f.makes {
      agent.CreateDeploymentDir(id);
    }
    if f.create != A.Delivered || !f.makes || f.upload == A.NotSent {
      return Err(Io), false;
    }
    R.ArrivesUnchangedIff([], l);
    var done := UploadTree(codec, agent, id, l, limit, f);
    placed := done.Ok?;
    r := if f.upload == A.Delivered then done else Err(Io);
  }

  /**
   * The hub can be told that shipping failed although all of it succeeded: for every tree within the limit,
   * when only the reply to the upload is lost, because the session ended or the hub's patience did.
   */
  method ToldItFailed(codec: Codec, id: string, l: Listing, limit: nat)
    returns (r: Result<nat, ZipError>, agent: AgentStore)
    requires Lawful(codec) && IsTree(l) && TreeBytes(l) <= limit <= U64_MAX
    ensures fresh(agent) && r.Err? && agent.deployments == map[id := Some(Flatten([], R.Arrived(l)))]
  {
    agent := new AgentStore();
    var sound := U.UploadFaults(None, true, i => true);
    var f := ShipFaults(true, A.Delivered, true, A.ReplyLost, None, sound, None, true, true, true);
    assert NothingFails(f);
    ghost var placed;
    r, placed := ShipRunDeployment(codec, agent, id, l, limit, f);
  }
}
