/**
 * Sending archives to the agent in chunks. Any number of uploads share the session; the agent's loop
 * routes each chunk to the handler of its request id, and every handler runs on its own.
 */
module Uploads {
  import opened Wrappers
  import opened Protocol

  const UPLOAD_CHUNK_BYTES: nat := 64 * 1024

  function Data(chunks: seq<Chunk>): Bytes {
    if |chunks| == 0 then [] else Data(chunks[..|chunks|-1]) + chunks[|chunks|-1].data
  }

  lemma OneMoreChunk(chunks: seq<Chunk>, chunk: Chunk)
    ensures Data(chunks + [chunk]) == Data(chunks) + chunk.data
  {
    assert (chunks + [chunk])[..|chunks|] == chunks;
  }

  /** Non-empty, non-final chunks that spell out `file`, then an empty final one. */
  ghost predicate IsUpload(chunks: seq<Chunk>, file: Bytes) {
    && |chunks| > 0 && chunks[|chunks|-1] == Chunk([], true)
    && (forall i | 0 <= i < |chunks| - 1 :: !chunks[i].isFinal && 0 < |chunks[i].data| <= UPLOAD_CHUNK_BYTES)
    && Data(chunks) == file
  }

  /** What is sent when a read fails: some of the file, and no final chunk. */
  ghost predicate IsCutShort(chunks: seq<Chunk>, file: Bytes) {
    && (forall i | 0 <= i < |chunks| :: !chunks[i].isFinal && 0 < |chunks[i].data| <= UPLOAD_CHUNK_BYTES)
    && Data(chunks) <= file
  }

  /**
   * The hub reads the file in pieces whose size the operating system picks; `fails` is the number of the
   * read that fails, if one does.
   */
  method ChunkFile(file: Bytes, fails: Option<nat>) returns (chunks: seq<Chunk>)
    ensures IsUpload(chunks, file) || (fails == Some(|chunks|) && IsCutShort(chunks, file))
  {
    chunks := [];
    var cursor := 0;
    while cursor < |file|
      invariant cursor <= |file|
      invariant forall i | 0 <= i < |chunks| :: !chunks[i].isFinal && 0 < |chunks[i].data| <= UPLOAD_CHUNK_BYTES
      invariant Data(chunks) == file[..cursor]
    {
      if fails == Some(|chunks|) {
        return;
      }
      assert 0 < 1 <= UPLOAD_CHUNK_BYTES && cursor + 1 <= |file|;
      var n: nat :| 0 < n <= UPLOAD_CHUNK_BYTES && cursor + n <= |file|;
      OneMoreChunk(chunks, Chunk(file[cursor..cursor + n], false));
      chunks := chunks + [Chunk(file[cursor..cursor + n], false)];
      assert file[..cursor] + file[cursor..cursor + n] == file[..cursor + n];
      cursor := cursor + n;
    }
    if fails == Some(|chunks|) {
      return;
    }
    OneMoreChunk(chunks, Chunk([], true));
    chunks := chunks + [Chunk([], true)];
    assert file[..cursor] + [] == file;
  }

  /** Where the final chunk is, if one has come. */
  function FinalAt(chunks: seq<Chunk>): (k: nat)
    ensures k <= |chunks|
    ensures k < |chunks| ==> chunks[k].isFinal
    ensures forall i | 0 <= i < k :: !chunks[i].isFinal
  {
    if |chunks| == 0 || chunks[0].isFinal then 0 else 1 + FinalAt(chunks[1..])
  }

  /** What becomes of a receiver; one that is `Waiting` has had nothing go wrong and no final chunk. */
  datatype Received = Got(file: Bytes) | Failed(message: string) | Waiting

  /**
   * The agent writes what it receives until a final chunk. `rx` is everything ever sent into the channel,
   * `closes` says whether the channel is closed after it - the one the agent's loop makes never is, since
   * the map that holds its sender lives as long as the handler that waits - and the rest says whether the
   * file can be created and each chunk written.
   */
  method ReceiveZip(rx: seq<Chunk>, closes: bool, creates: bool, writes: nat -> bool) returns (r: Received)
    ensures r.Got? <==> creates && FinalAt(rx) < |rx| && forall i | 0 <= i <= FinalAt(rx) :: writes(i)
    ensures r.Got? ==> r.file == Data(rx[..FinalAt(rx) + 1])
    ensures r.Waiting? <==> creates && FinalAt(rx) == |rx| && !closes && forall i | 0 <= i < |rx| :: writes(i)
  {
    if !creates {
      return Failed("the file could not be created");
    }
    var file: Bytes := [];
    ghost var final := FinalAt(rx);
    for i := 0 to |rx|
      invariant i <= final && (forall j | 0 <= j < i :: writes(j))
      invariant file == Data(rx[..i])
    {
      assert rx[..i + 1][..i] == rx[..i];
      if !writes(i) {
        return Failed("the file could not be written");
      }
      file := file + rx[i].data;
      if rx[i].isFinal {
        assert final == i;
        return Got(file);
      }
    }
    return if closes then Failed("hub closed the upload stream before sending a final chunk") else Waiting;
  }

  lemma UploadEndsFinally(chunks: seq<Chunk>, file: Bytes)
    requires IsUpload(chunks, file)
    ensures FinalAt(chunks) == |chunks| - 1 && Data(chunks[..FinalAt(chunks) + 1]) == file
  {
    var k := FinalAt(chunks);
    assert k <= |chunks| - 1;
    assert chunks[..|chunks|] == chunks;
  }

  /** What goes wrong with one upload. */
  datatype UploadFaults = UploadFaults(fails: Option<nat>, creates: bool, writes: nat -> bool)

  ghost predicate Faultless(f: UploadFaults) {
    f.fails == None && f.creates && forall i :: f.writes(i)
  }

  lemma FewerAreCutShort(chunks: seq<Chunk>, file: Bytes, n: nat)
    requires (IsUpload(chunks, file) || IsCutShort(chunks, file)) && n < |chunks|
    ensures IsCutShort(chunks[..n], file)
  {
    DataSplits(chunks, n);
  }

  /**
   * One upload on its own, of which `arrives` chunks reach the agent if not all do: it arrives byte for
   * byte, however the reads split it, or not at all. One that is cut short leaves the receiver waiting, unless
   * the agent's own disk fails it first.
   */
  method UploadAlone(file: Bytes, f: UploadFaults, arrives: Option<nat>) returns (chunks: seq<Chunk>, r: Received)
    ensures IsUpload(chunks, file) || IsCutShort(chunks, file)
    ensures r.Got? ==> IsUpload(chunks, file) && r.file == file
    ensures Faultless(f) && arrives == None ==> r.Got?
    ensures r.Waiting? <==> !IsUpload(chunks, file) && f.creates && forall i | 0 <= i < |chunks| :: f.writes(i)
    ensures arrives == None ==> IsUpload(chunks, file) || f.fails == Some(|chunks|)
  {
    chunks := ChunkFile(file, f.fails);
    if arrives.Some? && arrives.value < |chunks| {
      FewerAreCutShort(chunks, file, arrives.value);
      chunks := chunks[..arrives.value];
    }
    r := ReceiveZip(chunks, false, f.creates, f.writes);
    if IsUpload(chunks, file) {
      UploadEndsFinally(chunks, file);
    }
  }

  // ---- Many uploads on one wire ----------------------------------------------------------------

  /** What the hub sends under one request id: all of a file, or as much as could be read of it. */
  datatype Source = Source(deployment: string, chunks: seq<Chunk>, file: Bytes)

  datatype Phase = NotStarted | Spawned | Receiving | Complete | Unpacked | Failing | Cleaned

  /**
   * One upload: how much of it was delivered, whether the agent's map has an entry for it, its last handler -
   * the chunk that started it, its channel and how far it has come - how many handlers were started and how
   * many met an error, and what was unpacked.
   */
  datatype Upload = Upload(
    sent: nat,
    inFlight: bool,
    phase: Phase,
    first: nat,
    queue: seq<Chunk>,
    taken: nat,
    starts: nat,
    fails: nat,
    unpacked: Option<Bytes>)

  /** The agent while a session is `live` and after it; the files in `tmp` are per deployment. */
  datatype Agent = Agent(live: bool, uploads: map<nat, Upload>, zips: map<string, Bytes>)

  /** `Fail` is a file that cannot be created or a chunk that cannot be written. */
  datatype Event = Deliver | Create | Take | Fail | Unpack | Clean | Unregister

  datatype Label = At(id: nat, event: Event) | SessionEnds

  /** Distinct uploads are for distinct deployments, so they use distinct files. */
  ghost predicate ValidSources(sources: map<nat, Source>) {
    && (forall id | id in sources ::
          IsUpload(sources[id].chunks, sources[id].file) || IsCutShort(sources[id].chunks, sources[id].file))
    && (forall i, j | i in sources && j in sources && sources[i].deployment == sources[j].deployment :: i == j)
  }

  function Init(sources: map<nat, Source>): Agent {
    Agent(true, map id | id in sources :: Upload(0, false, NotStarted, 0, [], 0, 0, 0, None), map[])
  }

  function ZipOf(a: Agent, deployment: string): Option<Bytes> {
    if deployment in a.zips then Some(a.zips[deployment]) else None
  }

  predicate Ready(source: Source, u: Upload, zip: Option<Bytes>, e: Event) {
    match e
    case Deliver => u.sent < |source.chunks|
    case Create => u.phase == Spawned
    case Take => u.phase == Receiving && u.queue != [] && zip.Some?
    case Fail => u.phase == Spawned || (u.phase == Receiving && u.queue != [])
    case Unpack => u.phase == Complete && zip.Some?
    case Clean => u.phase == Unpacked || u.phase == Failing
    case Unregister => u.phase == Cleaned && u.inFlight
  }

  function Moved(source: Source, u: Upload, zip: Option<Bytes>, e: Event): Upload
    requires Ready(source, u, zip, e)
  {
    match e
    case Deliver =>
      // The first chunk of an id that is not in flight starts a handler; later ones go into its channel.
      var chunk := source.chunks[u.sent];
      if u.inFlight then u.(queue := u.queue + [chunk], sent := u.sent + 1)
      else Upload(u.sent + 1, true, Spawned, u.sent, [chunk], u.sent, u.starts + 1, u.fails, u.unpacked)
    case Create => u.(phase := Receiving)
    case Take =>
      var phase := if u.queue[0].isFinal then Complete else Receiving;
      u.(phase := phase, queue := u.queue[1..], taken := u.taken + 1)
    case Fail => u.(phase := Failing, fails := u.fails + 1)
    case Unpack => u.(phase := Unpacked, unpacked := zip)
    case Clean => u.(phase := Cleaned)
    case Unregister => u.(inFlight := false)
  }

  function ZipMoved(source: Source, u: Upload, zip: Option<Bytes>, e: Event): Option<Bytes>
    requires Ready(source, u, zip, e)
  {
    match e
    case Create => Some([])
    case Take => Some(zip.value + u.queue[0].data)
    case Clean => None
    case _ => zip
  }

  /** The wire delivers the chunks of each id in order while the session lives; between ids anything goes. */
  predicate Enabled(sources: map<nat, Source>, a: Agent, l: Label) {
    match l
    case SessionEnds => a.live
    case At(id, e) =>
      && id in sources && id in a.uploads && (e == Deliver ==> a.live)
      && Ready(sources[id], a.uploads[id], ZipOf(a, sources[id].deployment), e)
  }

  function Step(sources: map<nat, Source>, a: Agent, l: Label): Agent
    requires Enabled(sources, a, l)
  {
    match l
    case SessionEnds => a.(live := false)
    case At(id, e) =>
      var source, u, zip := sources[id], a.uploads[id], ZipOf(a, sources[id].deployment);
      var zip' := ZipMoved(source, u, zip, e);
      var zips := if zip'.Some? then a.zips[source.deployment := zip'.value] else a.zips - {source.deployment};
      Agent(a.live, a.uploads[id := Moved(source, u, zip, e)], zips)
  }

  function Run(sources: map<nat, Source>, a: Agent, ls: seq<Label>): Option<Agent> {
    if |ls| == 0 then Some(a) else
    match Run(sources, a, ls[..|ls|-1])
    case None => None
    case Some(b) => if Enabled(sources, b, ls[|ls|-1]) then Some(Step(sources, b, ls[|ls|-1])) else None
  }

  ghost predicate Reached(sources: map<nat, Source>, ls: seq<Label>, a: Agent) {
    ValidSources(sources) && Run(sources, Init(sources), ls) == Some(a)
  }

  /** A step about one id is a step of that upload and of its file, and changes no other upload or file. */
  lemma StepIsOwn(sources: map<nat, Source>, a: Agent, l: Label, id: nat)
    requires ValidSources(sources) && Enabled(sources, a, l) && id in sources && id in a.uploads
    ensures var b, zip := Step(sources, a, l), ZipOf(a, sources[id].deployment);
            && id in b.uploads
            && (if l.At? && l.id == id
                then && b.uploads[id] == Moved(sources[id], a.uploads[id], zip, l.event)
                     && ZipOf(b, sources[id].deployment) == ZipMoved(sources[id], a.uploads[id], zip, l.event)
                else b.uploads[id] == a.uploads[id] && ZipOf(b, sources[id].deployment) == zip)
  {
  }

  /** The upload's last handler has met an error. */
  predicate HasFailed(u: Upload) {
    u.phase == Failing || (u.phase == Cleaned && u.unpacked == None)
  }

  /** Where the last handler of an upload stands. */
  ghost predicate HandlerOk(source: Source, u: Upload, zip: Option<Bytes>)
    requires u.sent <= |source.chunks|
  {
    var chunks := source.chunks;
    && u.first <= u.taken <= u.sent && u.first < u.sent && u.queue == chunks[u.taken..u.sent]
    && u.starts == u.fails + (if HasFailed(u) then 0 else 1)
    && u.starts > 0 && (u.first == 0 <==> u.starts == 1)
    && (u.phase == Spawned ==> u.taken == u.first)
    && (u.phase in {Spawned, Receiving} && u.taken > 0 ==> !chunks[u.taken - 1].isFinal)
    && (u.phase in {Receiving, Complete, Unpacked} ==> zip == Some(Data(chunks[u.first..u.taken])))
    && (u.phase == Complete || u.unpacked.Some? ==> u.taken == |chunks| && IsUpload(chunks, source.file))
    && (u.phase == Unpacked ==> u.unpacked.Some?)
    && (u.unpacked.Some? ==> u.phase in {Unpacked, Cleaned} && u.unpacked.value == Data(chunks[u.first..]))
  }

  ghost predicate UploadOk(source: Source, u: Upload, zip: Option<Bytes>) {
    && u.sent <= |source.chunks|
    && (u.sent == 0 <==> u.phase == NotStarted)
    && (u.phase in {NotStarted, Spawned, Cleaned} ==> zip == None)
    && (if u.phase == NotStarted then !u.inFlight && u.starts == 0 && u.fails == 0 && u.unpacked == None
        else HandlerOk(source, u, zip) && (!u.inFlight ==> u.phase == Cleaned))
  }

  lemma DeliverKeepsUpload(source: Source, u: Upload, zip: Option<Bytes>)
    requires IsUpload(source.chunks, source.file) || IsCutShort(source.chunks, source.file)
    requires Ready(source, u, zip, Deliver) && UploadOk(source, u, zip)
    ensures UploadOk(source, Moved(source, u, zip, Deliver), zip)
  {
    var chunks := source.chunks;
    assert chunks[u.sent..u.sent + 1] == [chunks[u.sent]];
    if u.inFlight {
      assert chunks[u.taken..u.sent + 1] == chunks[u.taken..u.sent] + [chunks[u.sent]];
    }
  }

  lemma TakeKeepsUpload(source: Source, u: Upload, zip: Option<Bytes>)
    requires IsUpload(source.chunks, source.file) || IsCutShort(source.chunks, source.file)
    requires Ready(source, u, zip, Take) && UploadOk(source, u, zip)
    ensures UploadOk(source, Moved(source, u, zip, Take), ZipMoved(source, u, zip, Take))
  {
    var chunks := source.chunks;
    assert u.queue[0] == chunks[u.taken] && u.queue[1..] == chunks[u.taken + 1..u.sent];
    assert chunks[u.first..u.taken + 1][..u.taken - u.first] == chunks[u.first..u.taken];
  }

  lemma EventKeepsUpload(source: Source, u: Upload, zip: Option<Bytes>, e: Event)
    requires IsUpload(source.chunks, source.file) || IsCutShort(source.chunks, source.file)
    requires Ready(source, u, zip, e) && UploadOk(source, u, zip)
    ensures UploadOk(source, Moved(source, u, zip, e), ZipMoved(source, u, zip, e))
  {
    match e
    case Deliver => DeliverKeepsUpload(source, u, zip);
    case Take => TakeKeepsUpload(source, u, zip);
    case Create => assert source.chunks[u.first..u.first] == [];
    case Unpack => assert source.chunks[u.first..|source.chunks|] == source.chunks[u.first..];
    case _ =>
  }

  lemma {:induction false} RunKeepsUploads(sources: map<nat, Source>, ls: seq<Label>, a: Agent, id: nat)
    requires Reached(sources, ls, a) && id in sources
    ensures id in a.uploads && UploadOk(sources[id], a.uploads[id], ZipOf(a, sources[id].deployment))
  {
    if |ls| > 0 {
      var before, l := ls[..|ls|-1], ls[|ls|-1];
      var b := Run(sources, Init(sources), before).value;
      RunKeepsUploads(sources, before, b, id);
      StepIsOwn(sources, b, l, id);
      if l.At? && l.id == id {
        EventKeepsUpload(sources[id], b.uploads[id], ZipOf(b, sources[id].deployment), l.event);
      }
    }
  }

  // ---- What is unpacked --------------------------------------------------------------------------

  /** What the chunks before `k` hold is missing from the rest. */
  lemma {:induction false} DataSplits(chunks: seq<Chunk>, k: nat)
    requires k <= |chunks|
    ensures Data(chunks) == Data(chunks[..k]) + Data(chunks[k..])
  {
    if k == |chunks| {
      assert chunks[..k] == chunks;
    } else {
      var before := chunks[..|chunks|-1];
      DataSplits(before, k);
      assert before[..k] == chunks[..k] && chunks[k..][..|chunks| - 1 - k] == before[k..];
    }
  }

  /** From a later chunk on, an upload spells an end of the file that lacks something. */
  lemma RestIsShorter(chunks: seq<Chunk>, file: Bytes, k: nat) returns (n: nat)
    requires IsUpload(chunks, file) && 0 < k < |chunks|
    ensures 0 < n <= |file| && Data(chunks[k..]) == file[n..] && FinalAt(chunks[k..]) == |chunks| - 1 - k
  {
    n := |Data(chunks[..k])|;
    DataSplits(chunks, k);
    assert chunks[..k][..k - 1] == chunks[..k - 1] && |chunks[k - 1].data| > 0;
    assert chunks[k..][FinalAt(chunks[k..])..] == chunks[k + FinalAt(chunks[k..])..];
  }

  lemma RestIsAllIff(chunks: seq<Chunk>, file: Bytes, k: nat)
    requires IsUpload(chunks, file) && k < |chunks|
    ensures Data(chunks[k..]) == file <==> k == 0
  {
    if k == 0 {
      assert chunks[0..] == chunks;
    } else {
      var _ := RestIsShorter(chunks, file, k);
    }
  }

  /**
   * However the wire interleaves the uploads and however the handlers are scheduled, each upload starts one
   * handler more than fail of it at most, and without a failure what a handler unpacks is exactly the file
   * the hub read for that upload.
   */
  lemma ConcurrentUploadsReassemble(sources: map<nat, Source>, ls: seq<Label>, a: Agent, id: nat)
    requires Reached(sources, ls, a) && id in sources
    ensures id in a.uploads
    ensures var u := a.uploads[id];
            && u.fails <= u.starts <= u.fails + 1 && (u.starts == 0 <==> u.sent == 0)
            && (u.fails == 0 && u.unpacked.Some? ==> u.unpacked.value == sources[id].file)
            && (u.fails == 0 && u.phase == Complete ==> ZipOf(a, sources[id].deployment) == Some(sources[id].file))
  {
    RunKeepsUploads(sources, ls, a, id);
    var chunks := sources[id].chunks;
    assert chunks[0..|chunks|] == chunks && chunks[0..] == chunks;
  }

  /** What is unpacked is the file if and only if no handler failed before: the next one has only the rest. */
  lemma WholeFileIsUnpackedIff(sources: map<nat, Source>, ls: seq<Label>, a: Agent, id: nat)
    requires Reached(sources, ls, a) && id in sources && id in a.uploads && a.uploads[id].unpacked.Some?
    ensures IsUpload(sources[id].chunks, sources[id].file)
    ensures a.uploads[id].unpacked.value == sources[id].file <==> a.uploads[id].fails == 0
  {
    RunKeepsUploads(sources, ls, a, id);
    RestIsAllIff(sources[id].chunks, sources[id].file, a.uploads[id].first);
  }

  // ---- What is left behind -----------------------------------------------------------------------

  /** Nothing can happen to the upload any more. */
  ghost predicate Quiet(sources: map<nat, Source>, a: Agent, id: nat) {
    forall e :: !Enabled(sources, a, At(id, e))
  }

  predicate FinalDelivered(source: Source, u: Upload) {
    0 < u.sent <= |source.chunks| && source.chunks[u.sent - 1].isFinal
  }

  /** What quiet means for the handler: there is none any more, or it waits for a chunk that never comes. */
  lemma QuietHandler(sources: map<nat, Source>, a: Agent, id: nat)
    requires id in sources && id in a.uploads && Quiet(sources, a, id)
    requires UploadOk(sources[id], a.uploads[id], ZipOf(a, sources[id].deployment))
    ensures a.uploads[id].phase in {NotStarted, Receiving, Cleaned}
    ensures a.uploads[id].inFlight <==> a.uploads[id].phase == Receiving
    ensures a.uploads[id].inFlight ==> a.uploads[id].queue == []
  {
    assert !Enabled(sources, a, At(id, Create)) && !Enabled(sources, a, At(id, Take));
    assert !Enabled(sources, a, At(id, Unpack)) && !Enabled(sources, a, At(id, Clean));
    assert !Enabled(sources, a, At(id, Unregister));
  }

  /**
   * Once an upload is quiet its handler, its entry and its file are left behind if and only if it was started,
   * its final chunk was not delivered and its last handler met no error; a complete upload that met no error
   * has been unpacked whole.
   */
  lemma UploadLeftBehindIff(sources: map<nat, Source>, ls: seq<Label>, a: Agent, id: nat)
    requires Reached(sources, ls, a) && id in sources && Quiet(sources, a, id)
    ensures id in a.uploads
    ensures var u := a.uploads[id];
            && (u.inFlight <==> u.fails < u.starts && !FinalDelivered(sources[id], u))
            && (u.inFlight ==> u.phase == Receiving)
            && (u.inFlight <==> sources[id].deployment in a.zips)
            && (FinalDelivered(sources[id], u) && u.fails == 0 ==> u.unpacked == Some(sources[id].file))
  {
    RunKeepsUploads(sources, ls, a, id);
    QuietHandler(sources, a, id);
    if a.uploads[id].unpacked.Some? {
      WholeFileIsUnpackedIff(sources, ls, a, id);
    }
  }

  /** What is left behind stays: no later run touches the handler, its entry or its file. */
  lemma {:induction false} LeftBehindForEver(
      sources: map<nat, Source>, ls: seq<Label>, a: Agent, more: seq<Label>, b: Agent, id: nat)
    requires Reached(sources, ls, a) && id in sources && Quiet(sources, a, id)
    requires Run(sources, a, more) == Some(b)
    ensures id in a.uploads && id in b.uploads && b.uploads[id] == a.uploads[id] && (b.live ==> a.live)
    ensures ZipOf(b, sources[id].deployment) == ZipOf(a, sources[id].deployment)
  {
    RunKeepsUploads(sources, ls, a, id);
    if |more| > 0 {
      var before, l := more[..|more|-1], more[|more|-1];
      var c := Run(sources, a, before).value;
      LeftBehindForEver(sources, ls, a, before, c, id);
      StepIsOwn(sources, c, l, id);
      if l.At? && l.id == id {
        assert Enabled(sources, a, At(id, l.event));
        assert false;
      }
    }
  }

  /** What an upload can still do: each of its own steps spends some. */
  function Budget(source: Source, u: Upload): int {
    8 * (|source.chunks| - u.sent) + |u.queue| +
    match u.phase
    case NotStarted => 0
    case Spawned => 6
    case Receiving => 5
    case Complete => 4
    case Unpacked => 3
    case Failing => 3
    case Cleaned => if u.inFlight then 1 else 0
  }

  lemma EventSpends(source: Source, u: Upload, zip: Option<Bytes>, e: Event)
    requires Ready(source, u, zip, e) && UploadOk(source, u, zip)
    ensures Budget(source, Moved(source, u, zip, e)) < Budget(source, u)
    ensures e != Fail ==> Moved(source, u, zip, e).fails == u.fails
    ensures e != Deliver ==> Moved(source, u, zip, e).sent == u.sent
  {
  }

  lemma SomethingToDo(sources: map<nat, Source>, a: Agent, id: nat) returns (e: Event)
    requires id in sources && id in a.uploads && !Quiet(sources, a, id)
    requires UploadOk(sources[id], a.uploads[id], ZipOf(a, sources[id].deployment))
    ensures Enabled(sources, a, At(id, e)) && e != Fail
  {
    e :| Enabled(sources, a, At(id, e));
    if e == Fail {
      e := if a.uploads[id].phase == Spawned then Create else Take;
    }
  }

  lemma Extend(sources: map<nat, Source>, ls: seq<Label>, a: Agent, id: nat, e: Event)
      returns (more: seq<Label>, b: Agent)
    requires Reached(sources, ls, a) && id in sources && id in a.uploads && Enabled(sources, a, At(id, e))
    ensures more == ls + [At(id, e)] && Reached(sources, more, b) && b.live == a.live && id in b.uploads
    ensures b.uploads[id] == Moved(sources[id], a.uploads[id], ZipOf(a, sources[id].deployment), e)
    ensures ZipOf(b, sources[id].deployment)
            == ZipMoved(sources[id], a.uploads[id], ZipOf(a, sources[id].deployment), e)
  {
    more, b := ls + [At(id, e)], Step(sources, a, At(id, e));
    assert more[..|ls|] == ls;
    StepIsOwn(sources, a, At(id, e), id);
  }

  /** From every reachable state an upload can come to rest without another failure. */
  lemma {:induction false} EveryUploadSettles(sources: map<nat, Source>, ls: seq<Label>, a: Agent, id: nat)
      returns (all: seq<Label>, b: Agent)
    requires Reached(sources, ls, a) && id in sources && id in a.uploads
    ensures ls <= all && Reached(sources, all, b) && Quiet(sources, b, id)
    ensures id in b.uploads && b.uploads[id].fails == a.uploads[id].fails
    ensures b.live == a.live && (!a.live ==> b.uploads[id].sent == a.uploads[id].sent)
    ensures forall i | |ls| <= i < |all| :: all[i].At? && all[i].id == id && all[i].event != Fail
    decreases Budget(sources[id], a.uploads[id])
  {
    RunKeepsUploads(sources, ls, a, id);
    if Quiet(sources, a, id) {
      all, b := ls, a;
    } else {
      var e := SomethingToDo(sources, a, id);
      var next, c := Extend(sources, ls, a, id, e);
      EventSpends(sources[id], a.uploads[id], ZipOf(a, sources[id].deployment), e);
      all, b := EveryUploadSettles(sources, next, c, id);
    }
  }

  // ---- What the hub is not told ------------------------------------------------------------------

  /**
   * After the session, with nobody left to tell, an upload that has met no error is still unpacked whole,
   * if and only if its final chunk was delivered in time.
   */
  lemma UnpackedAfterTheSessionIff(sources: map<nat, Source>, ls: seq<Label>, a: Agent, id: nat)
      returns (all: seq<Label>, b: Agent)
    requires Reached(sources, ls, a) && id in sources && id in a.uploads && !a.live && a.uploads[id].fails == 0
    ensures ls <= all && Reached(sources, all, b) && !b.live && Quiet(sources, b, id) && id in b.uploads
    ensures b.uploads[id].unpacked == Some(sources[id].file) <==> FinalDelivered(sources[id], a.uploads[id])
    ensures !FinalDelivered(sources[id], a.uploads[id]) ==> b.uploads[id].unpacked == None
  {
    all, b := EveryUploadSettles(sources, ls, a, id);
    UploadLeftBehindIff(sources, all, b, id);
    RunKeepsUploads(sources, all, b, id);
  }

  /** All chunks of an upload reach the agent before anything is done with them. */
  lemma {:induction false} AllDelivered(sources: map<nat, Source>, id: nat, n: nat) returns (ls: seq<Label>, a: Agent)
    requires ValidSources(sources) && id in sources && n <= |sources[id].chunks|
    ensures Reached(sources, ls, a) && a.live && id in a.uploads
    ensures a.uploads[id].sent == n && a.uploads[id].fails == 0
  {
    if n == 0 {
      ls, a := [], Init(sources);
    } else {
      ls, a := AllDelivered(sources, id, n - 1);
      ls, a := Extend(sources, ls, a, id, Deliver);
    }
  }

  /** Any complete upload can be unpacked whole by an agent whose session ended before the upload was even opened. */
  lemma UnpackingOutlivesTheSession(sources: map<nat, Source>, id: nat) returns (all: seq<Label>, b: Agent)
    requires ValidSources(sources) && id in sources && IsUpload(sources[id].chunks, sources[id].file)
    ensures Reached(sources, all, b) && !b.live && id in b.uploads && b.uploads[id].unpacked == Some(sources[id].file)
  {
    var ls, a := AllDelivered(sources, id, |sources[id].chunks|);
    var over := Step(sources, a, SessionEnds);
    assert (ls + [SessionEnds])[..|ls|] == ls;
    all, b := UnpackedAfterTheSessionIff(sources, ls + [SessionEnds], over, id);
  }

  // ---- All of it can happen ------------------------------------------------------------------------

  /** An upload cut short after its first chunk: the handler waits for ever, and its file stays. */
  lemma UploadCanBeLeftBehind(deployment: string, byte: bv8)
      returns (sources: map<nat, Source>, ls: seq<Label>, a: Agent)
    ensures Reached(sources, ls, a) && 0 in sources && IsCutShort(sources[0].chunks, sources[0].file)
    ensures Quiet(sources, a, 0) && 0 in a.uploads && a.uploads[0].inFlight
    ensures sources[0].deployment == deployment && ZipOf(a, deployment) == Some([byte])
  {
    var chunk := Chunk([byte], false);
    assert [chunk][..0] == [];
    assert Data([chunk]) == [byte];
    sources := map[0 := Source(deployment, [chunk], [byte, byte])];
    ls, a := Extend(sources, [], Init(sources), 0, Deliver);
    ls, a := Extend(sources, ls, a, 0, Create);
    ls, a := Extend(sources, ls, a, 0, Take);
  }

  /** A file of one byte, sent as two chunks. */
  function OneByte(deployment: string, byte: bv8): map<nat, Source> {
    map[0 := Source(deployment, [Chunk([byte], false), Chunk([], true)], [byte])]
  }

  lemma OneByteIsUpload(deployment: string, byte: bv8)
    ensures ValidSources(OneByte(deployment, byte))
    ensures IsUpload(OneByte(deployment, byte)[0].chunks, [byte])
  {
    var chunk, end := Chunk([byte], false), Chunk([], true);
    assert [chunk, end][..1] == [chunk] && [chunk][..0] == [];
    assert Data([chunk]) == [byte];
  }

  /** A complete upload whose first chunk met a file that could not be created: only the rest is unpacked. */
  lemma OnlyTheRestCanBeUnpacked(deployment: string, byte: bv8)
      returns (sources: map<nat, Source>, ls: seq<Label>, a: Agent)
    ensures Reached(sources, ls, a) && 0 in sources && IsUpload(sources[0].chunks, [byte])
    ensures sources[0].file == [byte] && 0 in a.uploads && a.uploads[0].unpacked == Some([])
  {
    sources := OneByte(deployment, byte);
    OneByteIsUpload(deployment, byte);
    ls, a := FailedFirst(sources, Chunk([byte], false), Chunk([], true));
    ls, a := Extend(sources, ls, a, 0, Deliver);
    ls, a := Extend(sources, ls, a, 0, Create);
    ls, a := Extend(sources, ls, a, 0, Take);
    ls, a := Extend(sources, ls, a, 0, Unpack);
  }

  lemma FailedFirst(sources: map<nat, Source>, chunk: Chunk, end: Chunk) returns (ls: seq<Label>, a: Agent)
    requires ValidSources(sources) && 0 in sources && sources[0].chunks == [chunk, end]
    ensures Reached(sources, ls, a) && a.live && 0 in a.uploads
    ensures a.uploads[0] == Upload(1, false, Cleaned, 0, [chunk], 0, 1, 1, None)
  {
    ls, a := Extend(sources, [], Init(sources), 0, Deliver);
    ls, a := Extend(sources, ls, a, 0, Fail);
    ls, a := Extend(sources, ls, a, 0, Clean);
    ls, a := Extend(sources, ls, a, 0, Unregister);
  }
}
