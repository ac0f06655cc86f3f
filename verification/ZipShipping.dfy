/** Zipping a directory on the hub and unpacking the archive on the agent; an archive is its list of entries. */
module ZipShipping {
  import opened Wrappers
  import opened Protocol
  import opened Trees

  /** `size` is the uncompressed size the archive declares for the entry, a 64-bit number. */
  datatype ZipEntry = ZipEntry(name: string, size: nat, data: Bytes)

  datatype ZipError = EscapesDestination | TooLarge | Io

  const U64_MAX: nat := 0xFFFF_FFFF_FFFF_FFFF

  // ---- Writing ---------------------------------------------------------------------------------

  /** The entry that `add_directory` writes; its name ends in a slash. */
  function DirEntry(path: Path): ZipEntry {
    ZipEntry(Join(path) + "/", 0, [])
  }

  function FileEntry(path: Path, data: Bytes): ZipEntry {
    ZipEntry(Join(path), |data|, data)
  }

  /** The entries of one directory entry found at `path`; a directory comes before what it holds. */
  function EntriesOf(path: Path, node: Node): seq<ZipEntry>
    decreases node, 1
  {
    match node
    case File(data) => [FileEntry(path, data)]
    case Dir(entries) => [DirEntry(path)] + Entries(path, entries)
  }

  /** The entries of a tree found at `at`, in listing order. */
  function Entries(at: Path, l: Listing): seq<ZipEntry>
    decreases l, 0
  {
    match l
    case End => []
    case Entry(name, node, rest) => EntriesOf(at + [name], node) + Entries(at, rest)
  }

  lemma Regroup(a: seq<ZipEntry>, b: seq<ZipEntry>, c: seq<ZipEntry>)
    ensures a + b + c == a + (b + c)
  {
  }

  class ZipWriter {
    var entries: seq<ZipEntry>

    constructor ()
      ensures entries == []
    {
      entries := [];
    }

    method AddDirToZip(at: Path, l: Listing)
      modifies this
      ensures entries == old(entries) + Entries(at, l)
      decreases l
    {
      var left := l;
      ghost var done: seq<ZipEntry> := [];
      while left != End
        invariant left == l || left < l
        invariant entries == old(entries) + done && done + Entries(at, left) == Entries(at, l)
        decreases left
      {
        var path := at + [left.name];
        ghost var added := EntriesOf(path, left.node);
        match left.node {
          case Dir(sub) =>
            entries := entries + [DirEntry(path)];
            AddDirToZip(path, sub);
            Regroup(old(entries) + done, [DirEntry(path)], Entries(path, sub));
          case File(data) =>
            entries := entries + [FileEntry(path, data)];
        }
        Regroup(old(entries), done, added);
        Regroup(done, added, Entries(at, left.rest));
        done := done + added;
        left := left.rest;
      }
    }
  }

  method ZipDir(l: Listing) returns (archive: seq<ZipEntry>)
    ensures archive == Entries([], l)
  {
    var writer := new ZipWriter();
    writer.AddDirToZip([], l);
    archive := writer.entries;
  }

  // ---- Reading ---------------------------------------------------------------------------------

  predicate IsDir(e: ZipEntry) {
    e.name != "" && e.name[|e.name|-1] in {'/', '\\'}
  }

  /** Following the components from inside the destination never steps out of it. */
  predicate StaysInside(path: Path, depth: nat) {
    |path| > 0 ==>
      if path[0] == ".." then depth > 0 && StaysInside(path[1..], depth - 1) else StaysInside(path[1..], depth + 1)
  }

  /** `enclosed_name`: the entry's path, unless it is absolute, holds a NUL or would leave the destination. */
  function EnclosedName(e: ZipEntry): Option<Path> {
    if '\0' in e.name || (e.name != "" && e.name[0] == '/') || !StaysInside(Components(e.name), 0)
    then None
    else Some(Components(e.name))
  }

  predicate AllEnclosed(archive: seq<ZipEntry>) {
    forall i | 0 <= i < |archive| :: EnclosedName(archive[i]).Some?
  }

  function TotalSize(archive: seq<ZipEntry>): nat {
    if |archive| == 0 then 0 else TotalSize(archive[..|archive|-1]) + archive[|archive|-1].size
  }

  function SaturatingAdd(a: nat, b: nat): nat {
    if a + b > U64_MAX then U64_MAX else a + b
  }

  /** Where a path leads once ".." is followed; a path that stays inside never pops the destination itself. */
  function Resolve(path: Path): Path {
    if |path| == 0 then []
    else
      var parent, last := Resolve(path[..|path|-1]), path[|path|-1];
      if last != ".." then parent + [last] else if parent == [] then [] else parent[..|parent|-1]
  }

  /** `create_dir_all`: every directory on the way; fails where a file is in the way. */
  function MakeDirs(files: Files, path: Path): (Files, bool) {
    if |path| == 0 then (files, true)
    else
      var (made, ok) := MakeDirs(files, path[..|path|-1]);
      var here := Resolve(path);
      if !ok || here == [] then (made, ok)
      else if here in made then (made, made[here] == Folder)
      else (made[here := Folder], true)
  }

  /** Extracting one entry whose path is known to be enclosed. */
  function Extract(files: Files, e: ZipEntry, path: Path): (Files, bool) {
    if IsDir(e) then MakeDirs(files, path)
    else if path == [] then (files, false)
    else
      var (made, ok) := MakeDirs(files, path[..|path|-1]);
      var here := Resolve(path);
      if !ok || here == [] || (here in made && made[here] == Folder) then (made, false)
      else (made[here := Contents(e.data)], true)
  }

  /** Extracting entries in order, stopping at the first failure. */
  function ExtractAll(files: Files, archive: seq<ZipEntry>): (Files, bool)
    requires AllEnclosed(archive)
  {
    if |archive| == 0 then (files, true)
    else
      var init, e := archive[..|archive|-1], archive[|archive|-1];
      var (made, ok) := ExtractAll(files, init);
      if ok then Extract(made, e, EnclosedName(e).value) else (made, false)
  }

  /** The first pass over an archive: every path and the total size, before anything is written. */
  method CheckArchive(archive: seq<ZipEntry>, limit: nat) returns (r: Result<nat, ZipError>)
    requires limit <= U64_MAX
    ensures r == Err(EscapesDestination) <==> !AllEnclosed(archive)
    ensures r == Err(TooLarge) <==> AllEnclosed(archive) && SaturatingAdd(0, TotalSize(archive)) > limit
    ensures r.Ok? ==> r.value == SaturatingAdd(0, TotalSize(archive))
    ensures r.Ok? <==> AllEnclosed(archive) && SaturatingAdd(0, TotalSize(archive)) <= limit
    ensures r != Err(Io)
  {
    var totalSize := 0;
    for i := 0 to |archive|
      invariant forall j | 0 <= j < i :: EnclosedName(archive[j]).Some?
      invariant totalSize == SaturatingAdd(0, TotalSize(archive[..i]))
    {
      if EnclosedName(archive[i]).None? {
        return Err(EscapesDestination);
      }
      assert archive[..i + 1][..i] == archive[..i];
      totalSize := SaturatingAdd(totalSize, archive[i].size);
    }
    assert archive[..|archive|] == archive;
    return if totalSize > limit then Err(TooLarge) else Ok(totalSize);
  }

  class Destination {
    var files: Files

    constructor ()
      ensures files == map[]
    {
      files := map[];
    }

    /** The second pass: writes the entries in order and stops where the file system refuses one. */
    method ExtractEntries(archive: seq<ZipEntry>) returns (ok: bool)
      requires AllEnclosed(archive)
      modifies this
      ensures (files, ok) == ExtractAll(old(files), archive)
    {
      for i := 0 to |archive|
        invariant (files, true) == ExtractAll(old(files), archive[..i])
      {
        assert archive[..i + 1][..i] == archive[..i];
        var (made, done) := Extract(files, archive[i], EnclosedName(archive[i]).value);
        files := made;
        if !done {
          FailureIsFinal(old(files), archive, i + 1);
          return false;
        }
      }
      assert archive[..|archive|] == archive;
      return true;
    }

    /** An archive that fails the first pass writes nothing. */
    method UnpackZip(archive: seq<ZipEntry>, limit: nat) returns (r: Result<nat, ZipError>)
      requires limit <= U64_MAX
      modifies this
      ensures r == Err(EscapesDestination) <==> !AllEnclosed(archive)
      ensures r == Err(TooLarge) <==> AllEnclosed(archive) && SaturatingAdd(0, TotalSize(archive)) > limit
      ensures r == Err(EscapesDestination) || r == Err(TooLarge) ==> files == old(files)
      ensures r.Ok? ==> r.value == SaturatingAdd(0, TotalSize(archive))
      ensures r.Ok? || r == Err(Io) ==> AllEnclosed(archive) && (files, r.Ok?) == ExtractAll(old(files), archive)
      ensures r.Ok? <==>
              AllEnclosed(archive) && SaturatingAdd(0, TotalSize(archive)) <= limit && ExtractAll(old(files), archive).1
    {
      r := CheckArchive(archive, limit);
      if r.Ok? {
        var ok := ExtractEntries(archive);
        if !ok {
          r := Err(Io);
        }
      }
    }
  }

  lemma {:induction false} FailureIsFinal(files: Files, archive: seq<ZipEntry>, n: nat)
    requires AllEnclosed(archive) && n <= |archive| && !ExtractAll(files, archive[..n]).1
    ensures ExtractAll(files, archive) == ExtractAll(files, archive[..n])
    decreases |archive| - n
  {
    if n == |archive| {
      assert archive[..n] == archive;
    } else {
      assert archive[..n + 1][..n] == archive[..n];
      FailureIsFinal(files, archive, n + 1);
    }
  }

  /**
   * The size check compares a saturated sum. It agrees with the true sum for every limit but the largest
   * 64-bit number, which admits everything.
   */
  lemma AdmittedIff(archive: seq<ZipEntry>, limit: nat)
    requires limit <= U64_MAX
    ensures SaturatingAdd(0, TotalSize(archive)) <= limit <==> TotalSize(archive) <= limit || limit == U64_MAX
  {
  }

  /** Two entries that declare one byte more than fits into 64 bits pass under the largest limit. */
  lemma LargestLimitAdmitsMore()
    ensures var archive := [ZipEntry("a", U64_MAX, []), ZipEntry("b", 1, [])];
            TotalSize(archive) > U64_MAX && SaturatingAdd(0, TotalSize(archive)) <= U64_MAX
  {
    var archive := [ZipEntry("a", U64_MAX, []), ZipEntry("b", 1, [])];
    assert archive[..1] == [archive[0]] && archive[..1][..0] == [];
  }
}
