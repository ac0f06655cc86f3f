/** Unpacking what `zip_dir` wrote rebuilds the tree it was given, for every tree and every listing order. */
module ZipRoundTrip {
  import opened Wrappers
  import opened Protocol
  import opened Trees
  import opened ZipShipping

  lemma {:induction false} PlainStaysInside(path: Path, depth: nat)
    requires PlainPath(path)
    ensures StaysInside(path, depth)
  {
    if |path| > 0 {
      assert Plain(path[0]);
      PlainStaysInside(path[1..], depth + 1);
    }
  }

  lemma {:induction false} PlainResolves(path: Path)
    requires PlainPath(path)
    ensures Resolve(path) == path
  {
    if |path| > 0 {
      assert Plain(path[|path|-1]);
      PlainResolves(path[..|path|-1]);
      assert path == path[..|path|-1] + [path[|path|-1]];
    }
  }

  /** A name that the archive takes for a directory's. */
  predicate MarksDirectory(name: string) {
    name != "" && name[|name|-1] == '\\'
  }

  /** Reading back the name that the writer gave an entry. */
  lemma NamesReadBack(path: Path, data: Bytes)
    requires PlainPath(path) && path != []
    ensures EnclosedName(FileEntry(path, data)) == Some(path)
    ensures IsDir(FileEntry(path, data)) <==> MarksDirectory(path[|path|-1])
    ensures EnclosedName(DirEntry(path)) == Some(path) && IsDir(DirEntry(path))
  {
    ComponentsOfJoin(path);
    JoinIsOrdinary(path);
    PlainStaysInside(path, 0);
    assert (Join(path) + "/")[0] == Join(path)[0];
  }

  lemma {:induction false} TotalSizeOfConcat(a: seq<ZipEntry>, b: seq<ZipEntry>)
    ensures TotalSize(a + b) == TotalSize(a) + TotalSize(b)
  {
    if |b| == 0 {
      assert a + b == a;
    } else {
      assert (a + b)[..|a + b|-1] == a + b[..|b|-1];
      TotalSizeOfConcat(a, b[..|b|-1]);
    }
  }

  lemma SizeOfOne(e: ZipEntry)
    ensures TotalSize([e]) == e.size
  {
    assert [e][..0] == [];
  }

  function NodeBytes(node: Node): nat {
    match node
    case File(data) => |data|
    case Dir(entries) => TreeBytes(entries)
  }

  /** Every entry of a tree is admissible, and the declared sizes add up to the tree's. */
  lemma {:induction false} EntriesAdmissible(at: Path, l: Listing)
    requires PlainPath(at) && IsTree(l)
    ensures AllEnclosed(Entries(at, l)) && TotalSize(Entries(at, l)) == TreeBytes(l)
    decreases l, 1
  {
    if l.Entry? {
      var path := at + [l.name];
      EntriesAdmissible(at, l.rest);
      NodeAdmissible(path, l.node);
      TotalSizeOfConcat(EntriesOf(path, l.node), Entries(at, l.rest));
    }
  }

  lemma {:induction false} NodeAdmissible(path: Path, node: Node)
    requires PlainPath(path) && path != [] && (node.Dir? ==> IsTree(node.entries))
    ensures AllEnclosed(EntriesOf(path, node)) && TotalSize(EntriesOf(path, node)) == NodeBytes(node)
    decreases node, 0
  {
    match node {
      case File(data) =>
        NamesReadBack(path, data);
        SizeOfOne(FileEntry(path, data));
      case Dir(entries) =>
        NamesReadBack(path, []);
        EntriesAdmissible(path, entries);
        SizeOfOne(DirEntry(path));
        TotalSizeOfConcat([DirEntry(path)], Entries(path, entries));
    }
  }

  lemma {:induction false} ExtractConcat(files: Files, a: seq<ZipEntry>, b: seq<ZipEntry>)
    requires AllEnclosed(a) && AllEnclosed(b) && ExtractAll(files, a).1
    ensures AllEnclosed(a + b) && ExtractAll(files, a + b) == ExtractAll(ExtractAll(files, a).0, b)
  {
    if |b| == 0 {
      assert a + b == a;
    } else {
      assert (a + b)[..|a + b|-1] == a + b[..|b|-1];
      ExtractConcat(files, a, b[..|b|-1]);
    }
  }

  lemma ExtractOne(files: Files, e: ZipEntry)
    requires EnclosedName(e).Some?
    ensures AllEnclosed([e]) && ExtractAll(files, [e]) == Extract(files, e, EnclosedName(e).value)
  {
    assert [e][..0] == [];
  }

  // ---- Writing into a directory that has room for the tree ------------------------------------

  /** Every directory on the way to `path`, itself included, is there. */
  ghost predicate HasDirs(files: Files, path: Path) {
    forall k | 1 <= k <= |path| :: path[..k] in files && files[path[..k]] == Folder
  }

  predicate Under(p: Path, at: Path) {
    |at| < |p| && p[..|at|] == at
  }

  /** Nothing in `files` is in the way of the entries of `l` at `at`. */
  ghost predicate HasRoom(files: Files, at: Path, l: Listing) {
    forall p | p in files && Under(p, at) :: p[|at|] !in Names(l)
  }

  lemma UnderChild(p: Path, at: Path, name: string)
    requires Under(p, at + [name])
    ensures Under(p, at) && p[|at|] == name
  {
    var path := at + [name];
    assert p[..|at|] == p[..|path|][..|at|];
    assert p[|at|] == p[..|path|][|at|];
  }

  lemma {:induction false} MakeDirsIdle(files: Files, path: Path)
    requires PlainPath(path) && HasDirs(files, path)
    ensures MakeDirs(files, path) == (files, true)
  {
    if |path| > 0 {
      var parent := path[..|path|-1];
      assert forall k | 1 <= k <= |parent| :: parent[..k] == path[..k];
      MakeDirsIdle(files, parent);
      PlainResolves(path);
      assert path[..|path|] == path;
    }
  }

  /** The flat view of a tree lies under the place it is put. */
  lemma {:induction false} FlattenStaysUnder(at: Path, l: Listing, p: Path)
    requires p in Flatten(at, l)
    ensures Under(p, at) && p[|at|] in Names(l)
    decreases l
  {
    var here := at + [l.name];
    if p in Flatten(at, l.rest) {
      FlattenStaysUnder(at, l.rest, p);
    } else if p != here {
      FlattenStaysUnder(here, l.node.entries, p);
      UnderChild(p, at, l.name);
    }
  }

  /** A single entry, extracted where its parent exists and its own name is free. */
  lemma ExtractsDirEntry(files: Files, at: Path, name: string)
    requires PlainPath(at) && Plain(name) && HasDirs(files, at) && (at + [name]) !in files
    ensures AllEnclosed([DirEntry(at + [name])])
    ensures ExtractAll(files, [DirEntry(at + [name])]) == (files[at + [name] := Folder], true)
  {
    var path := at + [name];
    assert path[..|path|-1] == at;
    MakeDirsIdle(files, at);
    PlainResolves(path);
    NamesReadBack(path, []);
    ExtractOne(files, DirEntry(path));
  }

  lemma ExtractsFileEntry(files: Files, at: Path, name: string, data: Bytes)
    requires PlainPath(at) && Plain(name) && HasDirs(files, at) && (at + [name]) !in files
    ensures AllEnclosed([FileEntry(at + [name], data)])
    ensures ExtractAll(files, [FileEntry(at + [name], data)])
            == (files[at + [name] := if MarksDirectory(name) then Folder else Contents(data)], true)
  {
    var path := at + [name];
    assert path[..|path|-1] == at;
    MakeDirsIdle(files, at);
    PlainResolves(path);
    NamesReadBack(path, data);
    ExtractOne(files, FileEntry(path, data));
  }

  lemma RoomForRest(files: Files, more: Files, at: Path, l: Listing)
    requires l.Entry? && IsTree(l) && HasDirs(files, at) && HasRoom(files, at, l)
    requires forall p | p in more :: Under(p, at) && p[|at|] == l.name
    ensures HasDirs(files + more, at) && HasRoom(files + more, at, l.rest)
  {
    forall k | 1 <= k <= |at|
      ensures at[..k] in files + more && (files + more)[at[..k]] == Folder
    {
      assert at[..k] !in more;
    }
  }

  lemma RoomInside(files: Files, at: Path, l: Listing)
    requires l.Entry? && l.node.Dir? && HasDirs(files, at) && HasRoom(files, at, l)
    ensures var path := at + [l.name];
            HasDirs(files[path := Folder], path) && HasRoom(files[path := Folder], path, l.node.entries)
  {
    var path := at + [l.name];
    forall k | 1 <= k <= |path|
      ensures path[..k] in files[path := Folder] && files[path := Folder][path[..k]] == Folder
    {
      if k == |path| {
        assert path[..k] == path;
      } else {
        assert path[..k] == at[..k];
      }
    }
    forall p | p in files ensures Under(p, path) ==> Under(p, at) && p[|at|] == l.name {
      if Under(p, path) {
        UnderChild(p, at, l.name);
      }
    }
  }

  /** What one directory entry adds. */
  function FlattenOne(path: Path, node: Node): Files {
    match node
    case File(data) => map[path := Contents(data)]
    case Dir(entries) => map[path := Folder] + Flatten(path, entries)
  }

  lemma FlattenOneStaysUnder(at: Path, l: Listing)
    requires l.Entry?
    ensures forall p | p in FlattenOne(at + [l.name], l.node) :: Under(p, at) && p[|at|] == l.name
  {
    var path := at + [l.name];
    forall p | p in FlattenOne(path, l.node) ensures Under(p, at) && p[|at|] == l.name {
      if p != path {
        FlattenStaysUnder(path, l.node.entries, p);
        UnderChild(p, at, l.name);
      }
    }
  }

  /** A tree is its first entry and the rest, which do not overlap. */
  lemma FlattenSplits(at: Path, l: Listing)
    requires l.Entry? && IsTree(l)
    ensures Flatten(at, l) == FlattenOne(at + [l.name], l.node) + Flatten(at, l.rest)
  {
    var one, rest := FlattenOne(at + [l.name], l.node), Flatten(at, l.rest);
    FlattenOneStaysUnder(at, l);
    forall p | p in rest ensures p !in one {
      FlattenStaysUnder(at, l.rest, p);
    }
    assert Flatten(at, l) == one + rest;
  }

  lemma SwapDisjoint(one: Files, two: Files, rest: Files)
    requires one.Keys !! two.Keys
    ensures one + (two + rest) == two + (one + rest)
  {
  }

  function Find(l: Listing, name: string): (r: Option<Node>)
    ensures r.Some? <==> name in Names(l)
  {
    match l
    case End => None
    case Entry(first, node, rest) => if first == name then Some(node) else Find(rest, name)
  }

  function Without(l: Listing, name: string): Listing {
    match l
    case End => End
    case Entry(first, node, rest) => if first == name then rest else Entry(first, node, Without(rest, name))
  }

  /** Whatever `l` lists, `k` lists too, up to order at every level below. */
  predicate Agrees(l: Listing, k: Listing)
    decreases l
  {
    match l
    case End => true
    case Entry(name, node, rest) =>
      && Find(k, name).Some? && Agrees(rest, k)
      && match (node, Find(k, name).value)
         case (File(data), File(other)) => data == other
         case (Dir(entries), Dir(others)) => Names(entries) == Names(others) && Agrees(entries, others)
         case _ => false
  }

  /** The same entries in any order, at every level. */
  predicate SameUpToOrder(l: Listing, k: Listing) {
    Names(l) == Names(k) && Agrees(l, k)
  }

  lemma {:induction false} WithoutIsTree(k: Listing, name: string)
    requires IsTree(k)
    ensures IsTree(Without(k, name)) && Names(Without(k, name)) == Names(k) - {name}
  {
    if k.Entry? && k.name != name {
      WithoutIsTree(k.rest, name);
    }
  }

  lemma {:induction false} FindWithout(k: Listing, name: string, other: string)
    requires other != name
    ensures Find(Without(k, name), other) == Find(k, other)
  {
    if k.Entry? && k.name != name {
      FindWithout(k.rest, name, other);
    }
  }

  lemma {:induction false} AgreesWithout(l: Listing, k: Listing, name: string)
    requires Agrees(l, k) && name !in Names(l)
    ensures Agrees(l, Without(k, name))
  {
    if l.Entry? {
      FindWithout(k, name, l.name);
      AgreesWithout(l.rest, k, name);
    }
  }

  lemma {:induction false} FindIsTree(k: Listing, name: string)
    requires IsTree(k) && name in Names(k)
    ensures Find(k, name).value.Dir? ==> IsTree(Find(k, name).value.entries)
  {
    if k.name != name {
      FindIsTree(k.rest, name);
    }
  }

  lemma DifferentNamesDoNotMeet(at: Path, one: string, a: Node, two: string, b: Node)
    requires one != two
    ensures FlattenOne(at + [one], a).Keys !! FlattenOne(at + [two], b).Keys
  {
    FlattenOneStaysUnder(at, Entry(one, a, End));
    FlattenOneStaysUnder(at, Entry(two, b, End));
  }

  /** Any entry of a listing can be taken first. */
  lemma {:induction false} FlattenTakes(at: Path, k: Listing, name: string)
    requires IsTree(k) && name in Names(k)
    ensures Flatten(at, k) == FlattenOne(at + [name], Find(k, name).value) + Flatten(at, Without(k, name))
  {
    FlattenSplits(at, k);
    if k.name != name {
      FlattenTakes(at, k.rest, name);
      WithoutIsTree(k, name);
      FlattenSplits(at, Without(k, name));
      DifferentNamesDoNotMeet(at, k.name, k.node, name, Find(k, name).value);
      SwapDisjoint(FlattenOne(at + [k.name], k.node), FlattenOne(at + [name], Find(k, name).value),
                   Flatten(at, Without(k.rest, name)));
    }
  }

  lemma {:induction false} BytesTake(k: Listing, name: string)
    requires name in Names(k)
    ensures TreeBytes(k) == NodeBytes(Find(k, name).value) + TreeBytes(Without(k, name))
  {
    if k.name != name {
      BytesTake(k.rest, name);
    }
  }

  /** The order in which directories list their entries can be seen neither in the files nor in the size. */
  lemma {:induction false} ListingOrderIsInvisible(at: Path, l: Listing, k: Listing)
    requires IsTree(l) && IsTree(k) && SameUpToOrder(l, k)
    ensures Flatten(at, l) == Flatten(at, k) && TreeBytes(l) == TreeBytes(k)
    decreases l
  {
    if l.Entry? {
      var node := Find(k, l.name).value;
      FlattenSplits(at, l);
      FlattenTakes(at, k, l.name);
      BytesTake(k, l.name);
      WithoutIsTree(k, l.name);
      AgreesWithout(l.rest, k, l.name);
      ListingOrderIsInvisible(at, l.rest, Without(k, l.name));
      if l.node.Dir? {
        FindIsTree(k, l.name);
        ListingOrderIsInvisible(at + [l.name], l.node.entries, node.entries);
      }
    }
  }

  lemma UnionAssociates(a: Files, b: Files, c: Files)
    ensures a + b + c == a + (b + c)
  {
  }

  /** Two stretches of entries, each adding its own files. */
  lemma ExtractsBoth(files: Files, a: seq<ZipEntry>, one: Files, b: seq<ZipEntry>, two: Files)
    requires AllEnclosed(a) && AllEnclosed(b)
    requires ExtractAll(files, a) == (files + one, true)
    requires ExtractAll(files + one, b) == (files + one + two, true)
    ensures AllEnclosed(a + b) && ExtractAll(files, a + b) == (files + (one + two), true)
  {
    ExtractConcat(files, a, b);
    UnionAssociates(files, one, two);
  }

  // ---- What arrives --------------------------------------------------------------------------------

  /** The tree that extraction makes: a file whose name marks a directory has become an empty one. */
  function Arrived(l: Listing): Listing {
    match l
    case End => End
    case Entry(name, File(data), rest) =>
      Entry(name, if MarksDirectory(name) then Dir(End) else File(data), Arrived(rest))
    case Entry(name, Dir(entries), rest) => Entry(name, Dir(Arrived(entries)), Arrived(rest))
  }

  /** No file at any level has such a name. Directories may. */
  predicate NoMarkedFiles(l: Listing) {
    match l
    case End => true
    case Entry(name, File(_), rest) => !MarksDirectory(name) && NoMarkedFiles(rest)
    case Entry(_, Dir(entries), rest) => NoMarkedFiles(entries) && NoMarkedFiles(rest)
  }

  lemma {:induction false} ArrivedIsTree(l: Listing)
    requires IsTree(l)
    ensures IsTree(Arrived(l)) && Names(Arrived(l)) == Names(l)
    ensures NoMarkedFiles(l) ==> Arrived(l) == l
  {
    if l.Entry? {
      ArrivedIsTree(l.rest);
      if l.node.Dir? {
        ArrivedIsTree(l.node.entries);
      }
    }
  }

  /** Where a marked file shows. */
  lemma {:induction false} MarkedFileShows(at: Path, l: Listing) returns (p: Path)
    requires IsTree(l) && !NoMarkedFiles(l)
    ensures p in Flatten(at, l) && p in Flatten(at, Arrived(l)) && Flatten(at, l)[p] != Flatten(at, Arrived(l))[p]
    decreases l
  {
    var k := Arrived(l);
    var path := at + [l.name];
    ArrivedIsTree(l);
    FlattenSplits(at, l);
    FlattenSplits(at, k);
    if !NoMarkedFiles(l.rest) {
      p := MarkedFileShows(at, l.rest);
    } else {
      p := path;
      if l.node.Dir? {
        p := MarkedFileShows(path, l.node.entries);
        FlattenStaysUnder(path, l.node.entries, p);
        UnderChild(p, at, l.name);
      }
      NotAmongTheRest(at, l, p);
      NotAmongTheRest(at, k, p);
    }
  }

  lemma NotAmongTheRest(at: Path, l: Listing, p: Path)
    requires l.Entry? && IsTree(l) && Under(p, at) && p[|at|] == l.name
    ensures p !in Flatten(at, l.rest)
  {
    if p in Flatten(at, l.rest) {
      FlattenStaysUnder(at, l.rest, p);
    }
  }

  /** A tree arrives as it was exactly if none of its files has a name that marks a directory. */
  lemma ArrivesUnchangedIff(at: Path, l: Listing)
    requires IsTree(l)
    ensures Flatten(at, Arrived(l)) == Flatten(at, l) <==> NoMarkedFiles(l)
  {
    ArrivedIsTree(l);
    if !NoMarkedFiles(l) {
      var p := MarkedFileShows(at, l);
    }
  }

  /** Extracting any tree's entries into a place with room adds exactly what arrives of it. */
  lemma {:induction false} ExtractsTree(files: Files, at: Path, l: Listing)
    requires PlainPath(at) && IsTree(l) && HasDirs(files, at) && HasRoom(files, at, l)
    ensures AllEnclosed(Entries(at, l))
    ensures ExtractAll(files, Entries(at, l)) == (files + Flatten(at, Arrived(l)), true)
    decreases l, 1
  {
    if l.Entry? {
      var path, k := at + [l.name], Arrived(l);
      var one := FlattenOne(path, k.node);
      ArrivedIsTree(l);
      FlattenOneStaysUnder(at, k);
      ExtractsNode(files, at, l);
      RoomForRest(files, one, at, l);
      ExtractsTree(files + one, at, l.rest);
      ExtractsBoth(files, EntriesOf(path, l.node), one, Entries(at, l.rest), Flatten(at, k.rest));
      FlattenSplits(at, k);
    } else {
      assert files + map[] == files;
    }
  }

  lemma {:induction false} ExtractsNode(files: Files, at: Path, l: Listing)
    requires PlainPath(at) && l.Entry? && IsTree(l) && HasDirs(files, at) && HasRoom(files, at, l)
    ensures var path := at + [l.name];
            && AllEnclosed(EntriesOf(path, l.node))
            && ExtractAll(files, EntriesOf(path, l.node)) == (files + FlattenOne(path, Arrived(l).node), true)
    decreases l, 0
  {
    var path := at + [l.name];
    assert path !in files by {
      if path in files {
        assert Under(path, at);
      }
    }
    match l.node {
      case File(data) =>
        ExtractsFile(files, at, l.name, data);
      case Dir(entries) =>
        ExtractsDirEntry(files, at, l.name);
        RoomInside(files, at, l);
        ExtractsTree(files[path := Folder], path, entries);
        ExtractsInside(files, path, entries);
    }
  }

  lemma ExtractsFile(files: Files, at: Path, name: string, data: Bytes)
    requires PlainPath(at) && Plain(name) && HasDirs(files, at) && (at + [name]) !in files
    ensures var path, arrived := at + [name], if MarksDirectory(name) then Dir(End) else File(data);
            && AllEnclosed([FileEntry(path, data)])
            && ExtractAll(files, [FileEntry(path, data)]) == (files + FlattenOne(path, arrived), true)
  {
    var path := at + [name];
    var here := if MarksDirectory(name) then Folder else Contents(data);
    ExtractsFileEntry(files, at, name, data);
    assert map[path := Folder] + map[] == map[path := Folder];
    assert files[path := here] == files + map[path := here];
  }

  /** A directory's own entry and then what it holds. */
  lemma ExtractsInside(files: Files, path: Path, entries: Listing)
    requires AllEnclosed([DirEntry(path)]) && AllEnclosed(Entries(path, entries))
    requires ExtractAll(files, [DirEntry(path)]) == (files[path := Folder], true)
    requires ExtractAll(files[path := Folder], Entries(path, entries))
             == (files[path := Folder] + Flatten(path, Arrived(entries)), true)
    ensures AllEnclosed(EntriesOf(path, Dir(entries)))
    ensures ExtractAll(files, EntriesOf(path, Dir(entries)))
            == (files + FlattenOne(path, Dir(Arrived(entries))), true)
  {
    assert files[path := Folder] == files + map[path := Folder];
    ExtractsBoth(files, [DirEntry(path)], map[path := Folder], Entries(path, entries), Flatten(path, Arrived(entries)));
  }

  /** Unpacking what was zipped gives the tree back if and only if none of its files has such a name. */
  lemma TreeArrivesIff(l: Listing)
    requires IsTree(l)
    ensures AllEnclosed(Entries([], l)) && ExtractAll(map[], Entries([], l)).1
    ensures ExtractAll(map[], Entries([], l)).0 == Flatten([], Arrived(l))
    ensures ExtractAll(map[], Entries([], l)).0 == Flatten([], l) <==> NoMarkedFiles(l)
  {
    ExtractsTree(map[], [], l);
    assert map[] + Flatten([], Arrived(l)) == Flatten([], Arrived(l));
    ArrivesUnchangedIff([], l);
  }

  /** One file with such a name, and what becomes of it. */
  lemma MarkedFileIsLost(data: Bytes)
    ensures var l := Entry("a\\", File(data), End);
            && IsTree(l) && AllEnclosed(Entries([], l))
            && ExtractAll(map[], Entries([], l)).0 == map[["a\\"] := Folder] != Flatten([], l)
  {
    var l := Entry("a\\", File(data), End);
    TreeArrivesIff(l);
    assert [] + ["a\\"] == ["a\\"];
    assert Arrived(l) == Entry("a\\", Dir(End), End);
  }

  /**
   * Ship any tree, listed in any order, into an empty directory: within the limit it arrives, empty
   * directories included, and its size is reported - exactly as it was if and only if none of its files has
   * a name that marks a directory. Over the limit nothing is written.
   */
  method ShipTree(l: Listing, limit: nat) returns (r: Result<nat, ZipError>, files: Files)
    requires IsTree(l) && TreeBytes(l) <= U64_MAX && limit <= U64_MAX
    ensures TreeBytes(l) <= limit ==> r == Ok(TreeBytes(l)) && files == Flatten([], Arrived(l))
    ensures TreeBytes(l) <= limit ==> (files == Flatten([], l) <==> NoMarkedFiles(l))
    ensures TreeBytes(l) > limit ==> r == Err(TooLarge) && files == map[]
  {
    var archive := ZipDir(l);
    var dest := new Destination();
    EntriesAdmissible([], l);
    TreeArrivesIff(l);
    r := dest.UnpackZip(archive, limit);
    files := dest.files;
  }
}
