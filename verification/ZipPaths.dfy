/** Where the entries of an archive lead: inside the destination, or the archive is refused. */
module ZipPaths {
  import opened Wrappers
  import opened Protocol
  import opened Trees
  import opened ZipShipping
  import R = ZipRoundTrip

  // ---- Components of a name -----------------------------------------------------------------------

  lemma {:induction false} CutSplits(a: string, b: string)
    requires '/' in a
    ensures var (head, tail) := Cut(a);
            && '/' !in head && a == head + "/" + tail && Cut(a + "/" + b) == (head, tail + "/" + b)
  {
    if a[0] == '/' {
      assert (a + "/" + b)[1..] == a[1..] + "/" + b;
      assert a == "" + "/" + a[1..];
    } else {
      CutSplits(a[1..], b);
      assert (a + "/" + b)[0] == a[0] && (a + "/" + b)[1..] == a[1..] + "/" + b;
      assert a == [a[0]] + a[1..];
      var (head, tail) := Cut(a[1..]);
      assert a == ([a[0]] + head) + "/" + tail;
    }
  }

  /** The components of a name are those before a slash and those after it. */
  lemma {:induction false} ComponentsSplit(a: string, b: string)
    ensures Components(a + "/" + b) == Components(a) + Components(b)
    decreases |a|
  {
    if '/' in a {
      CutSplits(a, b);
      ComponentsSplit(Cut(a).1, b);
    } else {
      CutAtSlash(a, b);
      ComponentsOfName(a);
    }
  }

  /** A name without a slash is its own component, unless it is empty or names the directory it is in. */
  lemma ComponentsOfName(name: string)
    requires '/' !in name
    ensures Components(name) == if name == "" || name == "." then [] else [name]
  {
    CutWithoutSlash(name);
  }

  // ---- Walking a path -----------------------------------------------------------------------------

  /** Following a path from a directory that lies somewhere in a file system: ".." leads to its parent. */
  function Walk(base: Path, path: Path): Path {
    if |path| == 0 then base
    else
      var parent, last := Walk(base, path[..|path|-1]), path[|path|-1];
      if last != ".." then parent + [last] else if parent == [] then [] else parent[..|parent|-1]
  }

  lemma {:induction false} WalkFromNext(base: Path, path: Path)
    requires |path| > 0
    ensures Walk(base, path) == Walk(Walk(base, path[..1]), path[1..])
  {
    if |path| == 1 {
      assert path[..1] == path;
    } else {
      WalkFromNext(base, path[..|path|-1]);
      assert path[..|path|-1][..1] == path[..1] && path[..|path|-1][1..] == path[1..][..|path|-2];
    }
  }

  /** From `base` on, no step along the path is outside of `base`. */
  ghost predicate NeverLeaves(base: Path, start: Path, path: Path) {
    forall k | 0 <= k <= |path| :: base <= Walk(start, path[..k])
  }

  lemma NeverLeavesFromNext(base: Path, start: Path, path: Path)
    requires |path| > 0
    ensures NeverLeaves(base, start, path) <==> base <= start && NeverLeaves(base, Walk(start, path[..1]), path[1..])
  {
    forall k | 0 < k <= |path|
      ensures Walk(start, path[..k]) == Walk(Walk(start, path[..1]), path[1..][..k - 1])
    {
      WalkFromNext(start, path[..k]);
      assert path[..k][..1] == path[..1] && path[..k][1..] == path[1..][..k - 1];
    }
    assert path[..0] == [];
    if NeverLeaves(base, start, path) {
      forall k | 0 <= k <= |path| - 1
        ensures base <= Walk(Walk(start, path[..1]), path[1..][..k])
      {
        assert base <= Walk(start, path[..k + 1]);
      }
    }
  }

  lemma OneStep(start: Path, path: Path)
    requires |path| > 0
    ensures Walk(start, path[..1])
            == if path[0] != ".." then start + [path[0]] else if start == [] then [] else start[..|start|-1]
  {
    assert path[..1][..0] == [];
  }

  /** Counting depths is the same as never leaving, from any directory that has a parent. */
  lemma {:induction false} StaysInsideIff(base: Path, below: Path, path: Path)
    requires base != []
    ensures StaysInside(path, |below|) <==> NeverLeaves(base, base + below, path)
    decreases |path|
  {
    if |path| == 0 {
      assert path[..0] == [];
    } else {
      var start := base + below;
      NeverLeavesFromNext(base, start, path);
      OneStep(start, path);
      if path[0] != ".." {
        assert start + [path[0]] == base + (below + [path[0]]);
        StaysInsideIff(base, below + [path[0]], path[1..]);
      } else if below != [] {
        assert start[..|start|-1] == base + below[..|below|-1];
        StaysInsideIff(base, below[..|below|-1], path[1..]);
      } else {
        assert path[1..][..0] == [] && !(base <= start[..|start|-1]);
        assert !(base <= Walk(Walk(start, path[..1]), path[1..][..0]));
      }
    }
  }

  /**
   * An entry is admitted if and only if its name holds no NUL, does not start at the root, and never leads
   * out of the destination, wherever that lies.
   */
  lemma AdmittedNameIff(e: ZipEntry)
    ensures EnclosedName(e).Some? <==>
            && '\0' !in e.name && !(e.name != "" && e.name[0] == '/')
            && forall base: Path | base != [] :: NeverLeaves(base, base, Components(e.name))
    ensures EnclosedName(e).Some? ==> EnclosedName(e).value == Components(e.name)
  {
    forall base: Path | base != []
      ensures StaysInside(Components(e.name), 0) <==> NeverLeaves(base, base, Components(e.name))
    {
      assert base + [] == base;
      StaysInsideIff(base, [], Components(e.name));
    }
    var somewhere: Path := ["somewhere"];
    assert StaysInside(Components(e.name), 0) <==> NeverLeaves(somewhere, somewhere, Components(e.name));
  }

  /** What the extraction calls a path is where the path leads, seen from the destination. */
  lemma {:induction false} ResolveIsWhereItLeads(base: Path, path: Path)
    requires base != [] && NeverLeaves(base, base, path)
    ensures Walk(base, path) == base + Resolve(path)
  {
    if |path| > 0 {
      NeverLeavesBefore(base, path, |path| - 1);
      ResolveIsWhereItLeads(base, path[..|path|-1]);
      assert path[..|path|] == path && base <= Walk(base, path);
    }
  }

  // ---- What is written ----------------------------------------------------------------------------

  /** The places that following `path` comes by. */
  function OnTheWay(path: Path): set<Path> {
    if |path| == 0 then {} else OnTheWay(path[..|path|-1]) + {Resolve(path)}
  }

  lemma {:induction false} OnTheWayIff(path: Path, p: Path)
    ensures p in OnTheWay(path) <==> exists k :: 0 < k <= |path| && p == Resolve(path[..k])
  {
    if |path| > 0 {
      var before := path[..|path|-1];
      OnTheWayIff(before, p);
      assert path[..|path|] == path;
      forall k | 0 < k <= |before|
        ensures path[..k] == before[..k]
      {
      }
      if p == Resolve(path) {
        assert p == Resolve(path[..|path|]);
      } else if k :| 0 < k <= |path| && p == Resolve(path[..k]) {
        assert p == Resolve(before[..k]);
      }
    }
  }

  /** No place on the way, short of the destination itself, is taken by a file. */
  ghost predicate WayIsFree(files: Files, path: Path) {
    forall p | p in OnTheWay(path) && p in files :: files[p] == Folder
  }

  /**
   * Making the directories on the way succeeds exactly if no file is in the way; it leaves everything that is
   * there alone, and what it adds are folders on the way - all that were missing, if it succeeds.
   */
  lemma {:induction false} MakeDirsIs(files: Files, path: Path)
    requires [] !in files
    ensures var (made, ok) := MakeDirs(files, path);
            && [] !in made
            && (ok <==> WayIsFree(files, path))
            && (forall p | p in files :: p in made && made[p] == files[p])
            && (forall p | p in made && p !in files :: made[p] == Folder && p in OnTheWay(path))
            && (ok ==> forall p | p in OnTheWay(path) && p != [] :: p in made && made[p] == Folder)
  {
    if |path| > 0 {
      MakeDirsIs(files, path[..|path|-1]);
    }
  }

  /**
   * Extracting a file succeeds exactly if no file is in its way and it is not itself a folder's place; it puts
   * the content there, whatever file was there before, and leaves everything else alone.
   */
  lemma ExtractingAFileIs(files: Files, e: ZipEntry, path: Path)
    requires [] !in files && !IsDir(e) && path != []
    ensures var (made, ok) := Extract(files, e, path);
            var here, parents := Resolve(path), path[..|path|-1];
            && (ok <==> WayIsFree(files, parents) && here != [] && here !in OnTheWay(parents)
                        && (here in files ==> files[here] != Folder))
            && (ok ==> here in made && made[here] == Contents(e.data))
            && (forall p | p in files && p != here :: p in made && made[p] == files[p])
            && (forall p | p in made && p !in files && p != here :: made[p] == Folder && p in OnTheWay(parents))
            && (ok ==> forall p | p in OnTheWay(parents) && p != [] :: p in made && made[p] == Folder)
  {
    MakeDirsIs(files, path[..|path|-1]);
  }

  /** A file entry whose name leads nowhere, such as ".", cannot be written. */
  lemma NamelessFilesFail(files: Files, e: ZipEntry)
    requires !IsDir(e)
    ensures Extract(files, e, []) == (files, false)
  {
  }

  /** A step that differs anywhere differs on the way of its own entry. */
  lemma ExtractTouchesOnly(files: Files, e: ZipEntry, path: Path, p: Path)
    requires [] !in files
    ensures [] !in Extract(files, e, path).0
    ensures p !in OnTheWay(path) ==> (p in Extract(files, e, path).0 <==> p in files)
    ensures p !in OnTheWay(path) && p in files ==> Extract(files, e, path).0[p] == files[p]
  {
    if IsDir(e) {
      MakeDirsIs(files, path);
    } else if path != [] {
      MakeDirsIs(files, path[..|path|-1]);
    }
  }

  /** Some entry of the archive comes by `p`. */
  ghost predicate Reaches(archive: seq<ZipEntry>, p: Path) {
    exists i :: 0 <= i < |archive| && p in OnTheWay(Components(archive[i].name))
  }

  lemma {:induction false} ExtractAllTouchesOnly(files: Files, archive: seq<ZipEntry>, p: Path)
    requires [] !in files && AllEnclosed(archive)
    ensures [] !in ExtractAll(files, archive).0
    ensures !Reaches(archive, p) ==> (p in ExtractAll(files, archive).0 <==> p in files)
    ensures !Reaches(archive, p) && p in files ==> ExtractAll(files, archive).0[p] == files[p]
  {
    if |archive| > 0 {
      var before, e := archive[..|archive|-1], archive[|archive|-1];
      ExtractAllTouchesOnly(files, before, p);
      if Reaches(before, p) {
        var i :| 0 <= i < |before| && p in OnTheWay(Components(before[i].name));
        assert archive[i] == before[i];
      }
      ExtractTouchesOnly(ExtractAll(files, before).0, e, EnclosedName(e).value, p);
    }
  }

  /**
   * Nothing an admitted archive writes lies outside the destination: whatever it changes is a place that one
   * of its entries comes by, and wherever the destination lies, that place is in it.
   */
  lemma NothingIsWrittenOutside(files: Files, archive: seq<ZipEntry>, base: Path, p: Path)
    requires [] !in files && AllEnclosed(archive) && base != []
    requires var made := ExtractAll(files, archive).0; (p in made) != (p in files) || (p in made && made[p] != files[p])
    ensures p != []
    ensures exists i, k ::
              && 0 <= i < |archive| && 0 < k <= |Components(archive[i].name)|
              && Walk(base, Components(archive[i].name)[..k]) == base + p
  {
    ExtractAllTouchesOnly(files, archive, p);
    ExtractAllTouchesOnly(files, archive, []);
    var i :| 0 <= i < |archive| && p in OnTheWay(Components(archive[i].name));
    AdmittedNameIff(archive[i]);
    var k := OnTheWayIsInside(base, Components(archive[i].name), p);
  }

  lemma OnTheWayIsInside(base: Path, path: Path, p: Path) returns (k: nat)
    requires base != [] && NeverLeaves(base, base, path) && p in OnTheWay(path)
    ensures 0 < k <= |path| && Walk(base, path[..k]) == base + p
  {
    OnTheWayIff(path, p);
    k :| 0 < k <= |path| && p == Resolve(path[..k]);
    NeverLeavesBefore(base, path, k);
    ResolveIsWhereItLeads(base, path[..k]);
  }

  lemma NeverLeavesBefore(base: Path, path: Path, k: nat)
    requires k <= |path| && NeverLeaves(base, base, path)
    ensures NeverLeaves(base, base, path[..k])
  {
    forall j | 0 <= j <= k
      ensures base <= Walk(base, path[..k][..j])
    {
      assert path[..k][..j] == path[..j];
    }
  }

  /** The archive that must not pass. */
  lemma ClimbingOutIsRefused(data: Bytes)
    ensures !AllEnclosed([ZipEntry("../x", |data|, data)])
  {
    var e := ZipEntry("../x", |data|, data);
    ComponentsSplit("..", "x");
    ComponentsOfName("..");
    ComponentsOfName("x");
    assert ".." + "/" + "x" == "../x";
    assert EnclosedName([e][0]).None?;
  }

  // ---- Sizes ----------------------------------------------------------------------------------------

  /** What the entries of a tree hold. */
  function TotalData(archive: seq<ZipEntry>): nat {
    if |archive| == 0 then 0 else TotalData(archive[..|archive|-1]) + |archive[|archive|-1].data|
  }

  predicate DeclaresItsData(archive: seq<ZipEntry>) {
    forall e | e in archive :: e.size == |e.data|
  }

  /** Every entry of a tree declares exactly the bytes it holds. */
  lemma {:induction false} EntriesDeclareTheirData(at: Path, l: Listing)
    ensures DeclaresItsData(Entries(at, l))
    decreases l
  {
    if l.Entry? {
      if l.node.Dir? {
        EntriesDeclareTheirData(at + [l.name], l.node.entries);
      }
      EntriesDeclareTheirData(at, l.rest);
    }
  }

  lemma {:induction false} DeclaredIsHeld(archive: seq<ZipEntry>)
    requires DeclaresItsData(archive)
    ensures TotalSize(archive) == TotalData(archive)
  {
    if |archive| > 0 {
      var before := archive[..|archive|-1];
      assert forall e | e in before :: e in archive;
      assert archive[|archive|-1] in archive;
      DeclaredIsHeld(before);
    }
  }
  /** The size of a tree, and of its archive, is the number of bytes its files hold. */
  lemma TreeBytesAreHeld(at: Path, l: Listing)
    requires PlainPath(at) && IsTree(l)
    ensures TreeBytes(l) == TotalSize(Entries(at, l)) == TotalData(Entries(at, l))
  {
    R.EntriesAdmissible(at, l);
    EntriesDeclareTheirData(at, l);
    DeclaredIsHeld(Entries(at, l));
  }
}
