/** Directory trees, the flat view of a directory that a client can observe, and path names as text. */
module Trees {
  import opened Protocol

  /** A directory as `read_dir` yields it: its entries in whatever order the file system chooses. */
  datatype Listing = End | Entry(name: string, node: Node, rest: Listing)

  datatype Node = File(data: Bytes) | Dir(entries: Listing)

  type Path = seq<string>

  datatype Content = Folder | Contents(data: Bytes)

  /** Everything below a directory, by path; the directory itself is the empty path and is not listed. */
  type Files = map<Path, Content>

  /** A name a directory entry can have. */
  predicate Plain(name: string) {
    name != "" && name != "." && name != ".." && '/' !in name && '\0' !in name
  }

  predicate PlainPath(path: Path) {
    forall name | name in path :: Plain(name)
  }

  function Names(l: Listing): set<string> {
    match l
    case End => {}
    case Entry(name, _, rest) => {name} + Names(rest)
  }

  /** Entry names are plain and distinct, at every level. */
  predicate IsTree(l: Listing) {
    match l
    case End => true
    case Entry(name, node, rest) =>
      Plain(name) && name !in Names(rest) && (node.Dir? ==> IsTree(node.entries)) && IsTree(rest)
  }

  /** The paths and contents of a tree placed at `at`. Two listings of one directory have the same flat view. */
  function Flatten(at: Path, l: Listing): Files
    decreases l
  {
    match l
    case End => map[]
    case Entry(name, File(data), rest) => Flatten(at, rest)[at + [name] := Contents(data)]
    case Entry(name, Dir(entries), rest) =>
      Flatten(at, rest)[at + [name] := Folder] + Flatten(at + [name], entries)
  }

  /** The bytes in all files of a tree. */
  function TreeBytes(l: Listing): nat {
    match l
    case End => 0
    case Entry(_, File(data), rest) => |data| + TreeBytes(rest)
    case Entry(_, Dir(entries), rest) => TreeBytes(entries) + TreeBytes(rest)
  }

  /** `dir_size_bytes`. */
  method DirSizeBytes(l: Listing) returns (total: nat)
    ensures total == TreeBytes(l)
  {
    total := 0;
    var left := l;
    while left != End
      invariant total + TreeBytes(left) == TreeBytes(l)
      invariant left == l || left < l
      decreases left
    {
      var size: nat;
      match left.node {
        case Dir(entries) => size := DirSizeBytes(entries);
        case File(data) => size := |data|;
      }
      total := total + size;
      left := left.rest;
    }
  }

  // ---- Path names ------------------------------------------------------------------------------

  /** The components of a path joined by slashes. */
  function Join(path: Path): string {
    if |path| == 0 then ""
    else if |path| == 1 then path[0]
    else path[0] + "/" + Join(path[1..])
  }

  /** The text up to the first slash, and the text after it. */
  function Cut(text: string): (r: (string, string))
    ensures |r.0| <= |text| && (text != "" ==> |r.1| < |text|)
  {
    if text == "" then ("", "")
    else if text[0] == '/' then ("", text[1..])
    else var (head, tail) := Cut(text[1..]); ([text[0]] + head, tail)
  }

  /** The components of a path name; empty ones and "." carry no meaning and are skipped. */
  function Components(text: string): Path
    decreases |text|
  {
    if text == "" then []
    else
      var (head, tail) := Cut(text);
      (if head == "" || head == "." then [] else [head]) + Components(tail)
  }

  lemma {:induction false} CutAtSlash(head: string, tail: string)
    requires '/' !in head
    ensures Cut(head + "/" + tail) == (head, tail)
  {
    if head == "" {
      assert head + "/" + tail == "/" + tail;
    } else {
      CutAtSlash(head[1..], tail);
      assert (head + "/" + tail)[0] == head[0];
      assert (head + "/" + tail)[1..] == head[1..] + "/" + tail;
      assert [head[0]] + head[1..] == head;
    }
  }

  lemma {:induction false} CutWithoutSlash(head: string)
    requires '/' !in head
    ensures Cut(head) == (head, "")
  {
    if head != "" {
      CutWithoutSlash(head[1..]);
      assert [head[0]] + head[1..] == head;
    }
  }

  lemma OneMoreComponent(head: string, tail: string)
    requires Plain(head)
    ensures Components(head + "/" + tail) == [head] + Components(tail)
  {
    CutAtSlash(head, tail);
  }

  /** Splitting a joined path gives the path back, with or without the slash that marks a directory. */
  lemma {:induction false} ComponentsOfJoin(path: Path)
    requires PlainPath(path)
    ensures Components(Join(path)) == path
    ensures path != [] ==> Components(Join(path) + "/") == path
  {
    if |path| == 1 {
      assert Plain(path[0]);
      CutWithoutSlash(path[0]);
      OneMoreComponent(path[0], "");
      assert path[0] + "/" + "" == path[0] + "/";
    } else if |path| > 1 {
      ComponentsOfJoin(path[1..]);
      OneMoreComponent(path[0], Join(path[1..]));
      OneMoreComponent(path[0], Join(path[1..]) + "/");
      assert Join(path) + "/" == path[0] + "/" + (Join(path[1..]) + "/");
    }
  }

  /** A joined path starts with an ordinary character, holds no NUL, and ends as its last name does. */
  lemma {:induction false} JoinIsOrdinary(path: Path)
    requires PlainPath(path)
    ensures '\0' !in Join(path)
    ensures path != [] ==>
              && Join(path) != "" && Join(path)[0] != '/' && path[|path|-1] != ""
              && Join(path)[|Join(path)|-1] == path[|path|-1][|path[|path|-1]|-1] != '/'
  {
    if |path| > 0 {
      var name := path[0];
      assert Plain(name);
      assert name[0] in name && name[|name|-1] in name;
      if |path| > 1 {
        JoinIsOrdinary(path[1..]);
        assert Join(path)[0] == name[0];
      }
    }
  }
}
