/** The ignored-content inventory: a depth-first walk over possibly overlapping roots, feeding one
    byte stream. */
module IgnoredWalk {
  import opened Model
  import opened Ordering
  import opened Framing

  type Path = seq<Bytes>

  /** A file system object as the walk meets it. A file has the size its entry shows, the size seen
      once opened if it still is a regular file, the chunks successive reads return, and the size
      shown afterwards. */
  datatype Node =
    | Link(target: Bytes)
    | File(size: nat, found: Option<nat>, chunks: seq<Bytes>, after: nat)
    | Dir(entries: map<Bytes, Node>)
    | Special

  datatype Item =
    | LinkItem(path: Path, target: Bytes)
    | FileItem(path: Path, content: Bytes)
    | DirItem(path: Path)

  /** What the reads deliver; an empty one is the end of the file. */
  function Content(chunks: seq<Bytes>): Bytes {
    if chunks == [] || chunks[0] == [] then [] else chunks[0] + Content(chunks[1..])
  }

  /** The file did not change while it was inspected. */
  predicate Stable(file: Node)
    requires file.File?
  {
    file.found == Some(file.size) && |Content(file.chunks)| == file.size && file.after == file.size
  }

  function Names(dir: Node): (names: seq<Bytes>)
    requires dir.Dir?
    ensures StrictlySorted(names)
    ensures forall n: Bytes :: n in names <==> n in dir.entries
  {
    var names := SortedKeys(dir.entries.Keys);
    assert forall i | 0 <= i < |names| :: names[i] in names && names[i] in dir.entries.Keys;
    names
  }

  /** What is seen after a walk, and what it emitted. */
  datatype Walked = Walked(seen: set<Path>, items: seq<Item>)

  /** The walk of one subtree; nothing when an object is special or a file unstable. */
  function Walk(node: Node, path: Path, seen: set<Path>): Option<Walked>
    decreases node, 1, 0
  {
    if path in seen then Some(Walked(seen, []))
    else
      match node
      case Link(target) => Some(Walked(seen + {path}, [LinkItem(path, target)]))
      case File(_, _, chunks, _) =>
        if Stable(node) then Some(Walked(seen + {path}, [FileItem(path, Content(chunks))])) else None
      case Dir(_) =>
        (match WalkEntries(node, Names(node), path, seen + {path})
         case Some(w) => Some(Walked(w.seen, [DirItem(path)] + w.items))
         case None => None)
      case Special => None
  }

  function WalkEntries(dir: Node, names: seq<Bytes>, path: Path, seen: set<Path>): Option<Walked>
    requires dir.Dir? && forall n | n in names :: n in dir.entries
    decreases dir, 0, |names|
  {
    if names == [] then Some(Walked(seen, []))
    else
      match Walk(dir.entries[names[0]], path + [names[0]], seen)
      case None => None
      case Some(first) =>
        match WalkEntries(dir, names[1..], path, first.seen)
        case None => None
        case Some(rest) => Some(Walked(rest.seen, first.items + rest.items))
  }

  /** What stands at a path below `node`. */
  function NodeAt(node: Node, path: Path): Option<Node>
    decreases |path|
  {
    if path == [] then Some(node)
    else if node.Dir? && path[0] in node.entries then NodeAt(node.entries[path[0]], path[1..])
    else None
  }

  /** `ignored_content_inventory`: root after root, each skipped as far as it was seen before. */
  function WalkRoots(tree: Node, roots: seq<Path>, seen: set<Path>): Option<Walked>
    decreases |roots|
  {
    if roots == [] then Some(Walked(seen, []))
    else
      match NodeAt(tree, roots[0])
      case None => None
      case Some(node) =>
        match Walk(node, roots[0], seen)
        case None => None
        case Some(first) =>
          match WalkRoots(tree, roots[1..], first.seen)
          case None => None
          case Some(rest) => Some(Walked(rest.seen, first.items + rest.items))
  }

  // ---- the stream ----

  const TITLE: Bytes := "change-capsule ignored-content "
  const VERSION: Bytes := "inventory v2\0"
  const DOMAIN: Bytes := TITLE + VERSION
  const RELATIVE: Bytes := "relative"
  const TARGET: Bytes := "target"
  const TAG: Bytes := "unix-bytes"
  const LINK: Bytes := "link"
  const FILE: Bytes := "file"
  const DIR: Bytes := "dir"

  /** The path as bytes, components joined by slashes. */
  function Render(path: Path): Bytes {
    if path == [] then [] else if |path| == 1 then path[0] else path[0] + (['/'] + Render(path[1..]))
  }

  /** `update_native_path`. */
  function Native(field: Bytes, path: Bytes): Bytes {
    Field(field) + (TAG + Field(path))
  }

  function Body(item: Item): Bytes {
    match item
    case LinkItem(_, target) => LINK + Native(TARGET, target)
    case FileItem(_, content) => FILE + Field(content)
    case DirItem(_) => DIR
  }

  function Encode(item: Item): Bytes {
    Native(RELATIVE, Render(item.path)) + Body(item)
  }

  function EncodeAll(items: seq<Item>): Bytes {
    if items == [] then [] else Encode(items[0]) + EncodeAll(items[1..])
  }

  function Size(item: Item): nat {
    match item
    case LinkItem(_, target) => |target|
    case FileItem(_, content) => |content|
    case DirItem(_) => 0
  }

  function Total(items: seq<Item>): nat {
    if items == [] then 0 else Size(items[0]) + Total(items[1..])
  }

  /** The layout in full: path, kind, and what an object of that kind holds. */
  lemma LayoutIs(item: Item)
    ensures DOMAIN == "change-capsule ignored-content inventory v2\0"
    ensures Encode(item)
            == (Field("relative") + ("unix-bytes" + Field(Render(item.path))))
               + match item
                 case LinkItem(_, target) => "link" + (Field("target") + ("unix-bytes" + Field(target)))
                 case FileItem(_, content) => "file" + Field(content)
                 case DirItem(_) => "dir"
    ensures Size(item) == match item
                          case LinkItem(_, target) => |target|
                          case FileItem(_, content) => |content|
                          case DirItem(_) => 0
  {
    hide Field;
    hide Render;
  }

  lemma {:induction false} Concatenates(a: seq<Item>, b: seq<Item>)
    ensures EncodeAll(a + b) == EncodeAll(a) + EncodeAll(b)
    ensures Total(a + b) == Total(a) + Total(b)
    decreases |a|
  {
    hide Encode;
    hide Size;
    if a == [] {
      assert a + b == b;
    } else {
      assert (a + b)[0] == a[0] && (a + b)[1..] == a[1..] + b;
      Concatenates(a[1..], b);
    }
  }

  // ---- the walk as it runs ----

  /** The three accumulators the walk threads through its recursion. */
  class Inventory {
    var seen: set<Path>
    var total: nat
    var fed: Bytes

    constructor ()
      ensures seen == {} && total == 0 && fed == DOMAIN
    {
      seen, total, fed := {}, 0, DOMAIN;
    }

    /** The accumulators are what the walk makes of those before it, the total within 64 bits. */
    predicate Has(walked: Option<Walked>, ok: bool, total0: nat, fed0: Bytes)
      reads this
    {
      if ok then
        && walked.Some?
        && seen == walked.value.seen
        && total == total0 + Total(walked.value.items) < U64_BOUND
        && fed == fed0 + EncodeAll(walked.value.items)
      else walked.None? || total0 + Total(walked.value.items) >= U64_BOUND
    }

    /** The read loop over one opened file. */
    method ReadFile(file: Node) returns (ok: bool)
      requires file.File?
      modifies `fed
      ensures ok == Stable(file)
      ensures ok ==> fed == old(fed) + Field(Content(file.chunks))
    {
      hide Field;
      hide BigEndian;
      if file.found != Some(file.size) {
        return false;
      }
      var expected := file.size;
      fed := fed + BigEndian(expected, 8);
      ghost var start := fed;
      var observed, i := 0, 0;
      while i < |file.chunks| && file.chunks[i] != []
        invariant 0 <= i <= |file.chunks|
        invariant observed + |Content(file.chunks[i..])| == |Content(file.chunks)|
        invariant fed + Content(file.chunks[i..]) == start + Content(file.chunks)
        invariant observed <= expected
      {
        var buffer := file.chunks[i];
        assert file.chunks[i..][0] == buffer && file.chunks[i..][1..] == file.chunks[i + 1..];
        observed := observed + |buffer|;
        if observed > expected {
          return false;
        }
        assert fed + (buffer + Content(file.chunks[i + 1..])) == (fed + buffer) + Content(file.chunks[i + 1..]);
        fed := fed + buffer;
        i := i + 1;
      }
      assert Content(file.chunks[i..]) == [] && fed + [] == fed;
      FieldIs(old(fed), Content(file.chunks));
      return observed == expected && file.after == expected;
    }

    /** A link or a file: its item and its bytes, if the total still fits. */
    method Count(size: nat) returns (ok: bool)
      requires total < U64_BOUND
      modifies `total
      ensures ok == (old(total) + size < U64_BOUND)
      ensures total == if ok then old(total) + size else old(total)
    {
      ok := total + size < U64_BOUND;
      if ok {
        total := total + size;
      }
    }

    /** `inventory_path`. */
    method Visit(node: Node, path: Path) returns (ok: bool)
      requires total < U64_BOUND
      modifies this
      ensures Has(Walk(node, path, old(seen)), ok, old(total), old(fed))
      decreases node, 1, 0
    {
      hide Field;
      hide Native;
      hide Stable;
      hide Content;
      hide WalkEntries;
      hide EncodeAll;
      hide Total;
      hide Encode;
      hide Bound;
      NoItems(fed);
      if path in seen {
        return true;
      }
      ghost var seen0, total0, fed0 := seen, total, fed;
      seen := seen + {path};
      fed := fed + Native(RELATIVE, Render(path));
      match node {
        case Link(target) =>
          fed := fed + LINK;
          fed := fed + Native(TARGET, target);
          OneItem(fed0, LinkItem(path, target));
          ok := Count(|target|);
        case File(size, _, chunks, _) =>
          fed := fed + FILE;
          ok := ReadFile(node);
          OneItem(fed0, FileItem(path, Content(chunks)));
          if ok {
            StableSize(node);
            ok := Count(size);
          }
        case Dir(_) =>
          fed := fed + DIR;
          OneItem(fed0, DirItem(path));
          ok := VisitEntries(node, path);
          DirectoryFirst(node, path, seen0, fed0);
        case Special =>
          return false;
      }
    }

    /** Its loop over the sorted entries of a directory. */
    method VisitEntries(dir: Node, path: Path) returns (ok: bool)
      requires dir.Dir? && total < U64_BOUND
      modifies this
      ensures Has(WalkEntries(dir, Names(dir), path, old(seen)), ok, old(total), old(fed))
      decreases dir, 0, |Names(dir)|
    {
      hide Walk;
      hide WalkEntries;
      hide EncodeAll;
      hide Total;
      hide Bound;
      hide Prefixed;
      var names := Names(dir);
      var i := 0;
      ghost var done: seq<Item> := [];
      NoItems(fed);
      NothingBefore(WalkEntries(dir, names, path, seen));
      while i < |names|
        invariant 0 <= i <= |names|
        invariant total == old(total) + Total(done) < U64_BOUND
        invariant fed == old(fed) + EncodeAll(done)
        invariant forall n | n in names[i..] :: n in dir.entries
        invariant WalkEntries(dir, names, path, old(seen)) == Prefixed(done, WalkEntries(dir, names[i..], path, seen))
      {
        assert names[i..][0] == names[i] && names[i..][1..] == names[i + 1..];
        ghost var first := Walk(dir.entries[names[i]], path + [names[i]], seen);
        EntriesStep(dir, names[i..], path, seen);
        ok := Visit(dir.entries[names[i]], path + [names[i]]);
        if first.Some? {
          GoesOn(done, first.value.items, WalkEntries(dir, names[i + 1..], path, first.value.seen));
        } else {
          NothingAfter(done);
        }
        if !ok {
          return;
        }
        Assoc(old(fed), EncodeAll(done), EncodeAll(first.value.items));
        done := done + first.value.items;
        i := i + 1;
      }
      EntriesEnd(dir, names[i..], path, seen, done);
      return true;
    }

    /** `ignored_content_inventory`, on a fresh inventory. */
    method VisitRoots(tree: Node, roots: seq<Path>) returns (ok: bool)
      requires total < U64_BOUND
      modifies this
      ensures Has(WalkRoots(tree, roots, old(seen)), ok, old(total), old(fed))
    {
      hide Walk;
      hide WalkRoots;
      hide NodeAt;
      hide EncodeAll;
      hide Total;
      hide Bound;
      ghost var done: seq<Item> := [];
      NoItems(fed);
      NothingBefore(WalkRoots(tree, roots, seen));
      assert roots[0..] == roots;
      for i := 0 to |roots|
        invariant total == old(total) + Total(done) < U64_BOUND
        invariant fed == old(fed) + EncodeAll(done)
        invariant WalkRoots(tree, roots, old(seen)) == Prefixed(done, WalkRoots(tree, roots[i..], seen))
      {
        assert roots[i..][0] == roots[i] && roots[i..][1..] == roots[i + 1..];
        RootsStep(tree, roots[i..], seen);
        var found := NodeAt(tree, roots[i]);
        if found.None? {
          return false;
        }
        ghost var first := Walk(found.value, roots[i], seen);
        ok := Visit(found.value, roots[i]);
        if first.Some? {
          GoesOn(done, first.value.items, WalkRoots(tree, roots[i + 1..], first.value.seen));
        } else {
          NothingAfter(done);
        }
        if !ok {
          return;
        }
        Assoc(old(fed), EncodeAll(done), EncodeAll(first.value.items));
        done := done + first.value.items;
      }
      RootsEnd(tree, roots[|roots|..], seen, done);
      return true;
    }
  }

  /** The same walk with `done` emitted before it. */
  ghost function Prefixed(done: seq<Item>, walked: Option<Walked>): Option<Walked> {
    match walked
    case Some(w) => Some(Walked(w.seen, done + w.items))
    case None => None
  }

  lemma PrefixedTwice(a: seq<Item>, b: seq<Item>, walked: Option<Walked>)
    ensures Prefixed(a, Prefixed(b, walked)) == Prefixed(a + b, walked)
  {
    if walked.Some? {
      assert a + (b + walked.value.items) == (a + b) + walked.value.items;
    }
  }

  lemma NothingBefore(walked: Option<Walked>)
    ensures Prefixed([], walked) == walked
  {
    if walked.Some? {
      assert [] + walked.value.items == walked.value.items;
    }
  }

  /** What was done, then the first of what is left, then the rest. */
  lemma GoesOn(done: seq<Item>, first: seq<Item>, rest: Option<Walked>)
    ensures Prefixed(done, Prefixed(first, rest)) == Prefixed(done + first, rest)
    ensures EncodeAll(done + first) == EncodeAll(done) + EncodeAll(first)
    ensures Total(done + first) == Total(done) + Total(first)
    ensures rest.Some? ==> Total(Prefixed(done + first, rest).value.items) >= Total(done + first)
    ensures rest.None? ==> Prefixed(done + first, rest).None?
  {
    PrefixedTwice(done, first, rest);
    PrefixedTotal(done + first, rest);
    Concatenates(done, first);
  }

  lemma NothingAfter(done: seq<Item>)
    ensures Prefixed(done, None) == None
  {}

  lemma PrefixedTotal(done: seq<Item>, walked: Option<Walked>)
    ensures walked.Some? ==> Total(Prefixed(done, walked).value.items) >= Total(done)
  {
    if walked.Some? {
      Concatenates(done, walked.value.items);
    }
  }

  lemma NoItems(fed: Bytes)
    ensures EncodeAll([]) == [] && Total([]) == 0 && fed + [] == fed
  {}

  /** The first entry, then the others: failing at either fails the directory. */
  lemma EntriesStep(dir: Node, names: seq<Bytes>, path: Path, seen: set<Path>)
    requires dir.Dir? && names != [] && forall n | n in names :: n in dir.entries
    ensures var first := Walk(dir.entries[names[0]], path + [names[0]], seen);
            WalkEntries(dir, names, path, seen)
            == if first.None? then None
               else Prefixed(first.value.items, WalkEntries(dir, names[1..], path, first.value.seen))
  {
    hide Walk;
  }

  lemma EntriesEnd(dir: Node, names: seq<Bytes>, path: Path, seen: set<Path>, done: seq<Item>)
    requires dir.Dir? && names == []
    ensures Prefixed(done, WalkEntries(dir, names, path, seen)) == Some(Walked(seen, done))
  {
    assert done + [] == done;
  }

  lemma RootsStep(tree: Node, roots: seq<Path>, seen: set<Path>)
    requires roots != []
    ensures var node := NodeAt(tree, roots[0]);
            var first := if node.Some? then Walk(node.value, roots[0], seen) else None;
            WalkRoots(tree, roots, seen)
            == if first.None? then None
               else Prefixed(first.value.items, WalkRoots(tree, roots[1..], first.value.seen))
  {
    hide Walk;
  }

  lemma RootsEnd(tree: Node, roots: seq<Path>, seen: set<Path>, done: seq<Item>)
    requires roots == []
    ensures Prefixed(done, WalkRoots(tree, roots, seen)) == Some(Walked(seen, done))
  {
    assert done + [] == done;
  }

  lemma StableSize(file: Node)
    requires file.File? && Stable(file)
    ensures |Content(file.chunks)| == file.size
  {}

  lemma FieldIs(fed: Bytes, content: Bytes)
    ensures (fed + BigEndian(|content|, 8)) + content == fed + Field(content)
  {
    hide BigEndian;
  }

  lemma OneItem(fed: Bytes, item: Item)
    ensures EncodeAll([item]) == Encode(item) && Total([item]) == Size(item)
    ensures fed + Encode(item) == (fed + Native(RELATIVE, Render(item.path))) + Body(item)
    ensures item.LinkItem? ==>
          fed + Encode(item)
          == ((fed + Native(RELATIVE, Render(item.path))) + LINK) + Native(TARGET, item.target)
    ensures item.FileItem? ==>
          fed + Encode(item)
          == ((fed + Native(RELATIVE, Render(item.path))) + FILE) + Field(item.content)
  {
    hide Native;
    hide Field;
    assert [item][1..] == [];
    assert EncodeAll([item][1..]) == [] && Encode(item) + [] == Encode(item);
  }

  lemma DirectoryFirst(dir: Node, path: Path, seen: set<Path>, fed: Bytes)
    requires dir.Dir? && path !in seen
    ensures var inner := WalkEntries(dir, Names(dir), path, seen + {path});
            && Walk(dir, path, seen) == Prefixed([DirItem(path)], inner)
            && (inner.Some? ==>
                  fed + EncodeAll([DirItem(path)] + inner.value.items)
                  == (fed + Encode(DirItem(path))) + EncodeAll(inner.value.items)
                  && Total([DirItem(path)] + inner.value.items) == Total(inner.value.items))
  {
    hide Encode;
    hide EncodeAll;
    hide Total;
    var inner := WalkEntries(dir, Names(dir), path, seen + {path});
    OneItem(fed, DirItem(path));
    if inner.Some? {
      Concatenates([DirItem(path)], inner.value.items);
      Assoc(fed, Encode(DirItem(path)), EncodeAll(inner.value.items));
    }
  }

  lemma Assoc(a: Bytes, b: Bytes, c: Bytes)
    ensures a + (b + c) == (a + b) + c
  {}
}
