/** What the ignored-content inventory means: every object below a root exactly once, and a stream
    that can be read back. */
module IgnoredContent {
  import opened Model
  import opened Framing
  import opened Ordering
  import opened IgnoredWalk

  // ---- every descendant exactly once ----

  /** `q` names something in the subtree `node` found at `path`. */
  predicate Below(node: Node, path: Path, q: Path) {
    path <= q && NodeAt(node, q[|path|..]).Some?
  }

  /** Whatever was seen in this subtree was seen with all that is below it. */
  ghost predicate Closed(node: Node, path: Path, seen: set<Path>) {
    forall q, r | q in seen && Below(node, path, q) && Below(node, path, r) && q <= r :: r in seen
  }

  predicate Once(items: seq<Item>) {
    forall i, j | 0 <= i < j < |items| :: items[i].path != items[j].path
  }

  predicate Emits(items: seq<Item>, q: Path) {
    exists i | 0 <= i < |items| :: items[i].path == q
  }

  /** The item is what stands at its path. */
  predicate Describes(item: Item, found: Node) {
    match found
    case Link(target) => item == LinkItem(item.path, target)
    case File(_, _, chunks, _) => Stable(found) && item == FileItem(item.path, Content(chunks))
    case Dir(_) => item == DirItem(item.path)
    case Special => false
  }

  predicate Faithful(node: Node, path: Path, items: seq<Item>) {
    forall i | 0 <= i < |items| ::
      Below(node, path, items[i].path) && Describes(items[i], NodeAt(node, items[i].path[|path|..]).value)
  }

  /** A walk adds exactly the subtree to what is seen, and emits exactly what is new of it. */
  ghost predicate Covers(node: Node, path: Path, seen: set<Path>, w: Walked) {
    && (forall q :: q in w.seen <==> q in seen || Below(node, path, q))
    && (forall q :: Emits(w.items, q) <==> Below(node, path, q) && q !in seen)
    && Once(w.items)
    && Faithful(node, path, w.items)
  }

  predicate BelowOneOf(dir: Node, names: seq<Bytes>, path: Path, q: Path)
    requires dir.Dir? && forall n | n in names :: n in dir.entries
  {
    exists n | n in names :: Below(dir.entries[n], path + [n], q)
  }

  lemma ChildBelow(dir: Node, path: Path, n: Bytes, q: Path)
    requires dir.Dir? && n in dir.entries && Below(dir.entries[n], path + [n], q)
    ensures Below(dir, path, q) && q != path && q[|path|] == n
    ensures NodeAt(dir, q[|path|..]) == NodeAt(dir.entries[n], q[|path| + 1..])
  {
    assert q[|path|] == (path + [n])[|path|];
    assert path <= q by {
      assert path == (path + [n])[..|path|] == q[..|path|];
    }
    assert q[|path|..][1..] == q[|path| + 1..];
  }

  lemma BelowSplits(dir: Node, path: Path, q: Path)
    requires dir.Dir?
    ensures Below(dir, path, q) <==> q == path || BelowOneOf(dir, Names(dir), path, q)
  {
    if Below(dir, path, q) && q != path {
      var n := q[|path|];
      assert q[|path|..][0] == n && q[|path|..][1..] == q[|path| + 1..];
      assert q[..|path| + 1] == path + [n];
      assert n in Names(dir) && Below(dir.entries[n], path + [n], q);
    }
    if BelowOneOf(dir, Names(dir), path, q) {
      var n :| n in Names(dir) && Below(dir.entries[n], path + [n], q);
      ChildBelow(dir, path, n, q);
    }
    assert path[|path|..] == [];
  }

  lemma EmitsConcat(a: seq<Item>, b: seq<Item>, q: Path)
    ensures Emits(a + b, q) <==> Emits(a, q) || Emits(b, q)
  {
    if Emits(a, q) {
      var i :| 0 <= i < |a| && a[i].path == q;
      assert (a + b)[i].path == q;
    }
    if Emits(b, q) {
      var i :| 0 <= i < |b| && b[i].path == q;
      assert (a + b)[|a| + i].path == q;
    }
  }

  lemma OnceConcat(a: seq<Item>, b: seq<Item>)
    requires Once(a) && Once(b) && forall q :: !(Emits(a, q) && Emits(b, q))
    ensures Once(a + b)
  {
    forall i, j | 0 <= i < |a| && 0 <= j < |b|
      ensures a[i].path != b[j].path
    {
      assert Emits(a, a[i].path) && Emits(b, b[j].path);
    }
  }

  predicate Distinct(names: seq<Bytes>) {
    forall i, j | 0 <= i < j < |names| :: names[i] != names[j]
  }

  lemma NamesDistinct(dir: Node)
    requires dir.Dir?
    ensures Distinct(Names(dir))
  {
    var names := Names(dir);
    forall i, j | 0 <= i < j < |names|
      ensures names[i] != names[j]
    {
      Irreflexive(names[i]);
    }
  }

  /** The subtree is closed under everything seen, so is each of its children. */
  lemma ChildClosed(dir: Node, path: Path, n: Bytes, seen: set<Path>)
    requires dir.Dir? && n in dir.entries && Closed(dir, path, seen)
    ensures Closed(dir.entries[n], path + [n], seen + {path})
  {
    forall q, r | q in seen + {path} && Below(dir.entries[n], path + [n], q) && Below(dir.entries[n], path + [n], r) && q <= r
      ensures r in seen + {path}
    {
      ChildBelow(dir, path, n, q);
      ChildBelow(dir, path, n, r);
    }
  }

  /** Walking one child leaves its siblings closed: their subtrees are disjoint. */
  lemma SiblingClosed(dir: Node, path: Path, m: Bytes, n: Bytes, seen: set<Path>, after: set<Path>)
    requires dir.Dir? && m in dir.entries && n in dir.entries && m != n
    requires forall q :: q in after <==> q in seen || Below(dir.entries[m], path + [m], q)
    requires Closed(dir.entries[n], path + [n], seen)
    ensures Closed(dir.entries[n], path + [n], after)
  {
    forall q, r | q in after && Below(dir.entries[n], path + [n], q) && Below(dir.entries[n], path + [n], r) && q <= r
      ensures r in after
    {
      ChildBelow(dir, path, n, q);
      if Below(dir.entries[m], path + [m], q) {
        ChildBelow(dir, path, m, q);
        assert false;
      }
    }
  }

  /** The entries still to walk, and what walking them does. */
  ghost predicate EntriesCovered(dir: Node, names: seq<Bytes>, path: Path, seen: set<Path>, w: Walked)
    requires dir.Dir? && forall n | n in names :: n in dir.entries
  {
    && (forall q :: q in w.seen <==> q in seen || BelowOneOf(dir, names, path, q))
    && (forall q :: Emits(w.items, q) <==> BelowOneOf(dir, names, path, q) && q !in seen)
    && Once(w.items)
    && Faithful(dir, path, w.items)
  }

  lemma {:induction false} WalkCovers(node: Node, path: Path, seen: set<Path>)
    requires Closed(node, path, seen) && Walk(node, path, seen).Some?
    ensures Covers(node, path, seen, Walk(node, path, seen).value)
    decreases node, 1, 0
  {
    var w := Walk(node, path, seen).value;
    assert path[|path|..] == [] && Below(node, path, path);
    if path in seen {
      assert forall q | Below(node, path, q) :: path <= q && q in seen;
    } else if node.Dir? {
      NamesDistinct(node);
      forall n | n in Names(node)
        ensures Closed(node.entries[n], path + [n], seen + {path})
      {
        ChildClosed(node, path, n, seen);
      }
      EntriesCover(node, Names(node), path, seen + {path});
      DirectoryCovers(node, path, seen, WalkEntries(node, Names(node), path, seen + {path}).value);
    } else {
      LeafCovers(node, path, seen, w);
    }
  }

  lemma LeafCovers(node: Node, path: Path, seen: set<Path>, w: Walked)
    requires !node.Dir? && path !in seen && Walk(node, path, seen) == Some(w)
    ensures Covers(node, path, seen, w)
  {
    assert path[|path|..] == [];
    forall q
      ensures Below(node, path, q) <==> q == path
    {
      if Below(node, path, q) {
        assert q[|path|..] == [];
        assert q == q[..|path|] + q[|path|..];
      }
    }
    assert |w.items| == 1 && w.items[0].path == path;
  }

  lemma DirectoryCovers(dir: Node, path: Path, seen: set<Path>, inner: Walked)
    requires dir.Dir? && path !in seen && EntriesCovered(dir, Names(dir), path, seen + {path}, inner)
    ensures Covers(dir, path, seen, Walked(inner.seen, [DirItem(path)] + inner.items))
  {
    var w := Walked(inner.seen, [DirItem(path)] + inner.items);
    assert path[|path|..] == [] && Below(dir, path, path);
    assert [DirItem(path)][0].path == path;
    forall q
      ensures q in w.seen <==> q in seen || Below(dir, path, q)
      ensures Emits(w.items, q) <==> Below(dir, path, q) && q !in seen
    {
      BelowSplits(dir, path, q);
      EmitsConcat([DirItem(path)], inner.items, q);
      assert Emits([DirItem(path)], q) <==> q == path;
    }
    forall q
      ensures !(Emits([DirItem(path)], q) && Emits(inner.items, q))
    {}
    OnceConcat([DirItem(path)], inner.items);
    assert Faithful(dir, path, [DirItem(path)]);
    FaithfulConcat(dir, path, [DirItem(path)], inner.items);
  }

  lemma FaithfulConcat(node: Node, path: Path, a: seq<Item>, b: seq<Item>)
    requires Faithful(node, path, a) && Faithful(node, path, b)
    ensures Faithful(node, path, a + b)
  {}

  lemma ChildFaithful(dir: Node, path: Path, n: Bytes, items: seq<Item>)
    requires dir.Dir? && n in dir.entries && Faithful(dir.entries[n], path + [n], items)
    ensures Faithful(dir, path, items)
  {
    forall i | 0 <= i < |items|
      ensures Below(dir, path, items[i].path) && Describes(items[i], NodeAt(dir, items[i].path[|path|..]).value)
    {
      assert Below(dir.entries[n], path + [n], items[i].path);
      ChildBelow(dir, path, n, items[i].path);
    }
  }

  lemma {:induction false} EntriesCover(dir: Node, names: seq<Bytes>, path: Path, seen: set<Path>)
    requires dir.Dir? && Distinct(names) && forall n | n in names :: n in dir.entries
    requires forall n | n in names :: Closed(dir.entries[n], path + [n], seen)
    requires WalkEntries(dir, names, path, seen).Some?
    ensures EntriesCovered(dir, names, path, seen, WalkEntries(dir, names, path, seen).value)
    decreases dir, 0, |names|
  {
    hide Covers;
    hide Closed;
    hide EntriesCovered;
    hide Below;
    if names == [] {
      NothingCovered(dir, path, seen);
    } else {
      var n := names[0];
      assert n in names;
      EntriesStep(dir, names, path, seen);
      WalkCovers(dir.entries[n], path + [n], seen);
      var first := Walk(dir.entries[n], path + [n], seen).value;
      forall m | m in names[1..]
        ensures m in names && m != n && Closed(dir.entries[m], path + [m], first.seen)
      {
        SeenAfter(dir.entries[n], path + [n], seen, first);
        SiblingClosed(dir, path, n, m, seen, first.seen);
      }
      EntriesCover(dir, names[1..], path, first.seen);
      OneMoreCovered(dir, names, path, seen, first, WalkEntries(dir, names[1..], path, first.seen).value);
    }
  }

  lemma SeenAfter(node: Node, path: Path, seen: set<Path>, w: Walked)
    requires Covers(node, path, seen, w)
    ensures forall q :: q in w.seen <==> q in seen || Below(node, path, q)
  {}

  lemma NothingCovered(dir: Node, path: Path, seen: set<Path>)
    requires dir.Dir?
    ensures EntriesCovered(dir, [], path, seen, Walked(seen, []))
  {}

  lemma OneMoreCovered(dir: Node, names: seq<Bytes>, path: Path, seen: set<Path>, first: Walked, rest: Walked)
    requires dir.Dir? && names != [] && forall n | n in names :: n in dir.entries
    requires Covers(dir.entries[names[0]], path + [names[0]], seen, first)
    requires (forall n | n in names[1..] :: n in dir.entries) && EntriesCovered(dir, names[1..], path, first.seen, rest)
    ensures EntriesCovered(dir, names, path, seen, Walked(rest.seen, first.items + rest.items))
  {
    hide Below;
    hide Describes;
    var n := names[0];
    forall q
      ensures BelowOneOf(dir, names, path, q) <==> Below(dir.entries[n], path + [n], q) || BelowOneOf(dir, names[1..], path, q)
      ensures Emits(first.items + rest.items, q) <==> Emits(first.items, q) || Emits(rest.items, q)
      ensures !(Emits(first.items, q) && Emits(rest.items, q))
    {
      EmitsConcat(first.items, rest.items, q);
      assert forall m :: m in names <==> m == n || m in names[1..];
    }
    OnceConcat(first.items, rest.items);
    ChildFaithful(dir, path, n, first.items);
    FaithfulConcat(dir, path, first.items, rest.items);
  }

  // ---- overlapping roots ----

  lemma {:induction false} NodeAtSplits(node: Node, a: Path, b: Path)
    ensures NodeAt(node, a + b) == if NodeAt(node, a).Some? then NodeAt(NodeAt(node, a).value, b) else None
    decreases |a|
  {
    if a == [] {
      assert a + b == b;
    } else {
      assert (a + b)[0] == a[0] && (a + b)[1..] == a[1..] + b;
      if node.Dir? && a[0] in node.entries {
        NodeAtSplits(node.entries[a[0]], a[1..], b);
      }
    }
  }

  /** Below a root of the tree is below the tree, and the same node. */
  lemma RootBelow(tree: Node, root: Path, q: Path)
    requires NodeAt(tree, root).Some? && root <= q
    ensures Below(NodeAt(tree, root).value, root, q) <==> Below(tree, [], q)
    ensures NodeAt(NodeAt(tree, root).value, q[|root|..]) == NodeAt(tree, q)
  {
    NodeAtSplits(tree, root, q[|root|..]);
    assert root + q[|root|..] == q && q[0..] == q;
  }

  lemma RootClosed(tree: Node, root: Path, seen: set<Path>)
    requires NodeAt(tree, root).Some? && Closed(tree, [], seen)
    ensures Closed(NodeAt(tree, root).value, root, seen)
  {
    var node := NodeAt(tree, root).value;
    forall q, r | q in seen && Below(node, root, q) && Below(node, root, r) && q <= r
      ensures r in seen
    {
      RootBelow(tree, root, q);
      RootBelow(tree, root, r);
    }
  }

  lemma StaysClosed(tree: Node, root: Path, seen: set<Path>, after: set<Path>)
    requires NodeAt(tree, root).Some? && Closed(tree, [], seen)
    requires forall q :: q in after <==> q in seen || Below(NodeAt(tree, root).value, root, q)
    ensures Closed(tree, [], after)
  {
    var node := NodeAt(tree, root).value;
    forall q, r | q in after && Below(tree, [], q) && Below(tree, [], r) && q <= r
      ensures r in after
    {
      if Below(node, root, q) {
        assert root <= r by {
          assert root == q[..|root|] == r[..|root|];
        }
        RootBelow(tree, root, r);
      }
    }
  }

  /** Below one of the roots. */
  predicate BelowRoots(tree: Node, roots: seq<Path>, q: Path) {
    exists i | 0 <= i < |roots| :: roots[i] <= q && Below(tree, [], q)
  }

  ghost predicate RootsCovered(tree: Node, roots: seq<Path>, seen: set<Path>, w: Walked) {
    && (forall q :: Emits(w.items, q) <==> BelowRoots(tree, roots, q) && q !in seen)
    && Once(w.items)
    && Faithful(tree, [], w.items)
  }

  lemma {:induction false} RootsCover(tree: Node, roots: seq<Path>, seen: set<Path>)
    requires Closed(tree, [], seen) && WalkRoots(tree, roots, seen).Some?
    ensures RootsCovered(tree, roots, seen, WalkRoots(tree, roots, seen).value)
    decreases |roots|
  {
    hide Covers;
    hide Closed;
    hide RootsCovered;
    hide Below;
    hide Walk;
    if roots == [] {
      NoRootsCovered(tree, seen);
    } else {
      var node := NodeAt(tree, roots[0]).value;
      RootClosed(tree, roots[0], seen);
      WalkCovers(node, roots[0], seen);
      var first := Walk(node, roots[0], seen).value;
      SeenAfter(node, roots[0], seen, first);
      StaysClosed(tree, roots[0], seen, first.seen);
      RootsCover(tree, roots[1..], first.seen);
      OneMoreRoot(tree, roots, seen, first, WalkRoots(tree, roots[1..], first.seen).value);
    }
  }

  lemma NoRootsCovered(tree: Node, seen: set<Path>)
    ensures RootsCovered(tree, [], seen, Walked(seen, []))
  {}

  lemma RootFaithful(tree: Node, root: Path, items: seq<Item>)
    requires NodeAt(tree, root).Some? && Faithful(NodeAt(tree, root).value, root, items)
    ensures Faithful(tree, [], items)
  {
    forall i | 0 <= i < |items|
      ensures Below(tree, [], items[i].path) && Describes(items[i], NodeAt(tree, items[i].path[0..]).value)
    {
      assert Below(NodeAt(tree, root).value, root, items[i].path);
      RootBelow(tree, root, items[i].path);
    }
  }

  lemma OneMoreRoot(tree: Node, roots: seq<Path>, seen: set<Path>, first: Walked, rest: Walked)
    requires roots != [] && NodeAt(tree, roots[0]).Some?
    requires Covers(NodeAt(tree, roots[0]).value, roots[0], seen, first)
    requires RootsCovered(tree, roots[1..], first.seen, rest)
    ensures RootsCovered(tree, roots, seen, Walked(rest.seen, first.items + rest.items))
  {
    hide Describes;
    hide NodeAt;
    var node := NodeAt(tree, roots[0]).value;
    forall q
      ensures BelowRoots(tree, roots, q) <==> Below(node, roots[0], q) || BelowRoots(tree, roots[1..], q)
      ensures Emits(first.items + rest.items, q) <==> Emits(first.items, q) || Emits(rest.items, q)
      ensures !(Emits(first.items, q) && Emits(rest.items, q))
    {
      EmitsConcat(first.items, rest.items, q);
      RootsSplit(tree, roots, q);
    }
    OnceConcat(first.items, rest.items);
    RootFaithful(tree, roots[0], first.items);
    FaithfulConcat(tree, [], first.items, rest.items);
  }

  lemma RootsSplit(tree: Node, roots: seq<Path>, q: Path)
    requires roots != [] && NodeAt(tree, roots[0]).Some?
    ensures BelowRoots(tree, roots, q)
            <==> Below(NodeAt(tree, roots[0]).value, roots[0], q) || BelowRoots(tree, roots[1..], q)
  {
    hide NodeAt;
    if roots[0] <= q {
      RootBelow(tree, roots[0], q);
    }
    if BelowRoots(tree, roots, q) {
      var i :| 0 <= i < |roots| && roots[i] <= q && Below(tree, [], q);
      assert i > 0 ==> roots[1..][i - 1] == roots[i];
    }
    if BelowRoots(tree, roots[1..], q) {
      var i :| 0 <= i < |roots[1..]| && roots[1..][i] <= q && Below(tree, [], q);
      assert roots[i + 1] == roots[1..][i];
    }
  }

  /** Whatever the roots, and however they overlap or repeat: every object below one of them is
      emitted exactly once, as what it is, and nothing else is. */
  lemma InventoryIsExact(tree: Node, roots: seq<Path>)
    requires WalkRoots(tree, roots, {}).Some?
    ensures var items := WalkRoots(tree, roots, {}).value.items;
            && Once(items)
            && (forall q :: Emits(items, q) <==> BelowRoots(tree, roots, q))
            && (forall i | 0 <= i < |items| ::
                  NodeAt(tree, items[i].path).Some? && Describes(items[i], NodeAt(tree, items[i].path).value))
  {
    hide WalkRoots;
    hide NodeAt;
    RootsCover(tree, roots, {});
    var items := WalkRoots(tree, roots, {}).value.items;
    forall i | 0 <= i < |items|
      ensures NodeAt(tree, items[i].path).Some? && Describes(items[i], NodeAt(tree, items[i].path).value)
    {
      assert Below(tree, [], items[i].path) && items[i].path[0..] == items[i].path;
    }
  }

  // ---- reading the stream back ----

  /** Names are not empty and hold no slash, and lengths are those of buffers in memory. */
  predicate ValidPath(path: Path) {
    path != [] && Fits(Render(path)) && PlainNames(path)
  }

  predicate PlainNames(path: Path) {
    forall i | 0 <= i < |path| :: path[i] != [] && '/' !in path[i]
  }

  predicate ValidItem(item: Item) {
    ValidPath(item.path) && Fits(match item case LinkItem(_, t) => t case FileItem(_, c) => c case DirItem(_) => [])
  }

  predicate ValidItems(items: seq<Item>) {
    forall i | 0 <= i < |items| :: ValidItem(items[i])
  }

  /** A slash ends the first name. */
  lemma {:induction false} RenderInjective(a: Path, b: Path)
    requires a != [] && b != [] && Render(a) == Render(b)
    requires PlainNames(a) && PlainNames(b)
    ensures a == b
    decreases |a|
  {
    var x, y := a[0], b[0];
    FirstName(a);
    FirstName(b);
    assert |x| == |y|;
    assert x == Render(a)[..|x|] && y == Render(b)[..|y|];
    if |a| <= 1 {
    } else {
      assert Render(a)[|x| + 1..] == Render(a[1..]) && Render(b)[|y| + 1..] == Render(b[1..]);
      RenderInjective(a[1..], b[1..]);
      assert a == [x] + a[1..] && b == [y] + b[1..];
    }
  }

  lemma FirstName(path: Path)
    requires path != [] && PlainNames(path)
    ensures |Render(path)| >= |path[0]| && Render(path)[..|path[0]|] == path[0]
    ensures |path| == 1 <==> |Render(path)| == |path[0]|
    ensures |path| > 1 ==> Render(path)[|path[0]|] == '/'
    ensures forall i | 0 <= i < |path[0]| :: Render(path)[i] != '/'
  {
    forall i | 0 <= i < |path[0]|
      ensures Render(path)[i] != '/'
    {
      assert Render(path)[i] == path[0][i] && path[0][i] in path[0];
    }
  }

  lemma NativeCut(field: Bytes, a: Bytes, b: Bytes, x: Bytes, y: Bytes)
    requires Native(field, a) + x == Native(field, b) + y && Fits(a) && Fits(b)
    ensures a == b && x == y
  {
    hide Field;
    assert Native(field, a) + x == Field(field) + (TAG + (Field(a) + x));
    assert Native(field, b) + y == Field(field) + (TAG + (Field(b) + y));
    Cut(Field(field), Field(field), TAG + (Field(a) + x), TAG + (Field(b) + y));
    Cut(TAG, TAG, Field(a) + x, Field(b) + y);
    FieldCut(a, b, x, y);
  }

  lemma BodyCut(a: Item, b: Item, x: Bytes, y: Bytes)
    requires Body(a) + x == Body(b) + y && ValidItem(a) && ValidItem(b) && a.path == b.path
    ensures a == b && x == y
  {
    hide Native;
    hide Field;
    hide Render;
    assert (Body(a) + x)[0] == (match a case LinkItem(_, _) => 'l' case FileItem(_, _) => 'f' case DirItem(_) => 'd');
    assert (Body(b) + y)[0] == (match b case LinkItem(_, _) => 'l' case FileItem(_, _) => 'f' case DirItem(_) => 'd');
    match a
    case LinkItem(_, t) =>
      Assoc(LINK, Native(TARGET, t), x);
      Assoc(LINK, Native(TARGET, b.target), y);
      Cut(LINK, LINK, Native(TARGET, t) + x, Native(TARGET, b.target) + y);
      NativeCut(TARGET, t, b.target, x, y);
    case FileItem(_, c) =>
      Assoc(FILE, Field(c), x);
      Assoc(FILE, Field(b.content), y);
      Cut(FILE, FILE, Field(c) + x, Field(b.content) + y);
      FieldCut(c, b.content, x, y);
    case DirItem(_) => Cut(DIR, DIR, x, y);
  }

  lemma ItemCut(a: Item, b: Item, x: Bytes, y: Bytes)
    requires Encode(a) + x == Encode(b) + y && ValidItem(a) && ValidItem(b)
    ensures a == b && x == y
  {
    hide Native;
    hide Body;
    hide Render;
    Assoc(Native(RELATIVE, Render(a.path)), Body(a), x);
    Assoc(Native(RELATIVE, Render(b.path)), Body(b), y);
    NativeCut(RELATIVE, Render(a.path), Render(b.path), Body(a) + x, Body(b) + y);
    RenderInjective(a.path, b.path);
    BodyCut(a, b, x, y);
  }

  /** The stream decodes uniquely into items. */
  lemma {:induction false} StreamIsInjective(a: seq<Item>, b: seq<Item>)
    requires EncodeAll(a) == EncodeAll(b) && ValidItems(a) && ValidItems(b)
    ensures a == b
    decreases |a|
  {
    hide Encode;
    hide ValidItem;
    if a != [] && b != [] {
      ItemCut(a[0], b[0], EncodeAll(a[1..]), EncodeAll(b[1..]));
      StreamIsInjective(a[1..], b[1..]);
      assert a == [a[0]] + a[1..] && b == [b[0]] + b[1..];
    } else if a != [] {
      EncodeNotEmpty(a[0]);
    } else if b != [] {
      EncodeNotEmpty(b[0]);
    }
  }

  lemma EncodeNotEmpty(item: Item)
    ensures |Encode(item)| > 0
  {
    hide Render;
    hide Body;
    hide BigEndian;
  }

  /** Equal streams come from equal ignored content: the same objects below the roots, each of the
      same kind with the same content. */
  lemma EqualStreamsMeanEqualContent(tree1: Node, roots1: seq<Path>, tree2: Node, roots2: seq<Path>, q: Path)
    requires WalkRoots(tree1, roots1, {}).Some? && WalkRoots(tree2, roots2, {}).Some?
    requires var a, b := WalkRoots(tree1, roots1, {}).value.items, WalkRoots(tree2, roots2, {}).value.items;
             ValidItems(a) && ValidItems(b) && DOMAIN + EncodeAll(a) == DOMAIN + EncodeAll(b)
    ensures BelowRoots(tree1, roots1, q) <==> BelowRoots(tree2, roots2, q)
    ensures BelowRoots(tree1, roots1, q) ==>
              exists item: Item ::
                item.path == q
                && NodeAt(tree1, q).Some? && Describes(item, NodeAt(tree1, q).value)
                && NodeAt(tree2, q).Some? && Describes(item, NodeAt(tree2, q).value)
  {
    hide WalkRoots;
    hide NodeAt;
    hide Describes;
    hide BelowRoots;
    hide ValidItems;
    hide EncodeAll;
    var a, b := WalkRoots(tree1, roots1, {}).value.items, WalkRoots(tree2, roots2, {}).value.items;
    Cut(DOMAIN, DOMAIN, EncodeAll(a), EncodeAll(b));
    StreamIsInjective(a, b);
    InventoryIsExact(tree1, roots1);
    InventoryIsExact(tree2, roots2);
    if BelowRoots(tree1, roots1, q) {
      assert Emits(a, q);
      var i :| 0 <= i < |a| && a[i].path == q;
      assert a[i].path == q && Describes(a[i], NodeAt(tree1, q).value) && Describes(a[i], NodeAt(tree2, q).value);
    }
  }
}
