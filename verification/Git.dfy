/** The part of Git the lifecycle rests on: content-addressed commits, and patches that
    reproduce a tree exactly when applied to the base they were taken from. */
module Git {
  import opened Model

  type Tree = map<string, string>

  /** One changed path: its content before and after, absent meaning not in the tree. */
  datatype Change = Change(before: Option<string>, after: Option<string>)

  type Patch = map<string, Change>

  /** A commit is its own content, so equal identifiers are equal commits. */
  datatype Commit = Commit(parents: seq<Commit>, tree: Tree, message: string, author: Author)

  function Lookup(tree: Tree, path: string): Option<string> {
    if path in tree then Some(tree[path]) else None
  }

  function Diff(base: Tree, tree: Tree): Patch {
    map path | path in base.Keys + tree.Keys && Lookup(base, path) != Lookup(tree, path)
      :: Change(Lookup(base, path), Lookup(tree, path))
  }

  /** `git apply --cached`: refuses when a preimage does not match the base. */
  function Apply(base: Tree, patch: Patch): Option<Tree> {
    if forall path | path in patch :: Lookup(base, path) == patch[path].before then
      Some(map path | path in base.Keys + patch.Keys
             && (if path in patch then patch[path].after else Lookup(base, path)) != None
             :: (if path in patch then patch[path].after else Lookup(base, path)).value)
    else None
  }

  /** A size that is zero for the empty patch and for no other. */
  function PatchSize(patch: Patch): nat { |patch| }

  lemma TreeExtensionality(a: Tree, b: Tree)
    requires forall path :: Lookup(a, path) == Lookup(b, path)
    ensures a == b
  {
    forall path
      ensures path in a <==> path in b
      ensures path in a && path in b ==> a[path] == b[path]
    {
      assert Lookup(a, path) == Lookup(b, path);
    }
    assert a.Keys == b.Keys;
  }

  /** Applying the patch between two trees to the first yields the second. */
  lemma ApplyDiff(base: Tree, tree: Tree)
    ensures Apply(base, Diff(base, tree)) == Some(tree)
  {
    var patch := Diff(base, tree);
    assert forall path | path in patch :: Lookup(base, path) == patch[path].before;
    var applied := Apply(base, patch).value;
    forall path
      ensures Lookup(applied, path) == Lookup(tree, path)
    {
      if path !in base && path !in tree {
        assert path !in patch;
      }
    }
    TreeExtensionality(applied, tree);
  }

  /** A patch applies exactly to a base that has all its preimages, and then sets the paths it lists and
      no other. */
  lemma AppliesIff(base: Tree, patch: Patch, tree: Tree)
    ensures Apply(base, patch) == Some(tree)
            <==> (forall path | path in patch :: Lookup(base, path) == patch[path].before)
                 && (forall path :: Lookup(tree, path) == if path in patch then patch[path].after else Lookup(base, path))
  {
    if (forall path | path in patch :: Lookup(base, path) == patch[path].before) {
      var applied := Apply(base, patch).value;
      forall path
        ensures Lookup(applied, path) == if path in patch then patch[path].after else Lookup(base, path)
      {
      }
      if forall path :: Lookup(tree, path) == (if path in patch then patch[path].after else Lookup(base, path)) {
        forall path
          ensures Lookup(applied, path) == Lookup(tree, path)
        {
        }
        TreeExtensionality(applied, tree);
      }
    }
  }

  lemma EmptyDiff(base: Tree, tree: Tree)
    ensures PatchSize(Diff(base, tree)) == 0 <==> base == tree
    ensures Diff(base, tree) == map[] <==> base == tree
  {
    if Diff(base, tree) == map[] {
      forall path
        ensures Lookup(base, path) == Lookup(tree, path)
      {
        assert path !in Diff(base, tree);
      }
      TreeExtensionality(base, tree);
    }
  }

  /** `commit_patch`: the base tree with the patch applied, on top of the base alone. */
  function CommitPatch(base: Commit, patch: Patch, message: string, author: Author): Option<Commit> {
    match Apply(base.tree, patch)
    case Some(tree) => Some(Commit([base], tree, message, author))
    case None => None
  }

  /** `x` is reached from `head` by following sole parents. */
  predicate OnLine(x: Commit, head: Commit) {
    x == head || (|head.parents| == 1 && OnLine(x, head.parents[0]))
  }

  function Height(c: Commit): nat {
    if |c.parents| == 1 then Height(c.parents[0]) + 1 else 0
  }

  lemma {:induction false} OnLineHeight(x: Commit, head: Commit)
    requires OnLine(x, head)
    ensures Height(x) <= Height(head)
  {
    if x == head {
    } else {
      OnLineHeight(x, head.parents[0]);
    }
  }

  /** A line of sole parents meets each child of one commit at most once. */
  lemma {:induction false} OneChildOnALine(x: Commit, y: Commit, head: Commit)
    requires OnLine(x, head) && OnLine(y, head)
    requires |x.parents| == 1 && y.parents == x.parents
    ensures x == y
  {
    if x == head && y != head {
      OnLineHeight(y, head.parents[0]);
    } else if y == head && x != head {
      OnLineHeight(x, head.parents[0]);
    } else if x != head {
      OneChildOnALine(x, y, head.parents[0]);
    }
  }

  /** Ancestry through any parent, which is what a fast-forward asks for. */
  predicate Ancestor(x: Commit, head: Commit) {
    x == head || exists i | 0 <= i < |head.parents| :: Ancestor(x, head.parents[i])
  }

  /** A way up: each commit on it is a parent of the one before. */
  predicate IsWay(way: seq<Commit>, head: Commit, x: Commit) {
    && way != [] && way[0] == head && way[|way| - 1] == x
    && forall k | 0 <= k < |way| - 1 :: way[k + 1] in way[k].parents
  }

  /** An ancestor is what some way up leads to. */
  lemma {:induction false} AncestorIffWay(x: Commit, head: Commit)
    ensures Ancestor(x, head) <==> exists way :: IsWay(way, head, x)
    decreases head
  {
    if x == head {
      assert IsWay([x], head, x);
    } else {
      if Ancestor(x, head) {
        var i :| 0 <= i < |head.parents| && Ancestor(x, head.parents[i]);
        AncestorIffWay(x, head.parents[i]);
        var way :| IsWay(way, head.parents[i], x);
        assert IsWay([head] + way, head, x);
      }
      if way: seq<Commit> :| IsWay(way, head, x) {
        assert way[1] in head.parents;
        var i :| 0 <= i < |head.parents| && head.parents[i] == way[1];
        var rest := way[1..];
        forall k | 0 <= k < |rest| - 1
          ensures rest[k + 1] in rest[k].parents
        {
          assert way[(k + 1) + 1] in way[k + 1].parents;
        }
        assert IsWay(rest, head.parents[i], x);
        AncestorIffWay(x, head.parents[i]);
      }
    }
  }

  /** The longest way up. */
  function Depth(c: Commit): nat {
    DeepestOf(c.parents)
  }

  function DeepestOf(parents: seq<Commit>): nat {
    if parents == [] then 0
    else
      var first, others := Depth(parents[0]) + 1, DeepestOf(parents[1..]);
      if first > others then first else others
  }

  lemma {:induction false} ParentsAreShallower(parents: seq<Commit>, i: nat)
    requires i < |parents|
    ensures Depth(parents[i]) < DeepestOf(parents)
  {
    if i == 0 {
    } else {
      ParentsAreShallower(parents[1..], i - 1);
    }
  }

  lemma {:induction false} AncestorsAreShallower(x: Commit, head: Commit)
    requires Ancestor(x, head)
    ensures Depth(x) <= Depth(head)
    decreases head
  {
    if x == head {
    } else {
      var i :| 0 <= i < |head.parents| && Ancestor(x, head.parents[i]);
      AncestorsAreShallower(x, head.parents[i]);
      ParentsAreShallower(head.parents, i);
    }
  }

  /** `git merge --ff-only`: moves to a descendant, stays when already past it, else refuses. */
  function FastForward(head: Commit, commit: Commit): Option<Commit> {
    if Ancestor(head, commit) then Some(commit)
    else if Ancestor(commit, head) then Some(head)
    else None
  }
}
