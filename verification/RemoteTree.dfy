/** A remote file tree reached over SFTP, and recursive removal in it. A path is the sequence of its names. */
module RemoteTree {
  import opened Wrappers

  type Name = string
  type Path = seq<Name>

  /** A link carries what opening it reads, if it can be opened for reading. */
  datatype Node = Dir(mode: nat) | File(content: string, mode: nat) | Link(target: Option<string>, mode: nat)

  type Tree = map<Path, Node>

  datatype Op = Stat | Unlink | Readdir | Rmdir | Mkdir | Read | Write | Chmod
  datatype Request = Request(op: Op, path: Path)

  /** The server lists a directory's names in an order of its own and refuses certain requests. */
  datatype Server = Server(order: (Path, set<Name>) -> seq<Name>, refused: set<Request>)

  datatype Outcome = Done(tree: Tree) | Refused(tree: Tree) | TooDeep

  predicate Within(q: Path, p: Path) {
    p <= q
  }

  function Parent(p: Path): Path
    requires p != []
  {
    p[..|p| - 1]
  }

  predicate IsDir(t: Tree, p: Path) {
    p in t && t[p].Dir?
  }

  ghost predicate IsTree(t: Tree) {
    IsDir(t, []) && forall p :: p in t && p != [] ==> IsDir(t, Parent(p))
  }

  function Children(t: Tree, p: Path): set<Name> {
    set q | q in t && |q| == |p| + 1 && Within(q, p) :: q[|p|]
  }

  ghost predicate ListsOnce(names: seq<Name>, all: set<Name>) {
    && (forall name :: name in names <==> name in all)
    && (forall i, j :: 0 <= i < j < |names| ==> names[i] != names[j])
  }

  ghost predicate Honest(s: Server) {
    forall p, all :: ListsOnce(s.order(p, all), all)
  }

  predicate Allows(s: Server, op: Op, p: Path) {
    Request(op, p) !in s.refused
  }

  // ----- Recursive removal -----

  /** `depth` bounds the recursion; TooDeep says that it was reached. */
  function RemoveTree(s: Server, t: Tree, p: Path, depth: nat): Outcome
    decreases depth, 0
  {
    if depth == 0 then TooDeep
    else if p !in t || !Allows(s, Stat, p) then Refused(t)
    else if !t[p].Dir? then
      if Allows(s, Unlink, p) then Done(t - {p}) else Refused(t)
    else if !Allows(s, Readdir, p) then Refused(t)
    else
      var rest := RemoveChildren(s, t, p, s.order(p, Children(t, p)), depth - 1);
      if rest.Done? then
        if Allows(s, Rmdir, p) && IsDir(rest.tree, p) && Children(rest.tree, p) == {}
        then Done(rest.tree - {p})
        else Refused(rest.tree)
      else rest
  }

  function RemoveChildren(s: Server, t: Tree, p: Path, names: seq<Name>, depth: nat): Outcome
    decreases depth, |names| + 1
  {
    if names == [] then Done(t)
    else
      var first := RemoveTree(s, t, p + [names[0]], depth);
      if first.Done? then RemoveChildren(s, first.tree, p, names[1..], depth) else first
  }

  // ----- What removal does -----

  function Without(t: Tree, p: Path): Tree {
    map q | q in t && !Within(q, p) :: t[q]
  }

  predicate UnderSome(q: Path, p: Path, names: seq<Name>) {
    Within(q, p) && |q| > |p| && q[|p|] in names
  }

  function WithoutAll(t: Tree, p: Path, names: seq<Name>): Tree {
    map q | q in t && !UnderSome(q, p, names) :: t[q]
  }

  predicate Removable(s: Server, t: Tree, q: Path)
    requires q in t
  {
    Allows(s, Stat, q) && if t[q].Dir? then Allows(s, Readdir, q) && Allows(s, Rmdir, q) else Allows(s, Unlink, q)
  }

  ghost predicate AllRemovable(s: Server, t: Tree, p: Path) {
    forall q :: q in t && Within(q, p) ==> Removable(s, t, q)
  }

  ghost predicate SomeRemovable(s: Server, t: Tree, p: Path, names: seq<Name>) {
    forall q :: q in t && UnderSome(q, p, names) ==> Removable(s, t, q)
  }

  /** r lacks nothing of t outside p, and has nothing that t lacks. */
  ghost predicate OnlyBelow(t: Tree, r: Tree, p: Path) {
    && (forall q :: q in r ==> q in t && r[q] == t[q])
    && (forall q :: q in t && !Within(q, p) ==> q in r)
  }

  ghost predicate DepthSuffices(t: Tree, p: Path, depth: nat) {
    forall q :: q in t && Within(q, p) ==> |q| < |p| + depth
  }

  lemma {:induction false} AncestorsAreDirs(t: Tree, p: Path, q: Path)
    requires IsTree(t) && q in t && Within(q, p) && p != q
    ensures IsDir(t, p)
    decreases |q|
  {
    if Parent(q) != p {
      AncestorsAreDirs(t, p, Parent(q));
    }
  }

  lemma {:induction false} ChildrenExactly(t: Tree, p: Path, name: Name)
    ensures name in Children(t, p) <==> p + [name] in t
  {
    assert (p + [name])[|p|] == name;
    if name in Children(t, p) {
      var q :| q in t && |q| == |p| + 1 && Within(q, p) && q[|p|] == name;
      assert q == p + [name];
    }
  }

  lemma {:induction false} UnderOne(q: Path, p: Path, names: seq<Name>)
    requires names != []
    ensures UnderSome(q, p, names) <==> Within(q, p + [names[0]]) || UnderSome(q, p, names[1..])
  {
    if Within(q, p) && |q| > |p| {
      assert q[|p|] in names <==> q[|p|] == names[0] || q[|p|] in names[1..];
      assert Within(q, p + [names[0]]) <==> q[|p|] == names[0];
    }
  }

  lemma {:induction false} RemovingKeepsTree(t: Tree, p: Path)
    requires IsTree(t) && p != []
    ensures IsTree(Without(t, p))
  {
    var r := Without(t, p);
    forall q | q in r && q != [] ensures IsDir(r, Parent(q)) {
      assert !Within(Parent(q), p);
    }
  }

  /** Below a directory everything is at or below one of its children. */
  lemma {:induction false} BelowIsUnderChild(t: Tree, p: Path, names: seq<Name>, q: Path)
    requires IsTree(t) && ListsOnce(names, Children(t, p)) && q in t && Within(q, p) && q != p
    ensures UnderSome(q, p, names)
  {
    hide Children, IsTree;
    var child := q[..|p| + 1];
    if child != q {
      AncestorsAreDirs(t, child, q);
    }
    assert child == p + [q[|p|]];
    ChildrenExactly(t, p, q[|p|]);
  }

  lemma {:induction false} SameIsOnlyBelow(t: Tree, p: Path)
    ensures OnlyBelow(t, t, p)
  {
  }

  lemma {:induction false} RemovableRoot(s: Server, t: Tree, p: Path)
    requires p in t
    ensures AllRemovable(s, t, p) ==> Removable(s, t, p)
  {
    assert Within(p, p);
  }

  /** Nothing lies below a file or a link. */
  lemma {:induction false} LeafAlone(s: Server, t: Tree, p: Path)
    requires IsTree(t) && p in t && !t[p].Dir?
    ensures t - {p} == Without(t, p)
    ensures AllRemovable(s, t, p) <==> Removable(s, t, p)
  {
    forall q | q in t && Within(q, p) ensures q == p {
      if q != p {
        AncestorsAreDirs(t, p, q);
      }
    }
    assert Within(p, p);
  }

  /** A directory and its children make up the whole subtree. */
  lemma {:induction false} DirectoryAndChildren(s: Server, t: Tree, p: Path, names: seq<Name>)
    requires IsTree(t) && IsDir(t, p) && ListsOnce(names, Children(t, p))
    ensures IsDir(WithoutAll(t, p, names), p) && Children(WithoutAll(t, p, names), p) == {}
    ensures WithoutAll(t, p, names) - {p} == Without(t, p)
    ensures OnlyBelow(t, WithoutAll(t, p, names), p)
    ensures AllRemovable(s, t, p) <==> Removable(s, t, p) && SomeRemovable(s, t, p, names)
  {
    hide Children, Removable;
    var rest := WithoutAll(t, p, names);
    forall q | q in t && Within(q, p) ensures q == p || UnderSome(q, p, names) {
      if q != p {
        BelowIsUnderChild(t, p, names, q);
      }
    }
    assert Within(p, p);
    forall name ensures name !in Children(rest, p) {
      ChildrenExactly(rest, p, name);
      assert Within(p + [name], p);
    }
  }

  lemma {:induction false} OneChildFewer(s: Server, t: Tree, p: Path, names: seq<Name>)
    requires names != [] && names[0] !in names[1..]
    ensures WithoutAll(Without(t, p + [names[0]]), p, names[1..]) == WithoutAll(t, p, names)
    ensures SomeRemovable(s, t, p, names) <==>
      AllRemovable(s, t, p + [names[0]]) && SomeRemovable(s, Without(t, p + [names[0]]), p, names[1..])
  {
    hide Removable;
    var child := p + [names[0]];
    forall q ensures UnderSome(q, p, names) <==> Within(q, child) || UnderSome(q, p, names[1..]) {
      UnderOne(q, p, names);
    }
    forall q ensures UnderSome(q, p, names[1..]) ==> !Within(q, child) {
    }
    forall q | q in Without(t, child) ensures Removable(s, Without(t, child), q) == Removable(s, t, q) {
      RemovableLocally(s, t, child, q);
    }
  }

  lemma {:induction false} RemovableLocally(s: Server, t: Tree, p: Path, q: Path)
    requires q in Without(t, p)
    ensures Removable(s, Without(t, p), q) == Removable(s, t, q)
  {
  }

  lemma {:induction false} DepthStep(t: Tree, p: Path, name: Name, depth: nat)
    requires DepthSuffices(t, p, depth + 1)
    ensures DepthSuffices(t, p + [name], depth)
    ensures DepthSuffices(Without(t, p + [name]), p, depth + 1)
    ensures p + [name] in t ==> depth > 0
  {
    assert forall q :: Within(q, p + [name]) ==> Within(q, p);
    assert Within(p + [name], p);
  }

  lemma {:induction false} OnlyBelowStep(t: Tree, r: Tree, p: Path, name: Name)
    ensures OnlyBelow(t, r, p + [name]) ==> OnlyBelow(t, r, p)
    ensures OnlyBelow(Without(t, p + [name]), r, p) ==> OnlyBelow(t, r, p)
  {
    assert forall q :: Within(q, p + [name]) ==> Within(q, p);
  }

  /**
   * Removing a path removes exactly what lies at or below it, and fails exactly when the path is absent or some
   * request that the removal needs is refused. A removal that fails leaves a proper tree and touches nothing outside.
   */
  lemma {:induction false} RemoveExactly(s: Server, t: Tree, p: Path, depth: nat)
    requires Honest(s) && IsTree(t) && p != []
    ensures DepthSuffices(t, p, depth) && depth > 0 ==> !RemoveTree(s, t, p, depth).TooDeep?
    ensures var out := RemoveTree(s, t, p, depth);
            out.Done? ==> p in t && AllRemovable(s, t, p) && out.tree == Without(t, p) && IsTree(out.tree)
    ensures var out := RemoveTree(s, t, p, depth);
            out.Refused? ==> !(p in t && AllRemovable(s, t, p)) && OnlyBelow(t, out.tree, p) && IsTree(out.tree)
    decreases depth, 0, 1
  {
    hide DepthSuffices, OnlyBelow, AllRemovable;
    SameIsOnlyBelow(t, p);
    if p in t {
      RemovableRoot(s, t, p);
    }
    if depth > 0 && p in t && Allows(s, Stat, p) {
      if !t[p].Dir? {
        LeafAlone(s, t, p);
        RemovingKeepsTree(t, p);
      } else {
        RemoveDirExactly(s, t, p, depth);
      }
    }
  }

  lemma {:induction false} RemoveDirExactly(s: Server, t: Tree, p: Path, depth: nat)
    requires Honest(s) && IsTree(t) && p != [] && depth > 0 && IsDir(t, p) && Allows(s, Stat, p)
    ensures DepthSuffices(t, p, depth) ==> !RemoveTree(s, t, p, depth).TooDeep?
    ensures var out := RemoveTree(s, t, p, depth);
            out.Done? ==> AllRemovable(s, t, p) && out.tree == Without(t, p) && IsTree(out.tree)
    ensures var out := RemoveTree(s, t, p, depth);
            out.Refused? ==> !AllRemovable(s, t, p) && OnlyBelow(t, out.tree, p) && IsTree(out.tree)
    decreases depth, 0, 0
  {
    hide DepthSuffices, OnlyBelow, AllRemovable, SomeRemovable, Without, WithoutAll, Children, IsTree, RemoveChildren;
    var names := s.order(p, Children(t, p));
    assert ListsOnce(names, Children(t, p));
    forall i | 0 <= i < |names| ensures p + [names[i]] in t {
      assert names[i] in names;
      ChildrenExactly(t, p, names[i]);
    }
    SameIsOnlyBelow(t, p);
    DirectoryAndChildren(s, t, p, names);
    RemovingKeepsTree(t, p);
    RemoveChildrenExactly(s, t, p, names, depth - 1);
  }

  lemma {:induction false} RemoveChildrenExactly(s: Server, t: Tree, p: Path, names: seq<Name>, depth: nat)
    requires Honest(s) && IsTree(t) && IsDir(t, p) && AreChildren(t, p, names)
    ensures DepthSuffices(t, p, depth + 1) ==> !RemoveChildren(s, t, p, names, depth).TooDeep?
    ensures var out := RemoveChildren(s, t, p, names, depth);
            out.Done? ==> SomeRemovable(s, t, p, names) && out.tree == WithoutAll(t, p, names) && IsTree(out.tree)
    ensures var out := RemoveChildren(s, t, p, names, depth);
            out.Refused? ==> !SomeRemovable(s, t, p, names) && OnlyBelow(t, out.tree, p) && IsTree(out.tree)
    decreases depth, 1, |names|
  {
    if names == [] {
      assert WithoutAll(t, p, names) == t;
    } else {
      hide DepthSuffices, OnlyBelow, AllRemovable, SomeRemovable, Without, WithoutAll, IsTree, RemoveTree;
      hide AreChildren, Honest;
      var child := p + [names[0]];
      SiblingsRemain(t, p, names);
      RemoveExactly(s, t, child, depth);
      OneChildFewer(s, t, p, names);
      if DepthSuffices(t, p, depth + 1) {
        DepthStep(t, p, names[0], depth);
      }
      var out := RemoveChildren(s, t, p, names, depth);
      if RemoveTree(s, t, child, depth).Done? {
        RemoveChildrenExactly(s, Without(t, child), p, names[1..], depth);
      }
      if out.Refused? {
        OnlyBelowStep(t, out.tree, p, names[0]);
      }
    }
  }

  ghost predicate AreChildren(t: Tree, p: Path, names: seq<Name>) {
    && (forall i, j :: 0 <= i < j < |names| ==> names[i] != names[j])
    && (forall i :: 0 <= i < |names| ==> p + [names[i]] in t)
  }

  lemma {:induction false} SiblingsRemain(t: Tree, p: Path, names: seq<Name>)
    requires names != [] && IsDir(t, p) && AreChildren(t, p, names)
    ensures IsDir(Without(t, p + [names[0]]), p) && AreChildren(Without(t, p + [names[0]]), p, names[1..])
    ensures p + [names[0]] in t && names[0] !in names[1..]
  {
    forall i | 0 <= i < |names[1..]| ensures p + [names[1..][i]] in Without(t, p + [names[0]]) {
      assert names[1..][i] == names[i + 1];
      assert (p + [names[i + 1]])[|p|] == names[i + 1];
    }
  }
}
