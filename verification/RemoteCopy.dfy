/** Recursive copying inside a remote file tree. */
module RemoteCopy {
  import opened Wrappers
  import opened RemoteTree

  /** The mode a file has between its creation and the change of its permissions. */
  const CREATED_MODE: nat := 438

  /** The nine permission bits of a mode. */
  function Permissions(mode: nat): nat {
    mode % 512
  }

  /** Copy one file, or what opening a link reads. The copy must not exist yet; it is created before it is filled. */
  function CopyLeaf(s: Server, t: Tree, content: Option<string>, mode: nat, src: Path, dst: Path): Outcome {
    if dst == [] || dst in t || !IsDir(t, Parent(dst)) || !Allows(s, Write, dst) then Refused(t)
    else if content.None? || !Allows(s, Read, src) then Refused(t[dst := File("", CREATED_MODE)])
    else if !Allows(s, Chmod, dst) then Refused(t[dst := File(content.value, CREATED_MODE)])
    else Done(t[dst := File(content.value, Permissions(mode))])
  }

  function CopyTree(s: Server, t: Tree, src: Path, dst: Path, depth: nat): Outcome
    decreases depth, 0
  {
    if depth == 0 then TooDeep
    else if src !in t || !Allows(s, Stat, src) then Refused(t)
    else
      match t[src]
      case File(content, mode) => CopyLeaf(s, t, Some(content), mode, src, dst)
      case Link(target, mode) => CopyLeaf(s, t, target, mode, src, dst)
      case Dir(mode) =>
        if dst == [] || dst in t || !IsDir(t, Parent(dst)) || !Allows(s, Mkdir, dst) then Refused(t)
        else
          var made := t[dst := Dir(Permissions(mode))];
          if !Allows(s, Readdir, src) then Refused(made)
          else CopyChildren(s, made, src, dst, s.order(src, Children(made, src)), depth - 1)
  }

  function CopyChildren(s: Server, t: Tree, src: Path, dst: Path, names: seq<Name>, depth: nat): Outcome
    decreases depth, |names| + 1
  {
    if names == [] then Done(t)
    else
      var first := CopyTree(s, t, src + [names[0]], dst + [names[0]], depth);
      if first.Done? then CopyChildren(s, first.tree, src, dst, names[1..], depth) else first
  }

  // ----- What copying does -----

  /** A copied link becomes a regular file. */
  function Copied(node: Node): Node {
    match node
    case Dir(mode) => Dir(Permissions(mode))
    case File(content, mode) => File(content, Permissions(mode))
    case Link(target, mode) => if target.Some? then File(target.value, Permissions(mode)) else node
  }

  /** The path that the copy at q comes from, and the path that q is copied to. */
  function Moved(q: Path, from: Path, to: Path): Path
    requires Within(q, from)
  {
    to + q[|from|..]
  }

  /** r is t with a copy of everything at or below src added at dst. */
  ghost predicate IsCopy(t: Tree, r: Tree, src: Path, dst: Path) {
    && (forall q :: q in r <==> q in t || (Within(q, dst) && Moved(q, dst, src) in t))
    && (forall q :: q in t ==> r[q] == t[q])
    && (forall q :: q in r && Within(q, dst) ==> Moved(q, dst, src) in t && r[q] == Copied(t[Moved(q, dst, src)]))
  }

  /** The same for everything below the named children of src. */
  ghost predicate IsCopyOfSome(t: Tree, r: Tree, src: Path, dst: Path, names: seq<Name>) {
    && (forall q :: q in r <==> q in t || (UnderSome(q, dst, names) && Moved(q, dst, src) in t))
    && (forall q :: q in t ==> r[q] == t[q])
    && (forall q :: q in r && UnderSome(q, dst, names) ==>
         Moved(q, dst, src) in t && r[q] == Copied(t[Moved(q, dst, src)]))
  }

  predicate Copyable(s: Server, node: Node, from: Path, to: Path) {
    && Allows(s, Stat, from)
    && match node
       case Dir(_) => Allows(s, Mkdir, to) && Allows(s, Readdir, from)
       case File(_, _) => Allows(s, Write, to) && Allows(s, Read, from) && Allows(s, Chmod, to)
       case Link(target, _) => target.Some? && Allows(s, Write, to) && Allows(s, Read, from) && Allows(s, Chmod, to)
  }

  ghost predicate AllCopyable(s: Server, t: Tree, src: Path, dst: Path) {
    forall q :: q in t && Within(q, src) ==> Copyable(s, t[q], q, Moved(q, src, dst))
  }

  ghost predicate SomeCopyable(s: Server, t: Tree, src: Path, dst: Path, names: seq<Name>) {
    forall q :: q in t && UnderSome(q, src, names) ==> Copyable(s, t[q], q, Moved(q, src, dst))
  }

  /** Nothing of t is lost or changed, and what is new lies at or below dst. */
  ghost predicate OnlyAdds(t: Tree, r: Tree, dst: Path) {
    && (forall q :: q in t ==> q in r && r[q] == t[q])
    && (forall q :: q in r && q !in t ==> Within(q, dst))
  }

  predicate Vacant(t: Tree, dst: Path) {
    dst != [] && dst !in t && IsDir(t, Parent(dst))
  }

  predicate Apart(p: Path, q: Path) {
    !Within(p, q) && !Within(q, p)
  }

  ghost predicate SameWithin(t: Tree, r: Tree, p: Path) {
    forall q :: Within(q, p) ==> (q in t <==> q in r) && (q in t ==> r[q] == t[q])
  }

  // ----- Small facts -----

  lemma {:induction false} NothingBelowVacant(t: Tree, dst: Path, q: Path)
    requires IsTree(t) && dst !in t && Within(q, dst)
    ensures q !in t
  {
    if q in t && q != dst {
      AncestorsAreDirs(t, dst, q);
    }
  }

  lemma {:induction false} AddingKeepsTree(t: Tree, dst: Path, node: Node)
    requires IsTree(t) && Vacant(t, dst)
    ensures IsTree(t[dst := node])
  {
    var r := t[dst := node];
    forall q | q in r && q != [] ensures IsDir(r, Parent(q)) {
      if q != dst {
        assert q in t;
      }
    }
  }

  lemma {:induction false} PrefixesCompare(q: Path, one: Path, other: Path)
    requires Within(q, one) && Within(q, other)
    ensures !Apart(one, other)
  {
    if |one| <= |other| {
      assert one == q[..|one|] == other[..|one|];
    } else {
      assert other == q[..|other|] == one[..|other|];
    }
  }

  lemma {:induction false} AdditionsStayApart(t: Tree, r: Tree, src: Path, dst: Path)
    requires OnlyAdds(t, r, dst) && Apart(src, dst)
    ensures SameWithin(t, r, src)
  {
    forall q | Within(q, src) ensures !Within(q, dst) {
      if Within(q, dst) {
        PrefixesCompare(q, src, dst);
      }
    }
  }

  lemma {:induction false} CopyOnlyAdds(t: Tree, r: Tree, src: Path, dst: Path)
    requires IsCopy(t, r, src, dst)
    ensures OnlyAdds(t, r, dst)
  {
  }

  lemma {:induction false} OnlyAddsUp(t: Tree, r: Tree, dst: Path, name: Name)
    requires OnlyAdds(t, r, dst + [name])
    ensures OnlyAdds(t, r, dst)
  {
    assert forall q :: Within(q, dst + [name]) ==> Within(q, dst);
  }

  lemma {:induction false} OnlyAddsTrans(t: Tree, u: Tree, r: Tree, dst: Path)
    requires OnlyAdds(t, u, dst) && OnlyAdds(u, r, dst)
    ensures OnlyAdds(t, r, dst)
  {
  }

  /** What a copy reads is the same in two trees that agree at and below its source. */
  lemma {:induction false} SameSource(s: Server, t: Tree, r: Tree, src: Path, dst: Path, names: seq<Name>, depth: nat)
    requires SameWithin(t, r, src)
    ensures SomeCopyable(s, t, src, dst, names) <==> SomeCopyable(s, r, src, dst, names)
    ensures DepthSuffices(t, src, depth) <==> DepthSuffices(r, src, depth)
    ensures AreChildren(t, src, names) ==> AreChildren(r, src, names)
    ensures Children(t, src) == Children(r, src)
    ensures IsDir(t, src) ==> IsDir(r, src)
  {
    hide Copyable, AreChildren;
    assert Within(src, src);
    forall name ensures name in Children(t, src) <==> name in Children(r, src) {
      ChildrenExactly(t, src, name);
      ChildrenExactly(r, src, name);
      assert Within(src + [name], src);
    }
    SameChildren(t, r, src, names);
  }

  lemma {:induction false} SameChildren(t: Tree, r: Tree, src: Path, names: seq<Name>)
    requires SameWithin(t, r, src)
    ensures AreChildren(t, src, names) ==> AreChildren(r, src, names)
  {
    forall i | 0 <= i < |names| ensures src + [names[i]] in t <==> src + [names[i]] in r {
      assert Within(src + [names[i]], src);
    }
  }

  // ----- Copying is exact -----

  /**
   * Copying to a vacant target that is not below the source adds an equal copy and changes nothing else. It fails
   * exactly when the source is absent, some link below it cannot be read or some needed request is refused; then it
   * leaves a proper tree that differs only at or below the target.
   */
  lemma {:induction false} CopyExactly(s: Server, t: Tree, src: Path, dst: Path, depth: nat)
    requires Honest(s) && IsTree(t) && Vacant(t, dst) && !Within(dst, src)
    ensures DepthSuffices(t, src, depth) && depth > 0 ==> !CopyTree(s, t, src, dst, depth).TooDeep?
    ensures var out := CopyTree(s, t, src, dst, depth);
            out.Done? ==> src in t && AllCopyable(s, t, src, dst) && IsCopy(t, out.tree, src, dst) && IsTree(out.tree)
    ensures var out := CopyTree(s, t, src, dst, depth);
            out.Refused? ==>
              !(src in t && AllCopyable(s, t, src, dst)) && OnlyAdds(t, out.tree, dst) && IsTree(out.tree)
    decreases depth, 0, 1
  {
    hide DepthSuffices, IsCopy, AllCopyable, OnlyAdds, IsTree;
    AddsNothing(t, dst);
    if depth > 0 && src in t {
      CopyableRoot(s, t, src, dst);
      if Allows(s, Stat, src) {
        match t[src]
        case File(content, mode) => CopyLeafExactly(s, t, Some(content), mode, src, dst);
        case Link(target, mode) => CopyLeafExactly(s, t, target, mode, src, dst);
        case Dir(mode) => CopyDirExactly(s, t, src, dst, depth);
      }
    }
  }

  lemma {:induction false} AddsNothing(t: Tree, dst: Path)
    ensures OnlyAdds(t, t, dst)
  {
  }

  lemma {:induction false} CopyableRoot(s: Server, t: Tree, src: Path, dst: Path)
    requires src in t
    ensures AllCopyable(s, t, src, dst) ==> Copyable(s, t[src], src, dst)
  {
    assert Within(src, src) && Moved(src, src, dst) == dst;
  }

  lemma {:induction false} AddsOne(t: Tree, dst: Path, node: Node)
    requires IsTree(t) && Vacant(t, dst)
    ensures OnlyAdds(t, t[dst := node], dst) && IsTree(t[dst := node])
  {
    AddingKeepsTree(t, dst, node);
    assert Within(dst, dst);
  }

  lemma {:induction false} CopyLeafExactly(s: Server, t: Tree, content: Option<string>, mode: nat, src: Path, dst: Path)
    requires IsTree(t) && Vacant(t, dst) && src in t && Allows(s, Stat, src)
    requires t[src] == Link(content, mode) || (content.Some? && t[src] == File(content.value, mode))
    ensures var out := CopyLeaf(s, t, content, mode, src, dst);
            out.Done? ==> AllCopyable(s, t, src, dst) && IsCopy(t, out.tree, src, dst) && IsTree(out.tree)
    ensures var out := CopyLeaf(s, t, content, mode, src, dst);
            out.Refused? ==> !AllCopyable(s, t, src, dst) && OnlyAdds(t, out.tree, dst) && IsTree(out.tree)
    // A file that could not be finished stays behind with the mode it was created with.
    ensures var out := CopyLeaf(s, t, content, mode, src, dst);
            out.Refused? && dst in out.tree ==>
              out.tree[dst].File? && out.tree[dst].mode == 0x1b6
              && (out.tree[dst].content == "" || content == Some(out.tree[dst].content))
    ensures !CopyLeaf(s, t, content, mode, src, dst).TooDeep?
  {
    CopyableRoot(s, t, src, dst);
    AddsNothing(t, dst);
    AddsOne(t, dst, File("", CREATED_MODE));
    if content.Some? {
      AddsOne(t, dst, File(content.value, CREATED_MODE));
      AddsOne(t, dst, File(content.value, Permissions(mode)));
      LeafCopied(s, t, src, dst);
    }
  }

  /** A file or link is all there is of its subtree. */
  lemma {:induction false} LeafCopied(s: Server, t: Tree, src: Path, dst: Path)
    requires IsTree(t) && Vacant(t, dst) && src in t && !t[src].Dir?
    ensures AllCopyable(s, t, src, dst) <==> Copyable(s, t[src], src, dst)
    ensures IsCopy(t, t[dst := Copied(t[src])], src, dst)
  {
    hide Copyable, IsTree, Copied;
    CopyableRoot(s, t, src, dst);
    forall q | q in t && Within(q, src) ensures q == src {
      AloneInSubtree(t, src, q);
    }
    forall q | Within(q, dst) ensures q !in t && (Moved(q, dst, src) in t <==> q == dst) {
      NothingBelowVacant(t, dst, q);
      LeafMoved(t, src, dst, q);
    }
    assert Within(dst, dst) && Moved(dst, dst, src) == src;
    assert Within(src, src) && Moved(src, src, dst) == dst;
  }

  lemma {:induction false} AloneInSubtree(t: Tree, p: Path, q: Path)
    requires IsTree(t) && p in t && !t[p].Dir? && q in t && Within(q, p)
    ensures q == p
  {
    if q != p {
      AncestorsAreDirs(t, p, q);
    }
  }

  lemma {:induction false} LeafMoved(t: Tree, src: Path, dst: Path, q: Path)
    requires IsTree(t) && src in t && !t[src].Dir? && Within(q, dst)
    ensures Moved(q, dst, src) in t <==> q == dst
  {
    var from := Moved(q, dst, src);
    assert Within(from, src) && |from| == |src| + |q| - |dst|;
    if from in t {
      AloneInSubtree(t, src, from);
    }
    if q == dst {
      assert from == src;
    }
  }

  ghost predicate NoneUnder(t: Tree, p: Path, names: seq<Name>) {
    forall q :: q in t ==> !UnderSome(q, p, names)
  }

  lemma {:induction false} CopyDirExactly(s: Server, t: Tree, src: Path, dst: Path, depth: nat)
    requires Honest(s) && IsTree(t) && Vacant(t, dst) && !Within(dst, src)
    requires depth > 0 && IsDir(t, src) && Allows(s, Stat, src)
    ensures DepthSuffices(t, src, depth) ==> !CopyTree(s, t, src, dst, depth).TooDeep?
    ensures var out := CopyTree(s, t, src, dst, depth);
            out.Done? ==> AllCopyable(s, t, src, dst) && IsCopy(t, out.tree, src, dst) && IsTree(out.tree)
    ensures var out := CopyTree(s, t, src, dst, depth);
            out.Refused? ==> !AllCopyable(s, t, src, dst) && OnlyAdds(t, out.tree, dst) && IsTree(out.tree)
    decreases depth, 0, 0
  {
    hide DepthSuffices, IsCopy, IsCopyOfSome, AllCopyable, SomeCopyable, OnlyAdds, IsTree, Children, SameWithin,
      AreChildren, NoneUnder, CopyChildren;
    CopyableRoot(s, t, src, dst);
    AddsNothing(t, dst);
    var made := t[dst := Copied(t[src])];
    AddsOne(t, dst, Copied(t[src]));
    assert Apart(src, dst) by {
      if Within(src, dst) {
        NothingBelowVacant(t, dst, src);
      }
    }
    AdditionsStayApart(t, made, src, dst);
    var names := s.order(src, Children(made, src));
    assert ListsOnce(names, Children(made, src));
    SameSource(s, t, made, src, dst, names, depth);
    ListedChildren(t, src, names);
    DirectoryCopyable(s, t, src, dst, names);
    NoneUnderMade(t, dst, Copied(t[src]), names);
    CopyChildrenExactly(s, made, src, dst, names, depth - 1);
    var out := CopyChildren(s, made, src, dst, names, depth - 1);
    if out.Done? {
      WholeCopy(t, made, out.tree, src, dst, names);
    } else if out.Refused? {
      OnlyAddsTrans(t, made, out.tree, dst);
    }
  }

  lemma {:induction false} ListedChildren(t: Tree, p: Path, names: seq<Name>)
    requires ListsOnce(names, Children(t, p))
    ensures AreChildren(t, p, names)
  {
    hide Children;
    forall i | 0 <= i < |names| ensures p + [names[i]] in t {
      assert names[i] in names;
      ChildrenExactly(t, p, names[i]);
    }
  }

  lemma {:induction false} NoneUnderMade(t: Tree, dst: Path, node: Node, names: seq<Name>)
    requires IsTree(t) && Vacant(t, dst)
    ensures NoneUnder(t[dst := node], dst, names)
  {
    forall q | q in t ensures !Within(q, dst) {
      if Within(q, dst) {
        NothingBelowVacant(t, dst, q);
      }
    }
  }

  lemma {:induction false} DirectoryCopyable(s: Server, t: Tree, src: Path, dst: Path, names: seq<Name>)
    requires IsTree(t) && IsDir(t, src) && ListsOnce(names, Children(t, src))
    ensures AllCopyable(s, t, src, dst) <==> Copyable(s, t[src], src, dst) && SomeCopyable(s, t, src, dst, names)
  {
    hide Copyable, Children;
    assert Within(src, src) && Moved(src, src, dst) == dst;
    forall q | q in t && Within(q, src) && q != src ensures UnderSome(q, src, names) {
      BelowIsUnderChild(t, src, names, q);
    }
  }

  /** The new directory and the copies of all children make up the copy. */
  lemma {:induction false} WholeCopy(t: Tree, made: Tree, r: Tree, src: Path, dst: Path, names: seq<Name>)
    requires IsTree(t) && Vacant(t, dst) && IsDir(t, src) && Apart(src, dst)
    requires made == t[dst := Copied(t[src])] && ListsOnce(names, Children(t, src))
    requires IsCopyOfSome(made, r, src, dst, names)
    ensures IsCopy(t, r, src, dst)
  {
    hide IsCopyOfSome, Children, Copied, IsTree, Vacant, Within, Moved, Apart;
    forall q
      ensures q in r <==> q in t || (Within(q, dst) && Moved(q, dst, src) in t)
      ensures q in t ==> r[q] == t[q]
      ensures q in r && Within(q, dst) ==> Moved(q, dst, src) in t && r[q] == Copied(t[Moved(q, dst, src)])
    {
      WholeCopyHere(t, made, r, src, dst, names, q);
    }
  }

  lemma {:induction false} WholeCopyHere(t: Tree, made: Tree, r: Tree, src: Path, dst: Path, names: seq<Name>, q: Path)
    requires IsTree(t) && Vacant(t, dst) && IsDir(t, src) && Apart(src, dst)
    requires made == t[dst := Copied(t[src])] && ListsOnce(names, Children(t, src))
    requires IsCopyOfSome(made, r, src, dst, names)
    ensures q in r <==> q in t || (Within(q, dst) && Moved(q, dst, src) in t)
    ensures q in t ==> r[q] == t[q]
    ensures q in r && Within(q, dst) ==> Moved(q, dst, src) in t && r[q] == Copied(t[Moved(q, dst, src)])
  {
    assert Within(dst, dst) && Moved(dst, dst, src) == src;
    assert UnderSome(q, dst, names) ==> Within(q, dst);
    hide Children, Copied, IsTree, UnderSome, Moved, Apart;
    if Within(q, dst) {
      WholeCopyAt(t, made, src, dst, names, q);
    }
  }

  lemma {:induction false} WholeCopyAt(t: Tree, made: Tree, src: Path, dst: Path, names: seq<Name>, q: Path)
    requires IsTree(t) && Vacant(t, dst) && IsDir(t, src) && Apart(src, dst) && Within(q, dst)
    requires made == t[dst := Copied(t[src])] && ListsOnce(names, Children(t, src))
    ensures q !in t && (Moved(q, dst, src) in made <==> Moved(q, dst, src) in t)
    ensures q != dst && Moved(q, dst, src) in t ==> UnderSome(q, dst, names)
    ensures UnderSome(q, dst, names) ==> q != dst
  {
    hide Children, Copied;
    NothingBelowVacant(t, dst, q);
    MovedBack(q, dst, src);
    var from := Moved(q, dst, src);
    assert Within(dst, dst);
    if from in t && q != dst {
      assert Within(from, src) && from[|src|] == q[|dst|];
      BelowIsUnderChild(t, src, names, from);
    }
  }

  lemma {:induction false} MovedBack(q: Path, from: Path, to: Path)
    requires Within(q, from) && Apart(from, to)
    ensures Within(Moved(q, from, to), to) && !Within(Moved(q, from, to), from)
  {
    assert Within(Moved(q, from, to), to);
    if Within(Moved(q, from, to), from) {
      PrefixesCompare(Moved(q, from, to), from, to);
    }
  }

  lemma {:induction false} CopyChildrenExactly(s: Server, t: Tree, src: Path, dst: Path, names: seq<Name>, depth: nat)
    requires Honest(s) && IsTree(t) && IsDir(t, src) && IsDir(t, dst) && Apart(src, dst)
    requires AreChildren(t, src, names) && NoneUnder(t, dst, names)
    ensures DepthSuffices(t, src, depth + 1) ==> !CopyChildren(s, t, src, dst, names, depth).TooDeep?
    ensures var out := CopyChildren(s, t, src, dst, names, depth);
            out.Done? ==>
              SomeCopyable(s, t, src, dst, names) && IsCopyOfSome(t, out.tree, src, dst, names) && IsTree(out.tree)
    ensures var out := CopyChildren(s, t, src, dst, names, depth);
            out.Refused? ==> !SomeCopyable(s, t, src, dst, names) && OnlyAdds(t, out.tree, dst) && IsTree(out.tree)
    decreases depth, 1, |names|
  {
    if names != [] {
      hide DepthSuffices, IsCopy, IsCopyOfSome, AllCopyable, SomeCopyable, OnlyAdds, IsTree, SameWithin, AreChildren,
        NoneUnder, CopyTree, Honest, Vacant;
      var from, to := src + [names[0]], dst + [names[0]];
      FirstChild(t, src, dst, names);
      CopyExactly(s, t, from, to, depth);
      SplitCopyable(s, t, src, dst, names);
      if DepthSuffices(t, src, depth + 1) {
        DepthStep(t, src, names[0], depth);
      }
      var first := CopyTree(s, t, from, to, depth);
      if first.Done? {
        CopyOnlyAdds(t, first.tree, from, to);
        OnlyAddsUp(t, first.tree, dst, names[0]);
        AdditionsStayApart(t, first.tree, src, dst);
        OtherChildren(t, first.tree, src, dst, names);
        SameSource(s, t, first.tree, src, dst, names[1..], depth + 1);
        CopyChildrenExactly(s, first.tree, src, dst, names[1..], depth);
        var out := CopyChildren(s, first.tree, src, dst, names[1..], depth);
        if out.Done? {
          JoinCopies(t, first.tree, out.tree, src, dst, names);
        } else if out.Refused? {
          OnlyAddsTrans(t, first.tree, out.tree, dst);
        }
      } else if first.Refused? {
        OnlyAddsUp(t, first.tree, dst, names[0]);
      }
    }
  }

  lemma {:induction false} FirstChild(t: Tree, src: Path, dst: Path, names: seq<Name>)
    requires names != [] && IsDir(t, dst) && Apart(src, dst) && AreChildren(t, src, names) && NoneUnder(t, dst, names)
    ensures src + [names[0]] in t && Vacant(t, dst + [names[0]]) && !Within(dst + [names[0]], src + [names[0]])
  {
    var from, to := src + [names[0]], dst + [names[0]];
    assert UnderSome(to, dst, names);
    assert Parent(to) == dst;
    if Within(to, from) {
      assert src <= to && dst <= to;
      PrefixesCompare(to, src, dst);
    }
  }

  lemma {:induction false} SplitCopyable(s: Server, t: Tree, src: Path, dst: Path, names: seq<Name>)
    requires names != []
    ensures SomeCopyable(s, t, src, dst, names) <==>
      AllCopyable(s, t, src + [names[0]], dst + [names[0]]) && SomeCopyable(s, t, src, dst, names[1..])
  {
    hide Copyable;
    var from, to := src + [names[0]], dst + [names[0]];
    forall q ensures UnderSome(q, src, names) <==> Within(q, from) || UnderSome(q, src, names[1..]) {
      UnderOne(q, src, names);
    }
    forall q | Within(q, from) ensures Within(q, src) && Moved(q, from, to) == Moved(q, src, dst) {
      MovedChild(q, src, dst, names[0]);
    }
  }

  lemma {:induction false} MovedChild(q: Path, src: Path, dst: Path, name: Name)
    requires Within(q, src + [name])
    ensures Within(q, src) && Moved(q, src + [name], dst + [name]) == Moved(q, src, dst)
  {
    assert q[|src|..] == [name] + q[|src| + 1..];
  }

  lemma {:induction false} OtherChildren(t: Tree, u: Tree, src: Path, dst: Path, names: seq<Name>)
    requires names != [] && AreChildren(t, src, names) && NoneUnder(t, dst, names)
    requires OnlyAdds(t, u, dst + [names[0]])
    ensures AreChildren(t, src, names[1..]) && NoneUnder(u, dst, names[1..])
    ensures IsDir(t, dst) ==> IsDir(u, dst)
  {
    forall i | 0 <= i < |names[1..]| ensures src + [names[1..][i]] in t {
      assert names[1..][i] == names[i + 1];
    }
    assert names[0] !in names[1..];
    forall q | q in u ensures !UnderSome(q, dst, names[1..]) {
      UnderOne(q, dst, names);
      if Within(q, dst + [names[0]]) {
        assert q[|dst|] == names[0];
      }
    }
  }

  lemma {:induction false} JoinCopies(t: Tree, u: Tree, r: Tree, src: Path, dst: Path, names: seq<Name>)
    requires names != [] && AreChildren(t, src, names)
    requires SameWithin(t, u, src)
    requires IsCopy(t, u, src + [names[0]], dst + [names[0]])
    requires IsCopyOfSome(u, r, src, dst, names[1..])
    ensures IsCopyOfSome(t, r, src, dst, names)
  {
    hide Copied;
    var from, to := src + [names[0]], dst + [names[0]];
    assert names[0] !in names[1..];
    forall q ensures UnderSome(q, dst, names) <==> Within(q, to) || UnderSome(q, dst, names[1..]) {
      UnderOne(q, dst, names);
    }
    forall q | Within(q, to)
      ensures Within(q, dst) && Moved(q, to, from) == Moved(q, dst, src) && !UnderSome(q, dst, names[1..])
    {
      MovedChild(q, dst, src, names[0]);
      assert q[|dst|] == names[0];
    }
    forall q | Within(q, dst) ensures Within(Moved(q, dst, src), src) {
    }
  }
}
