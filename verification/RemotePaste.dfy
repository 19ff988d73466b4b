/** Which copies complete, and what pasting into a directory below the source does. */
module RemotePaste {
  import opened RemoteTree
  import opened RemoteCopy

  /** The copy holds, at each relative path, the permissions and content of the original, and nothing else. */
  lemma {:induction false} CopyMirrorsSource(s: Server, t: Tree, src: Path, dst: Path, depth: nat, rest: Path)
    requires Honest(s) && IsTree(t) && Vacant(t, dst) && !Within(dst, src)
    requires CopyTree(s, t, src, dst, depth).Done?
    ensures var r := CopyTree(s, t, src, dst, depth).tree;
            && (dst + rest in r <==> src + rest in t)
            && (src + rest in t ==> src + rest in r && r[src + rest] == t[src + rest])
            && (src + rest in t ==> r[dst + rest] == Copied(t[src + rest]))
  {
    CopyExactly(s, t, src, dst, depth);
    var q := dst + rest;
    assert Within(q, dst) && Moved(q, dst, src) == src + rest;
    NothingBelowVacant(t, dst, q);
  }

  /** Removing the copy again restores the tree. */
  lemma {:induction false} RemovingTheCopyRestores(s: Server, t: Tree, src: Path, dst: Path, depth: nat, u: Server,
                                                   deep: nat)
    requires Honest(s) && Honest(u) && IsTree(t) && Vacant(t, dst) && !Within(dst, src)
    requires CopyTree(s, t, src, dst, depth).Done?
    requires RemoveTree(u, CopyTree(s, t, src, dst, depth).tree, dst, deep).Done?
    ensures RemoveTree(u, CopyTree(s, t, src, dst, depth).tree, dst, deep).tree == t
  {
    CopyExactly(s, t, src, dst, depth);
    var r := CopyTree(s, t, src, dst, depth).tree;
    RemoveExactly(u, r, dst, deep);
    forall q ensures q in Without(r, dst) <==> q in t {
      if Within(q, dst) {
        NothingBelowVacant(t, dst, q);
      }
    }
    assert Without(r, dst) == t;
  }

  // ----- A target below its source -----

  /** Copying a directory to a vacant target below itself never completes, whatever the depth. */
  lemma {:induction false} CopyIntoItself(s: Server, t: Tree, src: Path, rest: Path, depth: nat)
    requires Honest(s) && IsTree(t) && IsDir(t, src) && rest != [] && Vacant(t, src + rest)
    ensures !CopyTree(s, t, src, src + rest, depth).Done?
    decreases depth, 0
  {
    if depth > 0 && Allows(s, Stat, src) {
      var dst := src + rest;
      var node := Copied(t[src]);
      var made := t[dst := node];
      AddsOne(t, dst, node);
      var names := s.order(src, Children(made, src));
      assert ListsOnce(names, Children(made, src));
      ListedChildren(made, src, names);
      NoneUnderMade(t, dst, node, names);
      assert Within(dst, src) && dst[|src|] == rest[0];
      BelowIsUnderChild(made, src, names, dst);
      ChildrenIntoItself(s, made, src, rest, names, depth - 1);
    }
  }

  lemma {:induction false} ChildrenIntoItself(s: Server, t: Tree, src: Path, rest: Path, names: seq<Name>, depth: nat)
    requires Honest(s) && IsTree(t) && IsDir(t, src) && rest != [] && IsDir(t, src + rest)
    requires AreChildren(t, src, names) && NoneUnder(t, src + rest, names) && rest[0] in names
    ensures !CopyChildren(s, t, src, src + rest, names, depth).Done?
    decreases depth, |names|
  {
    hide Honest, IsTree, CopyTree;
    var dst := src + rest;
    var from, to := src + [names[0]], dst + [names[0]];
    ChildVacant(t, dst, names);
    if names[0] == rest[0] {
      var further := rest[1..] + [rest[0]];
      assert to == from + further;
      LevelIsDir(t, src, rest);
      CopyIntoItself(s, t, from, further, depth);
    } else {
      assert !Within(to, from) by {
        assert to[|src|] == rest[0];
      }
      CopyExactly(s, t, from, to, depth);
      var first := CopyTree(s, t, from, to, depth);
      if first.Done? {
        CopyOnlyAdds(t, first.tree, from, to);
        OtherChildren(t, first.tree, src, dst, names);
        StillChildren(t, first.tree, src, to, names[1..]);
        ChildrenIntoItself(s, first.tree, src, rest, names[1..], depth);
      }
    }
  }

  lemma {:induction false} ChildVacant(t: Tree, dst: Path, names: seq<Name>)
    requires names != [] && IsDir(t, dst) && NoneUnder(t, dst, names)
    ensures Vacant(t, dst + [names[0]])
  {
    var to := dst + [names[0]];
    assert UnderSome(to, dst, names);
    assert Parent(to) == dst;
  }

  lemma {:induction false} LevelIsDir(t: Tree, src: Path, rest: Path)
    requires IsTree(t) && rest != [] && IsDir(t, src + rest)
    ensures IsDir(t, src + [rest[0]])
  {
    assert Within(src + rest, src + [rest[0]]);
    if src + rest != src + [rest[0]] {
      AncestorsAreDirs(t, src + [rest[0]], src + rest);
    }
  }

  lemma {:induction false} StillChildren(t: Tree, u: Tree, src: Path, dst: Path, names: seq<Name>)
    requires OnlyAdds(t, u, dst) && AreChildren(t, src, names)
    ensures AreChildren(u, src, names)
    ensures IsDir(t, src) ==> IsDir(u, src)
  {
  }

  /**
   * Copying a directory to a vacant target, with every link readable and nothing refused, completes exactly when the
   * target is not below the source.
   */
  lemma {:induction false} CopyCompletesExactly(s: Server, t: Tree, src: Path, dst: Path)
    requires Honest(s) && IsTree(t) && IsDir(t, src) && Vacant(t, dst)
    requires AllCopyable(s, t, src, dst)
    ensures (exists depth: nat :: CopyTree(s, t, src, dst, depth).Done?) <==> !Within(dst, src)
  {
    hide CopyTree, DepthSuffices, AllCopyable, IsCopy, IsTree, Honest, OnlyAdds;
    if Within(dst, src) {
      var rest := dst[|src|..];
      assert dst == src + rest && (rest == [] ==> src + rest == src);
      forall depth: nat ensures !CopyTree(s, t, src, dst, depth).Done? {
        CopyIntoItself(s, t, src, rest, depth);
      }
    } else {
      var depth := DeepEnough(t);
      DeepSuffices(t, src, depth);
      CopyExactly(s, t, src, dst, depth);
      assert CopyTree(s, t, src, dst, depth).Done?;
    }
  }

  ghost function DeepEnough(t: Tree): (depth: nat)
    ensures depth > 0
    ensures forall q :: q in t ==> |q| < depth
    decreases |t|
  {
    if t == map[] then 1
    else
      var q :| q in t;
      var rest := DeepEnough(t - {q});
      if rest > |q| then rest else |q| + 1
  }

  lemma {:induction false} DeepSuffices(t: Tree, src: Path, depth: nat)
    requires forall q :: q in t ==> |q| < depth
    ensures DepthSuffices(t, src, depth)
  {
  }

  // ----- Pasting -----

  function BaseName(p: Path): Name
    requires p != []
  {
    p[|p| - 1]
  }

  function PasteTarget(source: Path, directory: Path): Path
    requires source != []
  {
    directory + [BaseName(source)]
  }

  /** Pasting a copy of a directory completes exactly when it is not pasted into itself or into something below it. */
  lemma {:induction false} PasteCompletesExactly(s: Server, t: Tree, source: Path, directory: Path)
    requires Honest(s) && IsTree(t) && source != [] && IsDir(t, source) && IsDir(t, directory)
    requires PasteTarget(source, directory) !in t && AllCopyable(s, t, source, PasteTarget(source, directory))
    ensures (exists depth: nat :: CopyTree(s, t, source, PasteTarget(source, directory), depth).Done?)
              <==> !Within(directory, source)
  {
    hide CopyTree, AllCopyable, IsTree, Honest;
    var target := PasteTarget(source, directory);
    assert Parent(target) == directory;
    CopyCompletesExactly(s, t, source, target);
    TargetBelowSource(source, directory);
  }

  lemma {:induction false} TargetBelowSource(source: Path, directory: Path)
    requires source != [] && PasteTarget(source, directory) != source
    ensures Within(PasteTarget(source, directory), source) <==> Within(directory, source)
  {
    var target := PasteTarget(source, directory);
    assert target[..|directory|] == directory;
    assert |source| == |target| ==> target[..|source|] == target;
    if |source| <= |directory| {
      assert directory[..|source|] == target[..|source|];
    }
  }
}
