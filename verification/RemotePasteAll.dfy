/** Pasting copies of several sources into one directory, one after the other. */
module RemotePasteAll {
  import opened Wrappers
  import opened RemoteTree
  import opened RemoteCopy
  import opened RemotePaste

  /** The tree with a copy of everything at or below src added at dst. */
  function WithCopy(t: Tree, src: Path, dst: Path): Tree {
    t + map q | q in Targets(t, src, dst) :: Copied(t[Moved(q, dst, src)])
  }

  /** Where the copies land. */
  function Targets(t: Tree, src: Path, dst: Path): (targets: set<Path>)
    ensures forall q :: q in targets <==> Within(q, dst) && Moved(q, dst, src) in t
  {
    MovedBack(src, dst);
    MovedBack(dst, src);
    set p | p in t && Within(p, src) :: Moved(p, src, dst)
  }

  lemma {:induction false} MovedBack(src: Path, dst: Path)
    ensures forall q :: Within(q, dst) ==>
              Within(Moved(q, dst, src), src) && Moved(Moved(q, dst, src), src, dst) == q
  {
    forall q | Within(q, dst)
      ensures Within(Moved(q, dst, src), src) && Moved(Moved(q, dst, src), src, dst) == q
    {
      assert (src + q[|dst|..])[|src|..] == q[|dst|..];
      assert dst + q[|dst|..] == q;
    }
  }

  /** The tree once the first n sources are pasted. */
  function WithCopies(t: Tree, sources: seq<Path>, directory: Path, n: nat): Tree
    requires n <= |sources|
  {
    if n == 0 then t
    else
      var before := WithCopies(t, sources, directory, n - 1);
      var source := sources[n - 1];
      if source == [] then before else WithCopy(before, source, PasteTarget(source, directory))
  }

  /** The source is there, its place in the directory is free, and nothing needed for the copy is refused. */
  ghost predicate Pastable(s: Server, t: Tree, source: Path, dst: Path) {
    source in t && Vacant(t, dst) && AllCopyable(s, t, source, dst)
  }

  /** Source i can be pasted once the sources before it are. */
  ghost predicate CopiesInTurn(s: Server, t: Tree, sources: seq<Path>, directory: Path, i: nat)
    requires i < |sources|
  {
    && sources[i] != []
    && Pastable(s, WithCopies(t, sources, directory, i), sources[i], PasteTarget(sources[i], directory))
  }

  /** Below dst is, at every relative path, a copy of what is below src, and nothing else. */
  ghost predicate Mirrors(r: Tree, src: Path, dst: Path) {
    forall rest: Path ::
      && (dst + rest in r <==> src + rest in r)
      && (src + rest in r ==> r[dst + rest] == Copied(r[src + rest]) && IsCopyOf(r[dst + rest], r[src + rest]))
  }

  /** The one node is a copy of the other: the same content, and of its mode the nine permission bits. */
  predicate IsCopyOf(copy: Node, node: Node) {
    && copy.mode < 0x200 && (node.mode - copy.mode) % 0x200 == 0
    && match node
       case Dir(_) => copy.Dir?
       case File(content, _) => copy.File? && copy.content == content
       case Link(target, _) => copy.File? && target == Some(copy.content)
  }

  /** In the directory, under the last name of the source and at every relative path, is a copy of what it holds. */
  ghost predicate LandsIn(r: Tree, source: Path, directory: Path) {
    && source != [] && source in r
    && forall rest: Path ::
         var at := directory + [source[|source| - 1]] + rest;
         (at in r <==> source + rest in r) && (at in r ==> IsCopyOf(r[at], r[source + rest]))
  }

  /** Whatever is new lies in the directory, at or below the last name of a source. */
  ghost predicate OnlyLands(t: Tree, r: Tree, sources: seq<Path>, directory: Path) {
    forall q :: q in r && q !in t ==>
      && |q| > |directory| && q[..|directory|] == directory
      && exists i :: 0 <= i < |sources| && sources[i] != [] && sources[i][|sources[i]| - 1] == q[|directory|]
  }

  /** The target was free, and now mirrors the source. */
  ghost predicate Pasted(t: Tree, r: Tree, source: Path, directory: Path) {
    && source != [] && source in r
    && PasteTarget(source, directory) !in t && PasteTarget(source, directory) in r
    && Mirrors(r, source, PasteTarget(source, directory))
  }

  /** r has lost and changed nothing of t, and what is new lies at or below the targets of the first n sources. */
  ghost predicate Adds(t: Tree, r: Tree, sources: seq<Path>, directory: Path, n: nat)
    requires n <= |sources|
  {
    && (forall q :: q in t ==> q in r && r[q] == t[q])
    && (forall q :: q in r && q !in t ==>
          exists i :: 0 <= i < n && sources[i] != [] && Within(q, PasteTarget(sources[i], directory)))
  }

  /** Copying to any target that is not a free one at or below the source ends, and adds only there. */
  lemma {:induction false} PasteOneExactly(s: Server, t: Tree, src: Path, dst: Path, depth: nat)
    requires Honest(s) && IsTree(t) && (Vacant(t, dst) ==> !Within(dst, src))
    requires depth > 0 && DepthSuffices(t, src, depth)
    ensures var out := CopyTree(s, t, src, dst, depth);
            && !out.TooDeep? && IsTree(out.tree) && OnlyAdds(t, out.tree, dst)
            && (out.Done? <==> Pastable(s, t, src, dst))
            && (out.Done? ==> out.tree == WithCopy(t, src, dst) && Mirrors(out.tree, src, dst))
  {
    hide *;
    if Vacant(t, dst) {
      CopyExactly(s, t, src, dst, depth);
      if CopyTree(s, t, src, dst, depth).Done? {
        CopyOnlyAdds(t, CopyTree(s, t, src, dst, depth).tree, src, dst);
        CopyIsWithCopy(t, CopyTree(s, t, src, dst, depth).tree, src, dst);
        CopyMirrors(s, t, src, dst, depth);
      }
      PastableWhenVacant(s, t, src, dst);
    } else {
      AddsNothing(t, dst);
      TakenIsRefused(s, t, src, dst, depth);
    }
  }

  lemma {:induction false} PastableWhenVacant(s: Server, t: Tree, src: Path, dst: Path)
    ensures Pastable(s, t, src, dst) <==> src in t && Vacant(t, dst) && AllCopyable(s, t, src, dst)
  {
  }

  lemma {:induction false} TakenIsRefused(s: Server, t: Tree, src: Path, dst: Path, depth: nat)
    requires !Vacant(t, dst) && depth > 0
    ensures CopyTree(s, t, src, dst, depth) == Refused(t) && !Pastable(s, t, src, dst)
  {
  }

  lemma {:induction false} CopyMirrors(s: Server, t: Tree, src: Path, dst: Path, depth: nat)
    requires Honest(s) && IsTree(t) && Vacant(t, dst) && !Within(dst, src)
    requires CopyTree(s, t, src, dst, depth).Done? && OnlyAdds(t, CopyTree(s, t, src, dst, depth).tree, dst)
    ensures Mirrors(CopyTree(s, t, src, dst, depth).tree, src, dst)
  {
    CopyExactly(s, t, src, dst, depth);
    hide Honest, IsTree, CopyTree, Copied, IsCopy, AllCopyable, DepthSuffices;
    var r := CopyTree(s, t, src, dst, depth).tree;
    forall rest: Path
      ensures dst + rest in r <==> src + rest in r
      ensures src + rest in r ==> r[dst + rest] == Copied(r[src + rest]) && IsCopyOf(r[dst + rest], r[src + rest])
    {
      CopyMirrorsSource(s, t, src, dst, depth, rest);
      NotBelowNew(t, src, dst, rest);
      if src + rest in t {
        ReadableBelow(s, t, src, dst, rest);
        CopiedIsCopy(t[src + rest]);
      }
    }
  }

  lemma {:induction false} ReadableBelow(s: Server, t: Tree, src: Path, dst: Path, rest: Path)
    requires AllCopyable(s, t, src, dst) && src + rest in t
    ensures t[src + rest].Link? ==> t[src + rest].target.Some?
  {
    assert Within(src + rest, src);
  }

  lemma {:induction false} CopiedIsCopy(node: Node)
    requires node.Link? ==> node.target.Some?
    ensures IsCopyOf(Copied(node), node)
  {
  }

  lemma {:induction false} CopyIsWithCopy(t: Tree, r: Tree, src: Path, dst: Path)
    requires IsTree(t) && Vacant(t, dst) && IsCopy(t, r, src, dst)
    ensures r == WithCopy(t, src, dst)
  {
    forall q | Within(q, dst) ensures q !in t {
      NothingBelowVacant(t, dst, q);
    }
    assert r.Keys == WithCopy(t, src, dst).Keys;
  }

  lemma {:induction false} AddsMore(t: Tree, r: Tree, sources: seq<Path>, directory: Path, n: nat, m: nat)
    requires n <= m <= |sources| && Adds(t, r, sources, directory, n)
    ensures Adds(t, r, sources, directory, m)
  {
  }

  lemma {:induction false} NotEverything(t: Tree, source: Path, directory: Path)
    requires IsTree(t) && (IsDir(t, source) ==> !Within(directory, source))
    ensures source != []
  {
  }

  /** If the target can be made, the directory was there from the start, so the source is not at or above it. */
  lemma {:induction false} NotIntoItself(t: Tree, r: Tree, sources: seq<Path>, directory: Path, i: nat)
    requires IsTree(t) && i < |sources| && sources[i] != [] && Adds(t, r, sources, directory, i)
    requires IsDir(t, sources[i]) ==> !Within(directory, sources[i])
    requires PasteTarget(sources[i], directory) != sources[i]
    ensures var target := PasteTarget(sources[i], directory); Vacant(r, target) ==> !Within(target, sources[i])
  {
    var source, target := sources[i], PasteTarget(sources[i], directory);
    TargetBelowSource(source, directory);
    if Vacant(r, target) && Within(directory, source) {
      assert Parent(target) == directory;
      assert directory in t;
      if source != directory {
        AncestorsAreDirs(t, source, directory);
      }
      assert false;
    }
  }

  /** A source that is in the directory already finds its own place taken. */
  lemma {:induction false} OntoItself(s: Server, t: Tree, sources: seq<Path>, directory: Path, i: nat)
    requires i < |sources| && sources[i] != [] && PasteTarget(sources[i], directory) == sources[i]
    ensures !CopiesInTurn(s, t, sources, directory, i)
  {
  }

  lemma {:induction false} AddsOneTarget(t: Tree, before: Tree, after: Tree, sources: seq<Path>, directory: Path,
                                         i: nat)
    requires i < |sources| && sources[i] != [] && Adds(t, before, sources, directory, i)
    requires OnlyAdds(before, after, PasteTarget(sources[i], directory))
    ensures Adds(t, after, sources, directory, i + 1)
  {
    hide PasteTarget, Within;
    forall q | q in after && q !in t
      ensures exists k :: 0 <= k < i + 1 && sources[k] != [] && Within(q, PasteTarget(sources[k], directory))
    {
      if q in before {
        var k :| 0 <= k < i && sources[k] != [] && Within(q, PasteTarget(sources[k], directory));
      }
    }
  }

  /** A later copy to another place leaves an earlier one and its source as they are. */
  lemma {:induction false} StaysPasted(t: Tree, before: Tree, after: Tree, source: Path, directory: Path, dst: Path)
    requires Pasted(t, before, source, directory) && IsTree(before) && OnlyAdds(before, after, dst)
    requires dst !in before && |dst| == |directory| + 1 && !Within(dst, source)
    ensures Pasted(t, after, source, directory)
  {
    var target := PasteTarget(source, directory);
    forall rest: Path
      ensures source + rest in after <==> source + rest in before
      ensures target + rest in after <==> target + rest in before
    {
      NotBelowNew(before, source, dst, rest);
      BesideNew(target, dst, rest);
    }
    hide Copied, IsTree;
  }

  lemma {:induction false} NotBelowNew(t: Tree, p: Path, dst: Path, rest: Path)
    requires IsTree(t) && p in t && dst !in t && !Within(dst, p)
    ensures !Within(p + rest, dst)
  {
    if Within(p, dst) {
      NothingBelowVacant(t, dst, p);
      assert false;
    }
  }

  lemma {:induction false} BesideNew(p: Path, dst: Path, rest: Path)
    requires |p| == |dst| && p != dst
    ensures !Within(p + rest, dst)
  {
  }

  lemma {:induction false} PastedOneMore(t: Tree, before: Tree, after: Tree, sources: seq<Path>, directory: Path,
                                         i: nat)
    requires IsTree(t) && IsTree(before) && i < |sources| && sources[i] != []
    requires Adds(t, before, sources, directory, i)
    requires forall j :: 0 <= j < i ==> Pasted(t, before, sources[j], directory)
    requires forall j :: 0 <= j <= i && IsDir(t, sources[j]) ==> !Within(directory, sources[j])
    requires var target := PasteTarget(sources[i], directory);
             && Vacant(before, target) && sources[i] in before
             && OnlyAdds(before, after, target) && Mirrors(after, sources[i], target)
    ensures forall j :: 0 <= j <= i ==> Pasted(t, after, sources[j], directory)
  {
    hide *;
    NewIsPasted(t, before, after, sources, directory, i);
    forall j | 0 <= j < i ensures Pasted(t, after, sources[j], directory) {
      NotBelowEarlier(t, before, sources, directory, j, i);
      StaysPasted(t, before, after, sources[j], directory, PasteTarget(sources[i], directory));
    }
  }

  lemma {:induction false} NewIsPasted(t: Tree, before: Tree, after: Tree, sources: seq<Path>, directory: Path, i: nat)
    requires i < |sources| && sources[i] != [] && Adds(t, before, sources, directory, i)
    requires var target := PasteTarget(sources[i], directory);
             && Vacant(before, target) && sources[i] in before
             && OnlyAdds(before, after, target) && Mirrors(after, sources[i], target)
    ensures Pasted(t, after, sources[i], directory)
  {
    var target := PasteTarget(sources[i], directory);
    assert sources[i] + [] == sources[i] && target + [] == target;
    hide Mirrors;
    assert target + [] in after <==> sources[i] + [] in after;
  }

  /** What the turn of source i does, and when it succeeds. */
  lemma {:induction false} PasteTurn(s: Server, t: Tree, sources: seq<Path>, directory: Path, i: nat, depth: nat)
    requires Honest(s) && IsTree(t) && i < |sources| && sources[i] != []
    requires PasteTarget(sources[i], directory) != sources[i]
    requires forall j :: 0 <= j < |sources| && IsDir(t, sources[j]) ==> !Within(directory, sources[j])
    requires var before := WithCopies(t, sources, directory, i);
             && IsTree(before) && Adds(t, before, sources, directory, i)
             && (forall j :: 0 <= j < i ==> Pasted(t, before, sources[j], directory))
             && depth > 0 && DepthSuffices(before, sources[i], depth)
    ensures var out := CopyTree(s, WithCopies(t, sources, directory, i), sources[i],
                                PasteTarget(sources[i], directory), depth);
            && !out.TooDeep? && IsTree(out.tree) && Adds(t, out.tree, sources, directory, |sources|)
            && (out.Done? <==> CopiesInTurn(s, t, sources, directory, i))
            && (out.Done? ==>
                  && out.tree == WithCopies(t, sources, directory, i + 1)
                  && Adds(t, out.tree, sources, directory, i + 1)
                  && forall j :: 0 <= j <= i ==> Pasted(t, out.tree, sources[j], directory))
  {
    hide *;
    var before, target := WithCopies(t, sources, directory, i), PasteTarget(sources[i], directory);
    var out := CopyTree(s, before, sources[i], target, depth);
    NotIntoItself(t, before, sources, directory, i);
    PasteOneExactly(s, before, sources[i], target, depth);
    InTurnIsPastable(s, t, sources, directory, i);
    AddsOneTarget(t, before, out.tree, sources, directory, i);
    AddsMore(t, out.tree, sources, directory, i + 1, |sources|);
    if out.Done? {
      PastableWhenVacant(s, before, sources[i], target);
      PastedOneMore(t, before, out.tree, sources, directory, i);
    }
  }

  lemma {:induction false} InTurnIsPastable(s: Server, t: Tree, sources: seq<Path>, directory: Path, i: nat)
    requires i < |sources| && sources[i] != []
    ensures CopiesInTurn(s, t, sources, directory, i)
       <==> Pastable(s, WithCopies(t, sources, directory, i), sources[i], PasteTarget(sources[i], directory))
    ensures WithCopies(t, sources, directory, i + 1)
         == WithCopy(WithCopies(t, sources, directory, i), sources[i], PasteTarget(sources[i], directory))
  {
  }

  lemma {:induction false} NoneCopied(t: Tree, sources: seq<Path>, directory: Path)
    ensures WithCopies(t, sources, directory, 0) == t
    ensures Adds(t, t, sources, directory, 0)
  {
  }

  /** The target can be made, so the directory was there from the start, and no source pasted before lies above it. */
  lemma {:induction false} NotBelowEarlier(t: Tree, before: Tree, sources: seq<Path>, directory: Path, j: nat, i: nat)
    requires IsTree(t) && j < i < |sources| && sources[i] != [] && Adds(t, before, sources, directory, i)
    requires IsDir(t, sources[j]) ==> !Within(directory, sources[j])
    requires Vacant(before, PasteTarget(sources[i], directory)) && Pasted(t, before, sources[j], directory)
    ensures !Within(PasteTarget(sources[i], directory), sources[j])
    ensures PasteTarget(sources[i], directory) !in before
    ensures |PasteTarget(sources[i], directory)| == |directory| + 1
  {
    var source, target := sources[j], PasteTarget(sources[i], directory);
    if Within(target, source) {
      assert Parent(target) == directory;
      assert directory in t;
      assert source != target;
      assert Within(directory, source);
      if source != directory {
        AncestorsAreDirs(t, source, directory);
      }
      assert false;
    }
  }

  lemma {:induction false} PastedLands(t: Tree, r: Tree, source: Path, directory: Path)
    requires Pasted(t, r, source, directory)
    ensures LandsIn(r, source, directory)
  {
    hide Copied, IsCopyOf;
    var target := PasteTarget(source, directory);
    assert target == directory + [source[|source| - 1]];
    forall rest: Path
      ensures var at := directory + [source[|source| - 1]] + rest;
              (at in r <==> source + rest in r) && (at in r ==> IsCopyOf(r[at], r[source + rest]))
    {
      assert target + rest in r <==> source + rest in r;
    }
  }

  lemma {:induction false} AddsLand(t: Tree, r: Tree, sources: seq<Path>, directory: Path)
    requires Adds(t, r, sources, directory, |sources|)
    ensures OnlyLands(t, r, sources, directory)
  {
    forall q | q in r && q !in t
      ensures |q| > |directory| && q[..|directory|] == directory
      ensures exists i :: 0 <= i < |sources| && sources[i] != [] && sources[i][|sources[i]| - 1] == q[|directory|]
    {
      var i :| 0 <= i < |sources| && sources[i] != [] && Within(q, PasteTarget(sources[i], directory));
      var target := PasteTarget(sources[i], directory);
      assert q[..|target|] == target && target[|directory|] == sources[i][|sources[i]| - 1];
    }
  }
}
