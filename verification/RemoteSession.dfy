/** An SFTP session: the requests, and the recursive operations that are built from them. */
module RemoteSession {
  import opened Wrappers
  import opened RemoteTree
  import opened RemoteCopy
  import opened RemotePaste
  import opened RemotePasteAll

  /** The mode of a directory that is made without asking for one. */
  const MADE_MODE: nat := 511

  // ----- Making a path -----

  /** Make the directory p and those above it that are missing. */
  function MakePath(s: Server, t: Tree, p: Path): Outcome
    decreases |p|
  {
    if p == [] then Done(t)
    else
      var above := MakePath(s, t, Parent(p));
      if !above.Done? then above
      else if Vacant(above.tree, p) && Allows(s, Mkdir, p) then Done(above.tree[p := Dir(MADE_MODE)])
      else if Allows(s, Stat, p) && IsDir(above.tree, p) then above
      else Refused(above.tree)
  }

  predicate Passable(s: Server, t: Tree, q: Path) {
    if q in t then t[q].Dir? && Allows(s, Stat, q) else Allows(s, Mkdir, q)
  }

  ghost predicate AllPassable(s: Server, t: Tree, p: Path) {
    forall q :: q != [] && Within(p, q) ==> Passable(s, t, q)
  }

  /** r is t with new directories on the way to p. */
  ghost predicate OnlyDirsTo(t: Tree, r: Tree, p: Path) {
    && (forall q :: q in t ==> q in r && r[q] == t[q])
    && (forall q :: q in r && q !in t ==> Within(p, q) && r[q] == Dir(MADE_MODE))
  }

  /**
   * Making a path succeeds exactly when every step of it is a directory that may be looked at, or is absent and may
   * be made. Afterwards the path is a directory, and only directories on the way to it are new.
   */
  lemma {:induction false} MakePathExactly(s: Server, t: Tree, p: Path)
    requires IsTree(t)
    ensures var out := MakePath(s, t, p);
            out.Done? ==> AllPassable(s, t, p) && IsDir(out.tree, p) && OnlyDirsTo(t, out.tree, p) && IsTree(out.tree)
    ensures var out := MakePath(s, t, p);
            out.Refused? ==> !AllPassable(s, t, p) && OnlyDirsTo(t, out.tree, p) && IsTree(out.tree)
    ensures !MakePath(s, t, p).TooDeep?
    ensures var r := MakePath(s, t, p).tree; forall q :: q in r && q !in t ==> r[q] == Dir(0x1ff)
    decreases |p|
  {
    if p != [] {
      hide IsTree, OnlyDirsTo, AllPassable;
      var up := Parent(p);
      MakePathExactly(s, t, up);
      var above := MakePath(s, t, up);
      PassableStep(s, t, p);
      OnlyDirsStep(t, above.tree, p);
      if above.Done? {
        AbsentAlike(t, above.tree, p);
        if Vacant(above.tree, p) {
          AddingKeepsTree(above.tree, p, Dir(MADE_MODE));
        }
      }
    } else {
      assert forall q :: Within([], q) ==> q == [];
    }
  }

  lemma {:induction false} PassableStep(s: Server, t: Tree, p: Path)
    requires p != []
    ensures AllPassable(s, t, p) <==> AllPassable(s, t, Parent(p)) && Passable(s, t, p)
  {
    assert Within(p, p);
    forall q ensures Within(p, q) <==> Within(Parent(p), q) || q == p {
      assert p == Parent(p) + [p[|p| - 1]];
    }
  }

  lemma {:induction false} OnlyDirsStep(t: Tree, r: Tree, p: Path)
    requires p != [] && OnlyDirsTo(t, r, Parent(p))
    ensures OnlyDirsTo(t, r, p)
    ensures p !in r ==> OnlyDirsTo(t, r[p := Dir(MADE_MODE)], p)
  {
    assert Within(p, p);
    assert forall q :: Within(Parent(p), q) ==> Within(p, q);
  }

  lemma {:induction false} AbsentAlike(t: Tree, r: Tree, p: Path)
    requires p != [] && OnlyDirsTo(t, r, Parent(p))
    ensures p in r <==> p in t
    ensures p in t ==> r[p] == t[p]
  {
    assert !Within(Parent(p), p);
  }

  class SftpSession {
    const server: Server
    var tree: Tree

    constructor (server: Server, tree: Tree)
      ensures this.server == server && this.tree == tree
    {
      this.server, this.tree := server, tree;
    }

    // ----- Requests: each either takes effect or is refused -----

    method LinkStat(p: Path) returns (node: Option<Node>)
      ensures node == if p in tree && Allows(server, Stat, p) then Some(tree[p]) else None
    {
      if p in tree && Request(Stat, p) !in server.refused {
        node := Some(tree[p]);
      } else {
        node := None;
      }
    }

    method ReadDirectory(p: Path) returns (names: Option<seq<Name>>)
      ensures names ==
              if IsDir(tree, p) && Allows(server, Readdir, p) then Some(server.order(p, Children(tree, p))) else None
    {
      if IsDir(tree, p) && Request(Readdir, p) !in server.refused {
        names := Some(server.order(p, Children(tree, p)));
      } else {
        names := None;
      }
    }

    method UnlinkFile(p: Path) returns (ok: bool)
      modifies this
      ensures ok == (p in old(tree) && !old(tree)[p].Dir? && Allows(server, Unlink, p))
      ensures tree == if ok then old(tree) - {p} else old(tree)
    {
      ok := p in tree && !tree[p].Dir? && Request(Unlink, p) !in server.refused;
      if ok {
        tree := tree - {p};
      }
    }

    method RemoveDirectory(p: Path) returns (ok: bool)
      modifies this
      ensures ok == (Allows(server, Rmdir, p) && IsDir(old(tree), p) && Children(old(tree), p) == {})
      ensures tree == if ok then old(tree) - {p} else old(tree)
    {
      ok := Request(Rmdir, p) !in server.refused && IsDir(tree, p) && Children(tree, p) == {};
      if ok {
        tree := tree - {p};
      }
    }

    method MakeDirectory(p: Path, mode: nat) returns (ok: bool)
      modifies this
      ensures ok == (Vacant(old(tree), p) && Allows(server, Mkdir, p))
      ensures tree == if ok then old(tree)[p := Dir(mode)] else old(tree)
    {
      ok := Vacant(tree, p) && Request(Mkdir, p) !in server.refused;
      if ok {
        tree := tree[p := Dir(mode)];
      }
    }

    /** Stream one file to a path that must not exist, and set its permissions. */
    method CopyFile(content: Option<string>, mode: nat, src: Path, dst: Path) returns (ok: bool)
      modifies this
      ensures var out := CopyLeaf(server, old(tree), content, mode, src, dst);
              ok == out.Done? && tree == out.tree
    {
      if !Vacant(tree, dst) || Request(Write, dst) in server.refused {
        return false;
      }
      tree := tree[dst := File("", CREATED_MODE)];
      if content.None? || Request(Read, src) in server.refused {
        return false;
      }
      tree := tree[dst := File(content.value, CREATED_MODE)];
      if Request(Chmod, dst) in server.refused {
        return false;
      }
      tree := tree[dst := File(content.value, Permissions(mode))];
      return true;
    }

    // ----- Recursive operations -----

    method MkdirRecursive(p: Path) returns (ok: bool)
      modifies this
      ensures var out := MakePath(server, old(tree), p);
              ok == out.Done? && !out.TooDeep? && tree == out.tree
      decreases |p|
    {
      NeverTooDeep(server, tree, p);
      if p == [] {
        return true;
      }
      var above := MkdirRecursive(Parent(p));
      if !above {
        return false;
      }
      var made := MakeDirectory(p, MADE_MODE);
      if made {
        return true;
      }
      var node := LinkStat(p);
      return node.Some? && node.value.Dir?;
    }

    method RemoveRecursive(p: Path, ghost depth: nat) returns (ok: bool)
      requires !RemoveTree(server, tree, p, depth).TooDeep?
      modifies this
      ensures var out := RemoveTree(server, old(tree), p, depth);
              ok == out.Done? && tree == out.tree
      decreases depth
    {
      var node := LinkStat(p);
      if node.None? {
        return false;
      }
      if !node.value.Dir? {
        ok := UnlinkFile(p);
        return;
      }
      var listed := ReadDirectory(p);
      if listed.None? {
        return false;
      }
      var names := listed.value;
      ghost var whole := RemoveChildren(server, tree, p, names, depth - 1);
      for i := 0 to |names|
        invariant RemoveChildren(server, tree, p, names[i..], depth - 1) == whole
      {
        var removed := RemoveRecursive(p + [names[i]], depth - 1);
        if !removed {
          return false;
        }
        assert names[i..][1..] == names[i + 1..];
      }
      ok := RemoveDirectory(p);
    }

    method CopyRecursive(src: Path, dst: Path, ghost depth: nat) returns (ok: bool)
      requires !CopyTree(server, tree, src, dst, depth).TooDeep?
      modifies this
      ensures var out := CopyTree(server, old(tree), src, dst, depth);
              ok == out.Done? && tree == out.tree
      decreases depth
    {
      var node := LinkStat(src);
      if node.None? {
        return false;
      }
      if node.value.File? {
        ok := CopyFile(Some(node.value.content), node.value.mode, src, dst);
        return;
      }
      if node.value.Link? {
        ok := CopyFile(node.value.target, node.value.mode, src, dst);
        return;
      }
      var made := MakeDirectory(dst, Permissions(node.value.mode));
      if !made {
        return false;
      }
      var listed := ReadDirectory(src);
      if listed.None? {
        return false;
      }
      var names := listed.value;
      ghost var whole := CopyChildren(server, tree, src, dst, names, depth - 1);
      for i := 0 to |names|
        invariant CopyChildren(server, tree, src, dst, names[i..], depth - 1) == whole
      {
        var copied := CopyRecursive(src + [names[i]], dst + [names[i]], depth - 1);
        if !copied {
          return false;
        }
        assert names[i..][1..] == names[i + 1..];
      }
      return true;
    }

    /** Remove several paths, one after the other; the root is refused before anything is removed. */
    method Remove(paths: seq<Path>) returns (ok: bool)
      requires Honest(server) && IsTree(tree)
      modifies this
      ensures IsTree(tree)
      ensures [] in paths ==> tree == old(tree)
      ensures ok <==> [] !in paths && forall i :: 0 <= i < |paths| ==> InTurn(server, old(tree), paths, i)
      ensures ok ==> tree == WithoutPaths(old(tree), paths, |paths|)
      ensures Remains(old(tree), tree, paths)
    {
      if [] in paths {
        return false;
      }
      ok := RemoveEach(paths);
    }

    method RemoveEach(paths: seq<Path>) returns (ok: bool)
      requires Honest(server) && IsTree(tree) && [] !in paths
      modifies this
      ensures IsTree(tree) && Remains(old(tree), tree, paths)
      ensures ok <==> forall i :: 0 <= i < |paths| ==> InTurn(server, old(tree), paths, i)
      ensures ok ==> tree == WithoutPaths(old(tree), paths, |paths|)
    {
      hide Honest, IsTree, RemoveTree, WithoutPaths, InTurn, Remains, DepthSuffices, Within;
      ghost var was := tree;
      NothingRemoved(was, paths);
      for i := 0 to |paths|
        invariant IsTree(tree) && tree == WithoutPaths(was, paths, i)
        invariant forall j :: 0 <= j < i ==> InTurn(server, was, paths, j)
      {
        assert paths[i] in paths;
        ghost var depth := DeepEnough(tree);
        DeepSuffices(tree, paths[i], depth);
        TurnExactly(server, was, paths, i, depth);
        var removed := RemoveRecursive(paths[i], depth);
        if !removed {
          return false;
        }
      }
      AllRemoved(was, paths);
      return true;
    }

    /** Paste copies of several sources into a directory; the first that cannot be copied ends it. */
    method Paste(sources: seq<Path>, directory: Path) returns (ok: bool)
      requires Honest(server) && IsTree(tree)
      // A directory pasted into itself is never done.
      requires forall i :: 0 <= i < |sources| && IsDir(tree, sources[i]) ==> !Within(directory, sources[i])
      modifies this
      ensures IsTree(tree) && Adds(old(tree), tree, sources, directory, |sources|)
      ensures ok <==> forall i :: 0 <= i < |sources| ==> CopiesInTurn(server, old(tree), sources, directory, i)
      ensures ok ==> tree == WithCopies(old(tree), sources, directory, |sources|)
      ensures ok ==> forall i :: 0 <= i < |sources| ==> Pasted(old(tree), tree, sources[i], directory)
      // By index: each source lands in the directory under its own last name, and nothing else is new.
      ensures ok ==> forall i :: 0 <= i < |sources| ==> LandsIn(tree, sources[i], directory)
      ensures OnlyLands(old(tree), tree, sources, directory)
    {
      ghost var was := tree;
      NoneCopied(was, sources, directory);
      hide *;
      for i := 0 to |sources|
        invariant IsTree(tree) && Adds(was, tree, sources, directory, i)
        invariant tree == WithCopies(was, sources, directory, i)
        invariant forall j :: 0 <= j < i ==> CopiesInTurn(server, was, sources, directory, j)
        invariant forall j :: 0 <= j < i ==> Pasted(was, tree, sources[j], directory)
      {
        var source := sources[i];
        NotEverything(was, source, directory);
        var target := PasteTarget(source, directory);
        if target == source {
          OntoItself(server, was, sources, directory, i);
          AddsMore(was, tree, sources, directory, i, |sources|);
          AddsLand(was, tree, sources, directory);
          return false;
        }
        ghost var depth := DeepEnough(tree);
        DeepSuffices(tree, source, depth);
        PasteTurn(server, was, sources, directory, i, depth);
        var copied := CopyRecursive(source, target, depth);
        if !copied {
          AddsLand(was, tree, sources, directory);
          return false;
        }
      }
      AddsLand(was, tree, sources, directory);
      forall i | 0 <= i < |sources| ensures LandsIn(tree, sources[i], directory) {
        PastedLands(was, tree, sources[i], directory);
      }
      return true;
    }
  }

  lemma {:induction false} NeverTooDeep(s: Server, t: Tree, p: Path)
    ensures !MakePath(s, t, p).TooDeep?
    decreases |p|
  {
    if p != [] {
      NeverTooDeep(s, t, Parent(p));
    }
  }

  predicate WithinSome(q: Path, paths: seq<Path>, n: nat)
    requires n <= |paths|
  {
    exists i :: 0 <= i < n && Within(q, paths[i])
  }

  /** The tree without what is at or below the first n paths. */
  function WithoutPaths(t: Tree, paths: seq<Path>, n: nat): Tree
    requires n <= |paths|
  {
    map q | q in t && !WithinSome(q, paths, n) :: t[q]
  }

  /** Path i is still there once the paths before it are gone, and nothing refuses its removal. */
  ghost predicate InTurn(s: Server, t: Tree, paths: seq<Path>, i: nat)
    requires i < |paths|
  {
    paths[i] in WithoutPaths(t, paths, i) && AllRemovable(s, WithoutPaths(t, paths, i), paths[i])
  }

  /** What removing path i does when the paths before it are gone. */
  lemma {:induction false} TurnExactly(s: Server, t: Tree, paths: seq<Path>, i: nat, depth: nat)
    requires Honest(s) && i < |paths| && paths[i] != [] && IsTree(WithoutPaths(t, paths, i))
    requires DepthSuffices(WithoutPaths(t, paths, i), paths[i], depth) && depth > 0
    ensures var out := RemoveTree(s, WithoutPaths(t, paths, i), paths[i], depth);
            && !out.TooDeep? && IsTree(out.tree) && Remains(t, out.tree, paths)
            && (out.Done? <==> InTurn(s, t, paths, i))
            && (out.Done? ==> out.tree == WithoutPaths(t, paths, i + 1))
  {
    hide Honest, IsTree, Without, OnlyBelow, RemoveTree, AllRemovable, WithoutPaths, Remains, DepthSuffices;
    var before := WithoutPaths(t, paths, i);
    RemoveExactly(s, before, paths[i], depth);
    var out := RemoveTree(s, before, paths[i], depth);
    OneRemovedMore(t, paths, i);
    WithoutOnlyBelow(before, paths[i]);
    StopsMidway(t, before, out.tree, paths, i);
  }

  lemma {:induction false} WithoutOnlyBelow(t: Tree, p: Path)
    ensures OnlyBelow(t, Without(t, p), p)
  {
  }

  /** A path at or below an earlier one makes the whole removal fail. */
  lemma {:induction false} BelowEarlierFails(s: Server, t: Tree, paths: seq<Path>, j: nat, i: nat)
    requires j < i < |paths| && Within(paths[i], paths[j])
    ensures !InTurn(s, t, paths, i)
  {
  }

  /** r has lost nothing of t outside the paths and gained nothing. */
  ghost predicate Remains(t: Tree, r: Tree, paths: seq<Path>) {
    && (forall q :: q in r ==> q in t && r[q] == t[q])
    && (forall q :: q in t && !WithinSome(q, paths, |paths|) ==> q in r)
  }

  lemma {:induction false} NothingRemoved(t: Tree, paths: seq<Path>)
    ensures WithoutPaths(t, paths, 0) == t
  {
  }

  lemma {:induction false} OneRemovedMore(t: Tree, paths: seq<Path>, i: nat)
    requires i < |paths|
    ensures Without(WithoutPaths(t, paths, i), paths[i]) == WithoutPaths(t, paths, i + 1)
  {
    forall q ensures WithinSome(q, paths, i + 1) <==> WithinSome(q, paths, i) || Within(q, paths[i]) {
      if Within(q, paths[i]) {
        assert WithinSome(q, paths, i + 1);
      }
    }
  }

  lemma {:induction false} AllRemoved(t: Tree, paths: seq<Path>)
    ensures Remains(t, WithoutPaths(t, paths, |paths|), paths)
  {
  }

  lemma {:induction false} StopsMidway(t: Tree, before: Tree, after: Tree, paths: seq<Path>, i: nat)
    requires i < |paths| && before == WithoutPaths(t, paths, i) && OnlyBelow(before, after, paths[i])
    ensures Remains(t, after, paths)
  {
    forall q | q in t && !WithinSome(q, paths, |paths|) ensures q in after {
      assert !Within(q, paths[i]);
      assert !WithinSome(q, paths, i);
    }
  }
}
