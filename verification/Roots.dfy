/** Which directories are watched (src/watch/roots.rs). The worktree is a finite tree of
    directory entries; paths are relative to its root. */
module Roots {
  import opened Wrappers
  import opened Model

  /** A directory entry. `hasGit` says that `.git` exists inside; an unreadable directory lists
      nothing. A symbolic link is not a directory entry of its own, but can be followed. */
  datatype Node =
    | Directory(name: string, hasGit: bool, readable: bool, listing: seq<Node>)
    | Link(name: string, target: Node)
    | Leaf(name: string)

  /** What opening the entry leads to. */
  function Followed(node: Node): (r: Node)
    ensures !r.Link?
  {
    if node.Link? then Followed(node.target) else node
  }

  datatype WatchMode = Recursive | NonRecursive

  // ---------------------------------------------------------------- traversal

  /** Nothing inside this directory is looked at: it is a nested repository or unreadable. */
  predicate Closes(path: Path, dir: Node)
    requires dir.Directory?
  {
    (path != [] && dir.hasGit) || !dir.readable
  }

  predicate Enters(ignored: Path -> bool, path: Path, entry: Node) {
    entry.Directory? && entry.name != ".git" && !ignored(path + [entry.name])
  }

  /** `collect_worktree_watch_dirs` as the list of directories it pushes. */
  function WatchDirs(ignored: Path -> bool, path: Path, dir: Node): seq<Path>
    requires dir.Directory?
    decreases dir, 0
  {
    [path] + if Closes(path, dir) then [] else ChildDirs(ignored, path, dir, dir.listing)
  }

  function ChildDirs(ignored: Path -> bool, path: Path, dir: Node, entries: seq<Node>): seq<Path>
    requires dir.Directory? && forall e :: e in entries ==> e in dir.listing
    decreases dir, 0, |entries|
  {
    if entries == [] then []
    else
      (if Enters(ignored, path, entries[0]) then
         assert entries[0] in dir.listing;
         WatchDirs(ignored, path + [entries[0].name], entries[0])
       else [])
      + ChildDirs(ignored, path, dir, entries[1..])
  }

  class PathVec {
    var items: seq<Path>

    constructor ()
      ensures items == []
    {
      items := [];
    }
  }

  /** The recursive traversal that pushes into one shared vector. */
  method CollectWorktreeWatchDirs(ignored: Path -> bool, path: Path, dir: Node, dirs: PathVec)
    requires dir.Directory?
    modifies dirs
    ensures dirs.items == old(dirs.items) + WatchDirs(ignored, path, dir)
    decreases dir
  {
    dirs.items := dirs.items + [path];
    if path != [] && dir.hasGit {
      return;
    }
    if !dir.readable {
      return;
    }
    ghost var all := dirs.items + ChildDirs(ignored, path, dir, dir.listing);
    assert dir.listing[0..] == dir.listing;
    for i := 0 to |dir.listing|
      invariant forall e :: e in dir.listing[i..] ==> e in dir.listing
      invariant dirs.items + ChildDirs(ignored, path, dir, dir.listing[i..]) == all
    {
      var entry := dir.listing[i];
      ChildDirsFrom(ignored, path, dir, i);
      if entry.name == ".git" || !entry.Directory? || ignored(path + [entry.name]) {
        assert [] + ChildDirs(ignored, path, dir, dir.listing[i + 1..]) == ChildDirs(ignored, path, dir, dir.listing[i + 1..]);
        continue;
      }
      ghost var before := dirs.items;
      CollectWorktreeWatchDirs(ignored, path + [entry.name], entry, dirs);
      Associate(before, WatchDirs(ignored, path + [entry.name], entry), ChildDirs(ignored, path, dir, dir.listing[i + 1..]));
    }
    assert dir.listing[|dir.listing|..] == [];
    assert dirs.items + [] == dirs.items;
    Associate(old(dirs.items), [path], ChildDirs(ignored, path, dir, dir.listing));
  }

  lemma ChildDirsFrom(ignored: Path -> bool, path: Path, dir: Node, i: nat)
    requires dir.Directory? && i < |dir.listing|
    ensures dir.listing[i] in dir.listing
    ensures forall k, e :: 0 <= k <= |dir.listing| && e in dir.listing[k..] ==> e in dir.listing
    ensures ChildDirs(ignored, path, dir, dir.listing[i..]) ==
      (if Enters(ignored, path, dir.listing[i]) then WatchDirs(ignored, path + [dir.listing[i].name], dir.listing[i]) else [])
      + ChildDirs(ignored, path, dir, dir.listing[i + 1..])
  {
  }

  lemma Associate<T>(a: seq<T>, b: seq<T>, c: seq<T>)
    ensures a + b + c == a + (b + c)
  {
  }

  function FindChild(entries: seq<Node>, name: string): (r: Option<Node>)
    ensures r.Some? ==> r.value in entries && r.value.name == name
    ensures r.None? ==> forall e :: e in entries ==> e.name != name
  {
    if entries == [] then None
    else if entries[0].name == name then Some(entries[0])
    else FindChild(entries[1..], name)
  }

  /** What the path leads to from `node`, links followed. */
  function Lookup(node: Node, path: Path): Option<Node>
    decreases |path|
  {
    var dir := Followed(node);
    if path == [] then Some(dir)
    else if !dir.Directory? then None
    else
      var child := FindChild(dir.listing, path[0]);
      if child.None? then None else Lookup(child.value, path[1..])
  }

  /** `worktree_watch_dirs_from`: nothing for an ignored start, otherwise the traversal from it. */
  method WorktreeWatchDirsFrom(ignored: Path -> bool, root: Node, start: Path) returns (dirs: seq<Path>)
    requires root.Directory?
    ensures dirs == WatchDirsFrom(ignored, root, start)
  {
    if start != [] && ignored(start) {
      return [];
    }
    var node := Lookup(root, start);
    var collected := new PathVec();
    if node.Some? && node.value.Directory? {
      CollectWorktreeWatchDirs(ignored, start, node.value, collected);
    } else {
      collected.items := [start];
    }
    dirs := collected.items;
  }

  function WatchDirsFrom(ignored: Path -> bool, root: Node, start: Path): seq<Path>
    requires root.Directory?
  {
    if start != [] && ignored(start) then []
    else
      var node := Lookup(root, start);
      if node.Some? && node.value.Directory? then WatchDirs(ignored, start, node.value) else [start]
  }

  // ---------------------------------------------------------------- what is watched

  /** Sibling names are distinct, all the way down. */
  ghost predicate WellFormedTree(dir: Node) {
    dir.Directory? ==>
      && (forall i, j :: 0 <= i < j < |dir.listing| ==> dir.listing[i].name != dir.listing[j].name)
      && (forall e :: e in dir.listing ==> WellFormedTree(e))
  }

  /** `rest` can be followed from the directory at `path` without entering an ignored
      directory, a `.git`, an unreadable directory or the inside of a nested repository. */
  ghost predicate Visible(ignored: Path -> bool, path: Path, dir: Node, rest: Path)
    requires dir.Directory?
    decreases |rest|
  {
    rest == [] ||
    (!Closes(path, dir) &&
     var child := FindChild(dir.listing, rest[0]);
     child.Some? && Enters(ignored, path, child.value) && Visible(ignored, path + [rest[0]], child.value, rest[1..]))
  }

  /** The directories among `dirs` at or below `start`. */
  function Below(start: Path, dirs: seq<Path>): seq<Path> {
    if dirs == [] then []
    else (if start <= dirs[0] then [dirs[0]] else []) + Below(start, dirs[1..])
  }

  lemma {:induction false} BelowConcat(start: Path, a: seq<Path>, b: seq<Path>)
    ensures Below(start, a + b) == Below(start, a) + Below(start, b)
  {
    if a == [] {
      assert a + b == b;
    } else {
      var first := if start <= a[0] then [a[0]] else [];
      BelowConcat(start, a[1..], b);
      assert (a + b)[0] == a[0] && (a + b)[1..] == a[1..] + b;
      assert Below(start, a + b) == first + Below(start, a[1..] + b);
      Associate(first, Below(start, a[1..]), Below(start, b));
    }
  }

  lemma {:induction false} BelowMembers(start: Path, dirs: seq<Path>, p: Path)
    ensures p in Below(start, dirs) <==> p in dirs && start <= p
  {
    if dirs != [] {
      BelowMembers(start, dirs[1..], p);
      assert dirs == [dirs[0]] + dirs[1..];
    }
  }

  lemma {:induction false} BelowAll(start: Path, dirs: seq<Path>)
    requires forall p :: p in dirs ==> start <= p
    ensures Below(start, dirs) == dirs
  {
    if dirs != [] {
      assert dirs[0] in dirs && forall p :: p in dirs[1..] ==> p in dirs;
      BelowAll(start, dirs[1..]);
    }
  }

  lemma {:induction false} BelowNone(start: Path, dirs: seq<Path>)
    requires forall p :: p in dirs ==> !(start <= p)
    ensures Below(start, dirs) == []
  {
    if dirs != [] {
      assert dirs[0] in dirs && forall p :: p in dirs[1..] ==> p in dirs;
      BelowNone(start, dirs[1..]);
    }
  }

  lemma {:induction false} WatchDirsBelow(ignored: Path -> bool, path: Path, dir: Node)
    requires dir.Directory?
    ensures forall p :: p in WatchDirs(ignored, path, dir) ==> path <= p
    decreases dir, 0
  {
    if !Closes(path, dir) { ChildDirsBelow(ignored, path, dir, dir.listing); }
  }

  lemma {:induction false} ChildDirsBelow(ignored: Path -> bool, path: Path, dir: Node, entries: seq<Node>)
    requires dir.Directory? && forall e :: e in entries ==> e in dir.listing
    ensures forall p :: p in ChildDirs(ignored, path, dir, entries) ==>
              path < p && exists e :: e in entries && p[|path|] == e.name
    decreases dir, 0, |entries|
  {
    if entries != [] {
      assert entries[0] in dir.listing;
      ChildDirsBelow(ignored, path, dir, entries[1..]);
      if Enters(ignored, path, entries[0]) {
        WatchDirsBelow(ignored, path + [entries[0].name], entries[0]);
        forall p | p in WatchDirs(ignored, path + [entries[0].name], entries[0])
          ensures path < p && p[|path|] == entries[0].name
        {
          assert path + [entries[0].name] <= p;
        }
      }
    }
  }

  /** The entry that `name` leads to, if the traversal enters it. */
  function Entered(ignored: Path -> bool, path: Path, dir: Node, name: string): (r: Option<Node>)
    requires dir.Directory?
    ensures r.Some? ==> r.value.Directory? && r.value in dir.listing
  {
    var child := FindChild(dir.listing, name);
    if !Closes(path, dir) && child.Some? && Enters(ignored, path, child.value) then child else None
  }

  /** The traversal from the directory that `rest` leads to, if it can be seen. */
  function TraversalAt(ignored: Path -> bool, path: Path, dir: Node, rest: Path): seq<Path>
    requires dir.Directory?
    decreases |rest|
  {
    if rest == [] then WatchDirs(ignored, path, dir)
    else
      var child := Entered(ignored, path, dir, rest[0]);
      if child.Some? then TraversalAt(ignored, path + [rest[0]], child.value, rest[1..]) else []
  }

  lemma {:induction false} TraversalAtIsLookup(ignored: Path -> bool, path: Path, dir: Node, rest: Path)
    requires dir.Directory?
    ensures !Visible(ignored, path, dir, rest) ==> TraversalAt(ignored, path, dir, rest) == []
    ensures Visible(ignored, path, dir, rest) ==>
              && Lookup(dir, rest).Some? && Lookup(dir, rest).value.Directory?
              && TraversalAt(ignored, path, dir, rest) == WatchDirs(ignored, path + rest, Lookup(dir, rest).value)
    decreases |rest|
  {
    if rest == [] {
      assert path + rest == path;
    } else {
      var child := FindChild(dir.listing, rest[0]);
      if !Closes(path, dir) && child.Some? && Enters(ignored, path, child.value) {
        assert path + [rest[0]] + rest[1..] == path + rest;
        TraversalAtIsLookup(ignored, path + [rest[0]], child.value, rest[1..]);
      }
    }
  }

  lemma BelowSelf(ignored: Path -> bool, path: Path, dir: Node)
    requires dir.Directory?
    ensures Below(path, WatchDirs(ignored, path, dir)) == WatchDirs(ignored, path, dir)
  {
    WatchDirsBelow(ignored, path, dir);
    BelowAll(path, WatchDirs(ignored, path, dir));
  }

  lemma Advance(path: Path, rest: Path, start: Path)
    requires rest != [] && start == path + rest
    ensures start == path + [rest[0]] + rest[1..]
  {
  }

  lemma ChildIsWellFormed(dir: Node, child: Node)
    requires dir.Directory? && WellFormedTree(dir) && child in dir.listing
    ensures WellFormedTree(child)
  {
  }

  lemma {:induction false} BelowIsTraversalAt(ignored: Path -> bool, path: Path, dir: Node, rest: Path, start: Path)
    requires dir.Directory? && WellFormedTree(dir) && start == path + rest
    ensures Below(start, WatchDirs(ignored, path, dir)) == TraversalAt(ignored, path, dir, rest)
    decreases |rest|
  {
    if rest == [] {
      assert start == path;
      BelowSelf(ignored, path, dir);
    } else {
      BelowInside(ignored, path, dir, rest, start);
      var child := Entered(ignored, path, dir, rest[0]);
      if child.Some? {
        Advance(path, rest, start);
        ChildIsWellFormed(dir, child.value);
        BelowIsTraversalAt(ignored, path + [rest[0]], child.value, rest[1..], start);
      }
    }
  }

  /** Of everything the traversal pushes, the part at or below a start that it can see is the
      traversal from that start, in the same order; of a start that it cannot see, nothing. */
  lemma BelowIsTraversal(ignored: Path -> bool, path: Path, dir: Node, rest: Path)
    requires dir.Directory? && WellFormedTree(dir)
    ensures Visible(ignored, path, dir, rest) ==> Lookup(dir, rest).Some? && Lookup(dir, rest).value.Directory?
    ensures Below(path + rest, WatchDirs(ignored, path, dir)) ==
              if Visible(ignored, path, dir, rest) then WatchDirs(ignored, path + rest, Lookup(dir, rest).value) else []
  {
    TraversalAtIsLookup(ignored, path, dir, rest);
    BelowIsTraversalAt(ignored, path, dir, rest, path + rest);
  }

  lemma BelowInside(ignored: Path -> bool, path: Path, dir: Node, rest: Path, start: Path)
    requires dir.Directory? && WellFormedTree(dir) && rest != [] && start == path + rest
    ensures var child := Entered(ignored, path, dir, rest[0]);
      Below(start, WatchDirs(ignored, path, dir)) ==
        if child.Some? then Below(start, WatchDirs(ignored, path + [rest[0]], child.value)) else []
  {
    assert !(start <= path);
    assert Below(start, [path]) == [] by { BelowNone(start, [path]); }
    if !Closes(path, dir) {
      BelowConcat(start, [path], ChildDirs(ignored, path, dir, dir.listing));
      BelowChildren(ignored, path, dir, dir.listing, rest);
    }
  }

  lemma {:induction false} BelowChildren(ignored: Path -> bool, path: Path, dir: Node, entries: seq<Node>, rest: Path)
    requires dir.Directory? && WellFormedTree(dir) && rest != []
    requires forall e :: e in entries ==> e in dir.listing
    requires forall i, j :: 0 <= i < j < |entries| ==> entries[i].name != entries[j].name
    ensures var child := FindChild(entries, rest[0]);
      Below(path + rest, ChildDirs(ignored, path, dir, entries)) ==
        if child.Some? && Enters(ignored, path, child.value)
        then Below(path + rest, WatchDirs(ignored, path + [rest[0]], child.value)) else []
    decreases |entries|
  {
    if entries != [] {
      var start := path + rest;
      assert entries[0] in dir.listing;
      var first := if Enters(ignored, path, entries[0]) then WatchDirs(ignored, path + [entries[0].name], entries[0]) else [];
      BelowConcat(start, first, ChildDirs(ignored, path, dir, entries[1..]));
      if entries[0].name == rest[0] {
        ChildDirsBelow(ignored, path, dir, entries[1..]);
        forall p | p in ChildDirs(ignored, path, dir, entries[1..]) ensures !(start <= p) {
          assert start[|path|] == rest[0];
        }
        BelowNone(start, ChildDirs(ignored, path, dir, entries[1..]));
      } else {
        BelowChildren(ignored, path, dir, entries[1..], rest);
        if Enters(ignored, path, entries[0]) {
          WatchDirsBelow(ignored, path + [entries[0].name], entries[0]);
          forall p | p in first ensures !(start <= p) {
            assert start[|path|] == rest[0];
            assert path + [entries[0].name] <= p;
            assert p[|path|] == entries[0].name;
          }
          BelowNone(start, first);
        }
      }
    }
  }

  ghost predicate NoDuplicatePaths(dirs: seq<Path>) {
    forall i, j :: 0 <= i < j < |dirs| ==> dirs[i] != dirs[j]
  }

  lemma {:induction false} WatchDirsDistinct(ignored: Path -> bool, path: Path, dir: Node)
    requires dir.Directory? && WellFormedTree(dir)
    ensures NoDuplicatePaths(WatchDirs(ignored, path, dir))
    decreases dir, 0
  {
    if !Closes(path, dir) {
      ChildDirsDistinct(ignored, path, dir, dir.listing);
      ChildDirsBelow(ignored, path, dir, dir.listing);
      DistinctConcat([path], ChildDirs(ignored, path, dir, dir.listing));
    }
  }

  lemma {:induction false} ChildDirsDistinct(ignored: Path -> bool, path: Path, dir: Node, entries: seq<Node>)
    requires dir.Directory? && WellFormedTree(dir) && forall e :: e in entries ==> e in dir.listing
    requires forall i, j :: 0 <= i < j < |entries| ==> entries[i].name != entries[j].name
    ensures NoDuplicatePaths(ChildDirs(ignored, path, dir, entries))
    decreases dir, 0, |entries|
  {
    if entries != [] {
      assert entries[0] in dir.listing;
      ChildDirsDistinct(ignored, path, dir, entries[1..]);
      ChildDirsBelow(ignored, path, dir, entries[1..]);
      if Enters(ignored, path, entries[0]) {
        var sub := path + [entries[0].name];
        WatchDirsDistinct(ignored, sub, entries[0]);
        WatchDirsBelow(ignored, sub, entries[0]);
        var first, others := WatchDirs(ignored, sub, entries[0]), ChildDirs(ignored, path, dir, entries[1..]);
        forall p, q | p in first && q in others ensures p != q {
          assert sub <= p && p[|path|] == entries[0].name;
        }
        DistinctConcat(first, others);
      }
    }
  }

  lemma DistinctConcat(a: seq<Path>, b: seq<Path>)
    requires NoDuplicatePaths(a) && NoDuplicatePaths(b)
    requires forall p, q :: p in a && q in b ==> p != q
    ensures NoDuplicatePaths(a + b)
  {
    var c := a + b;
    forall i, j | 0 <= i < j < |c| ensures c[i] != c[j] {
      if i < |a| <= j {
        assert c[i] in a && c[j] in b;
      }
    }
  }

  /** A full traversal pushes each visible directory, and nothing else, exactly once. */
  lemma TraversalExact(ignored: Path -> bool, root: Node)
    requires root.Directory? && WellFormedTree(root)
    ensures NoDuplicatePaths(WatchDirs(ignored, [], root))
    ensures forall p: Path :: p in WatchDirs(ignored, [], root) <==> Visible(ignored, [], root, p)
  {
    WatchDirsDistinct(ignored, [], root);
    var all := WatchDirs(ignored, [], root);
    forall p: Path ensures p in all <==> Visible(ignored, [], root, p) {
      BelowIsTraversal(ignored, [], root, p);
      assert [] + p == p;
      BelowMembers(p, all, p);
      if Visible(ignored, [], root, p) {
        assert WatchDirs(ignored, p, Lookup(root, p).value)[0] == p;
      }
    }
  }

  /** From the entry `from` the path goes on to its `i`-th component: to a directory of that name in
      `from`, which is a directory that can be read and is the worktree itself or has no `.git`
      inside; and it is neither called `.git` nor ignored. */
  ghost predicate LeadsOn(ignored: Path -> bool, path: Path, rest: Path, i: nat, from: Node, to: Node)
    requires i < |rest|
  {
    && from.Directory? && from.readable && (path + rest[..i] != [] ==> !from.hasGit)
    && to in from.listing && to.Directory? && to.name == rest[i]
    && rest[i] != ".git" && !ignored(path + rest[..i + 1])
  }

  ghost predicate Leads(ignored: Path -> bool, path: Path, rest: Path, nodes: seq<Node>) {
    && |nodes| == |rest| + 1
    && forall i :: 0 <= i < |rest| ==> LeadsOn(ignored, path, rest, i, nodes[i], nodes[i + 1])
  }

  lemma {:induction false} FindChildIs(entries: seq<Node>, node: Node)
    requires node in entries && forall i, j :: 0 <= i < j < |entries| ==> entries[i].name != entries[j].name
    ensures FindChild(entries, node.name) == Some(node)
  {
    if entries[0] != node {
      assert entries == [entries[0]] + entries[1..];
      FindChildIs(entries[1..], node);
      var k :| 0 < k < |entries| && entries[k] == node;
    } else {
      assert entries[0].name == node.name;
    }
  }

  lemma LeadsOnShift(ignored: Path -> bool, path: Path, rest: Path, i: nat, from: Node, to: Node)
    requires rest != [] && i < |rest| - 1
    ensures LeadsOn(ignored, path, rest, i + 1, from, to) <==> LeadsOn(ignored, path + [rest[0]], rest[1..], i, from, to)
  {
    assert [rest[0]] + rest[1..][..i] == rest[..i + 1] && [rest[0]] + rest[1..][..i + 1] == rest[..i + 2];
    assert path + [rest[0]] + rest[1..][..i] == path + rest[..i + 1];
    assert path + [rest[0]] + rest[1..][..i + 1] == path + rest[..i + 2];
  }

  lemma LeadsOnFirst(ignored: Path -> bool, path: Path, rest: Path, from: Node, to: Node)
    requires rest != []
    ensures LeadsOn(ignored, path, rest, 0, from, to) <==>
      && from.Directory? && from.readable && (path != [] ==> !from.hasGit)
      && to in from.listing && to.Directory? && to.name == rest[0] && rest[0] != ".git" && !ignored(path + [rest[0]])
  {
    assert path + rest[..0] == path && rest[..1] == [rest[0]];
  }

  lemma LeadsCons(ignored: Path -> bool, path: Path, rest: Path, dir: Node, nodes: seq<Node>)
    requires rest != [] && nodes != []
    ensures Leads(ignored, path, rest, [dir] + nodes) <==>
              LeadsOn(ignored, path, rest, 0, dir, nodes[0]) && Leads(ignored, path + [rest[0]], rest[1..], nodes)
  {
    var all := [dir] + nodes;
    if |nodes| == |rest| {
      forall i | 0 <= i < |rest| - 1
        ensures LeadsOn(ignored, path, rest, i + 1, all[i + 1], all[i + 2])
                <==> LeadsOn(ignored, path + [rest[0]], rest[1..], i, nodes[i], nodes[i + 1])
      {
        LeadsOnShift(ignored, path, rest, i, nodes[i], nodes[i + 1]);
      }
      if Leads(ignored, path, rest, all) {
        assert LeadsOn(ignored, path, rest, 0, all[0], all[1]);
        forall i | 0 <= i < |rest| - 1 ensures LeadsOn(ignored, path + [rest[0]], rest[1..], i, nodes[i], nodes[i + 1]) {
          assert LeadsOn(ignored, path, rest, i + 1, all[i + 1], all[i + 2]);
        }
      }
      if LeadsOn(ignored, path, rest, 0, dir, nodes[0]) && Leads(ignored, path + [rest[0]], rest[1..], nodes) {
        forall i | 0 <= i < |rest| ensures LeadsOn(ignored, path, rest, i, all[i], all[i + 1]) {
          if i > 0 { assert LeadsOn(ignored, path + [rest[0]], rest[1..], i - 1, nodes[i - 1], nodes[i]); }
        }
      }
    }
  }

  lemma {:induction false} LeadsIsVisible(ignored: Path -> bool, path: Path, dir: Node, rest: Path, nodes: seq<Node>)
    requires dir.Directory? && WellFormedTree(dir) && Leads(ignored, path, rest, nodes) && nodes[0] == dir
    ensures Visible(ignored, path, dir, rest)
    decreases |rest|
  {
    if rest != [] {
      assert nodes == [dir] + nodes[1..];
      LeadsCons(ignored, path, rest, dir, nodes[1..]);
      LeadsOnFirst(ignored, path, rest, dir, nodes[1]);
      FindChildIs(dir.listing, nodes[1]);
      ChildIsWellFormed(dir, nodes[1]);
      LeadsIsVisible(ignored, path + [rest[0]], nodes[1], rest[1..], nodes[1..]);
    }
  }

  lemma {:induction false} VisibleIsLed(ignored: Path -> bool, path: Path, dir: Node, rest: Path) returns (nodes: seq<Node>)
    requires dir.Directory? && Visible(ignored, path, dir, rest)
    ensures Leads(ignored, path, rest, nodes) && nodes[0] == dir
    decreases |rest|
  {
    if rest == [] {
      nodes := [dir];
    } else {
      var child := FindChild(dir.listing, rest[0]).value;
      var others := VisibleIsLed(ignored, path + [rest[0]], child, rest[1..]);
      LeadsOnFirst(ignored, path, rest, dir, child);
      LeadsCons(ignored, path, rest, dir, others);
      nodes := [dir] + others;
    }
  }

  /** A path is visited exactly when such entries lead to it from the worktree. */
  lemma TraversalByEntries(ignored: Path -> bool, root: Node, p: Path)
    requires root.Directory? && WellFormedTree(root)
    ensures p in WatchDirs(ignored, [], root) <==> exists nodes :: Leads(ignored, [], p, nodes) && nodes[0] == root
  {
    TraversalExact(ignored, root);
    if Visible(ignored, [], root, p) {
      var nodes := VisibleIsLed(ignored, [], root, p);
    }
    if nodes :| Leads(ignored, [], p, nodes) && nodes[0] == root {
      LeadsIsVisible(ignored, [], root, p, nodes);
    }
  }

  /** Discovering from a start agrees with a rebuild of the whole watch set, below that start,
      exactly when the start is itself watched or ignored. For a directory inside a nested
      repository, under an ignored directory without being ignored itself, or reached through a
      link it does not. */
  lemma IncrementalDiscoveryExact(ignored: Path -> bool, root: Node, start: Path)
    requires root.Directory? && WellFormedTree(root)
    ensures WatchDirsFrom(ignored, root, start) == Below(start, WatchDirs(ignored, [], root)) <==>
              start in WatchDirs(ignored, [], root) || (start != [] && ignored(start))
  {
    TraversalExact(ignored, root);
    BelowIsTraversal(ignored, [], root, start);
    assert [] + start == start;
    if start != [] && ignored(start) {
      IgnoredIsInvisible(ignored, [], root, start);
    }
  }

  lemma {:induction false} IgnoredIsInvisible(ignored: Path -> bool, path: Path, dir: Node, rest: Path)
    requires dir.Directory? && rest != [] && ignored(path + rest)
    ensures !Visible(ignored, path, dir, rest)
    decreases |rest|
  {
    assert path + rest == path + [rest[0]] + rest[1..];
    assert |rest| == 1 ==> path + rest == path + [rest[0]];
    var child := FindChild(dir.listing, rest[0]);
    if |rest| > 1 && child.Some? && child.value.Directory? {
      IgnoredIsInvisible(ignored, path + [rest[0]], child.value, rest[1..]);
    }
  }

  /** The inside of a nested repository: a new directory there is watched when it appears, but
      not after a rebuild. */
  lemma NestedRepositoryIsNotRebuilt(name: string, inner: string)
    requires name != ".git" && inner != ".git"
    ensures var none := (p: Path) => false;
      var root := Directory("", true, true, [Directory(name, true, true, [Directory(inner, false, true, [])])]);
      && WatchDirsFrom(none, root, [name, inner]) == [[name, inner]]
      && [name, inner] !in WatchDirs(none, [], root)
  {
    var none := (p: Path) => false;
    var leaf := Directory(inner, false, true, []);
    var nested := Directory(name, true, true, [leaf]);
    var root := Directory("", true, true, [nested]);
    assert WellFormedTree(leaf) && WellFormedTree(nested) && WellFormedTree(root);
    TraversalExact(none, root);
    assert FindChild(root.listing, name) == Some(nested);
    assert [name, inner][1..] == [inner];
    assert !Visible(none, [name], nested, [inner]);
    assert !Visible(none, [], root, [name, inner]) by { assert [] + [name] == [name]; }
    assert FindChild(nested.listing, inner) == Some(leaf);
    assert Lookup(nested, [inner]) == Lookup(leaf, []) by { assert [inner][1..] == []; }
    assert Lookup(root, [name, inner]) == Some(leaf);
    assert WatchDirs(none, [name, inner], leaf) == [[name, inner]] + ChildDirs(none, [name, inner], leaf, []);
  }

  /** A link to a directory is traversed as a start, but a rebuild never enters it. */
  lemma LinkIsNotRebuilt(name: string, inner: string)
    requires inner != ".git"
    ensures var none := (p: Path) => false;
      var linked := Directory("", false, true, [Directory(inner, false, true, [])]);
      var root := Directory("", true, true, [Link(name, linked)]);
      && WatchDirsFrom(none, root, [name]) == [[name], [name, inner]]
      && WatchDirs(none, [], root) == [[]]
  {
    var none := (p: Path) => false;
    var leaf := Directory(inner, false, true, []);
    var linked := Directory("", false, true, [leaf]);
    var root := Directory("", true, true, [Link(name, linked)]);
    assert [name][1..] == [] && Followed(Link(name, linked)) == linked;
    assert Lookup(root, [name]) == Lookup(Link(name, linked), []);
    assert ChildDirs(none, [], root, root.listing[1..]) == [];
    assert ChildDirs(none, [], root, root.listing) == [] + ChildDirs(none, [], root, root.listing[1..]);
    assert [name] + [inner] == [name, inner];
    assert ChildDirs(none, [name], linked, linked.listing[1..]) == [];
    assert WatchDirs(none, [name, inner], leaf) == [[name, inner]] + ChildDirs(none, [name, inner], leaf, []);
    assert ChildDirs(none, [name], linked, linked.listing)
        == WatchDirs(none, [name] + [inner], leaf) + ChildDirs(none, [name], linked, linked.listing[1..]);
  }

  // ---------------------------------------------------------------- targets

  datatype WatchTarget = WatchTarget(path: Path, mode: WatchMode)

  /** `insert_target`: recursive wins over nonrecursive. */
  function InsertTarget(targets: map<Path, WatchMode>, path: Path, mode: WatchMode): map<Path, WatchMode> {
    if path !in targets then targets[path := mode]
    else if targets[path].NonRecursive? && mode.Recursive? then targets[path := mode]
    else targets
  }

  function InsertTargets(targets: map<Path, WatchMode>, list: seq<WatchTarget>): map<Path, WatchMode> {
    if list == [] then targets
    else InsertTarget(InsertTargets(targets, list[..|list| - 1]), list[|list| - 1].path, list[|list| - 1].mode)
  }

  /** Each inserted path is a target, recursive as soon as one insertion asks for it, whatever
      the order of the insertions. */
  lemma {:induction false} InsertTargetsMeaning(list: seq<WatchTarget>, p: Path)
    ensures p in InsertTargets(map[], list) <==> exists t :: t in list && t.path == p
    ensures p in InsertTargets(map[], list) ==>
              (InsertTargets(map[], list)[p] == Recursive <==> WatchTarget(p, Recursive) in list)
  {
    if list != [] {
      var init, last := list[..|list| - 1], list[|list| - 1];
      InsertTargetsMeaning(init, p);
      assert list == init + [last];
      assert last in list;
      if t :| t in init && t.path == p { assert t in list; }
      if p !in InsertTargets(map[], init) && WatchTarget(p, Recursive) in init {
        assert false;
      }
    }
  }

  /** Everything that `watch_targets_for_snapshot` inserts, in order. */
  function WatchList(worktreeDirs: seq<Path>, gitDir: Path, commonDir: Path, excludes: Option<Path>): seq<WatchTarget> {
    seq(|worktreeDirs|, i requires 0 <= i < |worktreeDirs| => WatchTarget(worktreeDirs[i], NonRecursive))
    + [WatchTarget(gitDir, Recursive), WatchTarget(commonDir, Recursive)]
    + (if excludes.Some? then [WatchTarget(excludes.value, NonRecursive)] else [])
  }

  lemma InWatchList(worktreeDirs: seq<Path>, gitDir: Path, commonDir: Path, excludes: Option<Path>, t: WatchTarget)
    ensures t in WatchList(worktreeDirs, gitDir, commonDir, excludes) <==>
      if t.mode.Recursive? then t.path == gitDir || t.path == commonDir
      else t.path in worktreeDirs || Some(t.path) == excludes
  {
    var dirs := seq(|worktreeDirs|, i requires 0 <= i < |worktreeDirs| => WatchTarget(worktreeDirs[i], NonRecursive));
    var tail := [WatchTarget(gitDir, Recursive), WatchTarget(commonDir, Recursive)];
    var last := if excludes.Some? then [WatchTarget(excludes.value, NonRecursive)] else [];
    assert WatchList(worktreeDirs, gitDir, commonDir, excludes) == dirs + tail + last;
    assert t in dirs + tail + last <==> t in dirs || t in tail || t in last;
    if t.mode.NonRecursive? && t.path in worktreeDirs {
      var i :| 0 <= i < |worktreeDirs| && worktreeDirs[i] == t.path;
      assert dirs[i] == t;
    }
  }

  /** `watch_targets_for_snapshot` before sorting: the worktree directories, the git and common
      directories, the excludes file, as far as they exist. */
  function WatchTargets(worktreeDirs: seq<Path>, gitDir: Path, commonDir: Path, excludes: Option<Path>, exist: Path -> bool)
    : map<Path, WatchMode>
  {
    var all := InsertTargets(map[], WatchList(worktreeDirs, gitDir, commonDir, excludes));
    map p | p in all && exist(p) :: all[p]
  }

  /** The git and common directories are watched recursively even if they are worktree
      directories or the excludes file as well; everything else is watched nonrecursively. */
  lemma WatchTargetsMeaning(worktreeDirs: seq<Path>, gitDir: Path, commonDir: Path, excludes: Option<Path>, exist: Path -> bool, p: Path)
    ensures var targets := WatchTargets(worktreeDirs, gitDir, commonDir, excludes, exist);
      && (p in targets <==> exist(p) && (p in worktreeDirs || p == gitDir || p == commonDir || Some(p) == excludes))
      && (p in targets ==> (targets[p] == Recursive <==> p == gitDir || p == commonDir))
  {
    var list := WatchList(worktreeDirs, gitDir, commonDir, excludes);
    InsertTargetsMeaning(list, p);
    InWatchList(worktreeDirs, gitDir, commonDir, excludes, WatchTarget(p, Recursive));
    InWatchList(worktreeDirs, gitDir, commonDir, excludes, WatchTarget(p, NonRecursive));
    forall t | t in list && t.path == p ensures t == WatchTarget(p, Recursive) || t == WatchTarget(p, NonRecursive) {}
  }
}
