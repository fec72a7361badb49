/** `merge_archive` of tools/container_payload.py: every file of an archive
    replaces one in a real tree, after all of them were checked. */
module ArchiveMerge {
  import opened ArchivePaths
  import opened ArchiveWriter
  import opened ArchiveReader

  /** An entry of the tree; `Other` is a symbolic link or a special file. */
  datatype Node = Directory | Regular(file: File) | Other

  /** Everything below a directory, by path; `[]` is the directory itself. */
  type Nodes = map<Path, Node>

  /** Whatever is in the tree is in a directory of it. */
  ghost predicate WellFormed(nodes: Nodes) {
    && [] in nodes && nodes[[]] == Directory
    && forall p, i | p in nodes && 0 <= i < |p| :: p[..i] in nodes && nodes[p[..i]] == Directory
  }

  /** Nothing on the way to `path` is in the way. */
  predicate ParentsSafe(nodes: Nodes, path: Path) {
    forall i | 0 < i < |path| :: path[..i] in nodes ==> nodes[path[..i]] == Directory
  }

  predicate TargetSafe(nodes: Nodes, path: Path) {
    path in nodes ==> nodes[path].Regular?
  }

  ghost predicate Receives(nodes: Nodes, paths: set<Path>) {
    forall p | p in paths :: ParentsSafe(nodes, p) && TargetSafe(nodes, p)
  }

  /** A path and everything on the way to it. */
  function Prefixes(path: Path): set<Path> {
    set i | 0 <= i <= |path| :: path[..i]
  }

  function AllPrefixes(paths: set<Path>): set<Path> {
    set p, i | p in paths && 0 <= i <= |p| :: p[..i]
  }

  /** `nodes` after the files of `tree` at the paths `done` were put in place:
      directories are made where one was missing, and nothing else changes. */
  function MergedNodes(nodes: Nodes, tree: Tree, done: set<Path>): Nodes
    requires done <= tree.Keys
  {
    map p | p in nodes.Keys + AllPrefixes(done) ::
      if p in done then Regular(tree[p]) else if p in nodes then nodes[p] else Directory
  }

  /** Paths of which none leads through another. */
  ghost predicate Apart(paths: set<Path>) {
    forall p, q | p in paths && q in paths && p != q :: !Comparable(p, q)
  }

  /** `order` lists `paths`, each once. */
  ghost predicate Enumerates(order: seq<Path>, paths: set<Path>) {
    && (forall i | 0 <= i < |order| :: order[i] in paths)
    && (forall p | p in paths :: p in order)
    && (forall i, j | 0 <= i < j < |order| :: order[i] != order[j])
  }

  function Firsts(order: seq<Path>, i: nat): set<Path>
    requires i <= |order|
  {
    set k | 0 <= k < i :: order[k]
  }

  datatype Outcome = Merged | Refused | Stuck

  class Destination {
    var nodes: Nodes

    constructor (nodes: Nodes)
      ensures this.nodes == nodes
    {
      this.nodes := nodes;
    }

    /** The checks on one file of the payload. */
    method Check(path: Path) returns (safe: bool)
      ensures safe <==> ParentsSafe(nodes, path) && TargetSafe(nodes, path)
    {
      var i := 1;
      while i < |path|
        invariant forall k | 0 < k < i && k < |path| :: path[..k] in nodes ==> nodes[path[..k]] == Directory
      {
        var current := path[..i];
        if current in nodes && nodes[current] != Directory {
          return false;
        }
        i := i + 1;
      }
      return path !in nodes || nodes[path].Regular?;
    }

    /** `mkdir -p` of the parent and a rename onto the target. False is the error
        of the operating system when a parent is no directory or the target is. */
    method Replace(path: Path, file: File) returns (ok: bool)
      modifies this
      ensures ok <==> ParentsSafe(old(nodes), path) && !(path in old(nodes) && old(nodes)[path] == Directory)
      ensures ok ==> nodes == MergedNodes(old(nodes), map[path := file], {path})
    {
      if (exists i | 0 < i < |path| :: path[..i] in nodes && nodes[path[..i]] != Directory)
         || (path in nodes && nodes[path] == Directory) {
        return false;
      }
      nodes := MergedNodes(nodes, map[path := file], {path});
      return true;
    }

    /** `merge_archive`. `order` is the order in which the scratch directory's
        files are listed, `faults` where the extraction into it fails. */
    method MergeArchive(
      a: Payload, maxMembers: int, maxBytes: int, allowEmpty: bool, order: seq<Path>, faults: set<nat>)
      returns (outcome: Outcome)
      requires Enumerates(order, TreeOf(Items(a.members)).Keys)
      modifies this
      ensures outcome != Stuck
      ensures outcome == Merged <==>
                && [] in old(nodes) && old(nodes)[[]] == Directory
                && Acceptable(a, maxMembers, maxBytes, allowEmpty)
                && (forall i | 0 <= i <= |a.members| :: i !in faults)
                && Receives(old(nodes), TreeOf(Items(a.members)).Keys)
      ensures outcome == Refused ==> nodes == old(nodes)
      ensures outcome == Merged ==>
                var tree := TreeOf(Items(a.members));
                && nodes == MergedNodes(old(nodes), tree, tree.Keys)
                && (WellFormed(old(nodes)) ==> WellFormed(nodes))
    {
      hide Within, Items;
      if [] !in nodes || nodes[[]] != Directory {
        return Refused;
      }
      var scratch := new Site(true);
      var digests := scratch.ExtractArchive(a, maxMembers, maxBytes, allowEmpty, faults, content => content);
      if digests.None? {
        return Refused;
      }
      var tree := scratch.destination.value;
      AcceptedApart(a, maxMembers, maxBytes, allowEmpty);
      var safe := CheckAll(order, tree);
      if !safe {
        return Refused;
      }
      outcome := ReplaceAll(order, tree);
      if WellFormed(old(nodes)) {
        MergedWellFormed(old(nodes), tree);
      }
    }

    /** Every target and every parent is checked before the first replacement. */
    method CheckAll(order: seq<Path>, ghost tree: Tree) returns (safe: bool)
      requires Enumerates(order, tree.Keys)
      ensures safe <==> Receives(nodes, tree.Keys)
    {
      for i := 0 to |order|
        invariant forall k | 0 <= k < i :: ParentsSafe(nodes, order[k]) && TargetSafe(nodes, order[k])
      {
        var ok := Check(order[i]);
        if !ok {
          return false;
        }
      }
      return true;
    }

    method ReplaceAll(order: seq<Path>, tree: Tree) returns (outcome: Outcome)
      requires Enumerates(order, tree.Keys) && Apart(tree.Keys) && Receives(nodes, tree.Keys)
      modifies this
      ensures outcome == Merged && nodes == MergedNodes(old(nodes), tree, tree.Keys)
    {
      FirstsWithin(order, tree);
      MergedNone(nodes, tree);
      for i := 0 to |order|
        invariant Firsts(order, i) <= tree.Keys
        invariant nodes == MergedNodes(old(nodes), tree, Firsts(order, i))
      {
        var path := order[i];
        NextFirsts(order, tree, i);
        StillReceives(old(nodes), tree, Firsts(order, i), path);
        MergedStep(old(nodes), tree, Firsts(order, i), path);
        var ok := Replace(path, tree[path]);
        if !ok {
          return Stuck;
        }
      }
      return Merged;
    }
  }

  lemma FirstsWithin(order: seq<Path>, tree: Tree)
    requires Enumerates(order, tree.Keys)
    ensures Firsts(order, |order|) == tree.Keys
    ensures Firsts(order, 0) == {}
  {
    forall p | p in tree.Keys ensures p in Firsts(order, |order|) {
      var i :| 0 <= i < |order| && order[i] == p;
    }
  }

  lemma NextFirsts(order: seq<Path>, tree: Tree, i: nat)
    requires i < |order| && Enumerates(order, tree.Keys)
    ensures order[i] in tree.Keys && order[i] !in Firsts(order, i)
    ensures Firsts(order, i + 1) == Firsts(order, i) + {order[i]} <= tree.Keys
  {
  }

  lemma MergedNone(nodes: Nodes, tree: Tree)
    ensures MergedNodes(nodes, tree, {}) == nodes
  {
    assert AllPrefixes({}) == {};
  }

  /** No replacement gets in the way of a later one. */
  lemma StillReceives(nodes: Nodes, tree: Tree, done: set<Path>, path: Path)
    requires done <= tree.Keys && Apart(tree.Keys) && path in tree.Keys && path !in done
    requires Receives(nodes, tree.Keys)
    ensures var now := MergedNodes(nodes, tree, done);
            ParentsSafe(now, path) && !(path in now && now[path] == Directory)
  {
    var now := MergedNodes(nodes, tree, done);
    forall i | 0 < i < |path| && path[..i] in now ensures now[path[..i]] == Directory {
      assert path[..i] <= path;
      assert path[..i] in done ==> Comparable(path[..i], path);
    }
    if path in now && path !in nodes {
      var p, i :| p in done && 0 <= i <= |p| && p[..i] == path;
      assert path <= p;
      assert Comparable(path, p);
    }
  }

  lemma AllPrefixesPlus(done: set<Path>, path: Path)
    ensures AllPrefixes(done + {path}) == AllPrefixes(done) + Prefixes(path)
    ensures AllPrefixes({path}) == Prefixes(path)
  {
  }

  lemma MergedStep(nodes: Nodes, tree: Tree, done: set<Path>, path: Path)
    requires done <= tree.Keys && path in tree.Keys
    ensures MergedNodes(MergedNodes(nodes, tree, done), map[path := tree[path]], {path})
            == MergedNodes(nodes, tree, done + {path})
  {
    AllPrefixesPlus(done, path);
    var once := map[path := tree[path]];
    var left := MergedNodes(MergedNodes(nodes, tree, done), once, {path});
    var right := MergedNodes(nodes, tree, done + {path});
    assert left.Keys == nodes.Keys + AllPrefixes(done) + Prefixes(path) == right.Keys;
    forall p | p in left.Keys ensures left[p] == right[p] {
      assert p[..|p|] == p;
    }
  }

  /** The paths of an extracted archive do not lead through one another. */
  lemma AcceptedApart(a: Payload, maxMembers: int, maxBytes: int, allowEmpty: bool)
    requires Acceptable(a, maxMembers, maxBytes, allowEmpty)
    ensures Apart(TreeOf(Items(a.members)).Keys)
    ensures [] !in TreeOf(Items(a.members))
  {
    hide SafeArchivePath, Plain;
    var items := Items(a.members);
    assert PrefixFree(items);
    TreeApart(items);
    TreeKeys(items);
    forall i | 0 <= i < |items| ensures items[i].path != [] {
      assert items[i] == ItemOf(a.members[i]) && items[i].good;
      GoodPath(a.members[i]);
    }
  }

  lemma GoodPath(m: Member)
    requires ItemOf(m).good
    ensures ItemOf(m).path != []
  {
    hide Plain;
    SafeIsOrdinary(m.name);
  }

  lemma TreeApart(items: seq<Item>)
    requires PrefixFree(items)
    ensures Apart(TreeOf(items).Keys)
  {
    TreeKeys(items);
    forall p, q | p in PathsOf(items) && q in PathsOf(items) && p != q ensures !Comparable(p, q) {
      var i :| 0 <= i < |items| && items[i].path == p;
      var j :| 0 <= j < |items| && items[j].path == q;
      assert !Comparable(items[if i < j then i else j].path, items[if i < j then j else i].path);
    }
  }

  /** A tree receives the files exactly if nothing but a regular file is where one
      of them goes, and nothing but a directory on the way there. */
  lemma ReceivesExactly(nodes: Nodes, paths: set<Path>)
    ensures Receives(nodes, paths) <==>
              forall p, q | p in paths && q in nodes ::
                && (q == p ==> nodes[q].Regular?)
                && (q != [] && q < p ==> nodes[q].Directory?)
  {
    if Receives(nodes, paths) {
      forall p, q | p in paths && q in nodes && q != [] && q < p ensures nodes[q].Directory? {
        assert ParentsSafe(nodes, p) && p[..|q|] == q;
      }
      forall p | p in paths ensures TargetSafe(nodes, p) {
      }
    } else {
      var p :| p in paths && !(ParentsSafe(nodes, p) && TargetSafe(nodes, p));
      if !ParentsSafe(nodes, p) {
        var i :| 0 < i < |p| && p[..i] in nodes && nodes[p[..i]] != Directory;
        assert p[..i] < p;
      }
    }
  }

  /** What a merge does to the tree, path by path: the payload is there, nothing
      that was there is gone or changed unless the payload names it, and anything
      new besides is a directory on the way to a file of the payload. */
  lemma MergedMeaning(nodes: Nodes, tree: Tree)
    requires Receives(nodes, tree.Keys)
    ensures var now := MergedNodes(nodes, tree, tree.Keys);
            && (forall p | p in tree :: p in now && now[p] == Regular(tree[p]))
            && (forall p | p in nodes && p !in tree :: p in now && now[p] == nodes[p])
            && (forall p | p in now && p !in tree && p !in nodes ::
                  now[p] == Directory && exists q | q in tree :: p <= q)
            && (forall p | p in nodes && nodes[p] == Directory :: now[p] == Directory)
  {
    var now := MergedNodes(nodes, tree, tree.Keys);
    forall p | p in tree ensures p in now {
      assert p[..|p|] == p;
    }
    forall p | p in now && p !in tree && p !in nodes ensures exists q | q in tree :: p <= q {
      var q, i :| q in tree.Keys && 0 <= i <= |q| && q[..i] == p;
    }
    forall p | p in nodes && nodes[p] == Directory ensures p !in tree {
      assert p in tree ==> TargetSafe(nodes, p);
    }
  }

  /** And the result is a tree again. */
  lemma MergedWellFormed(nodes: Nodes, tree: Tree)
    requires WellFormed(nodes) && Receives(nodes, tree.Keys) && Apart(tree.Keys) && [] !in tree
    ensures WellFormed(MergedNodes(nodes, tree, tree.Keys))
  {
    var now := MergedNodes(nodes, tree, tree.Keys);
    forall p, i | p in now && 0 <= i < |p| ensures p[..i] in now && now[p[..i]] == Directory {
      var parent := p[..i];
      if p in nodes {
        NotInPayload(nodes, tree, parent);
      } else {
        var q, k :| q in tree.Keys && 0 <= k <= |q| && q[..k] == p;
        assert q[..i] == parent && parent <= q;
        assert Comparable(parent, q);
        assert parent !in tree;
        assert i > 0 ==> (parent in nodes ==> nodes[parent] == Directory) by {
          assert ParentsSafe(nodes, q);
        }
        if i == 0 {
          assert parent == [];
        }
      }
    }
    NotInPayload(nodes, tree, []);
  }

  lemma NotInPayload(nodes: Nodes, tree: Tree, path: Path)
    requires Receives(nodes, tree.Keys) && path in nodes && nodes[path] == Directory
    ensures path !in tree
  {
    assert path in tree ==> TargetSafe(nodes, path);
  }
}
