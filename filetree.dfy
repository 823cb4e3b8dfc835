/**
 * The folder being ingested, as a tree, and what `folder.rglob("*")` yields
 * from it: every entry below the folder, with its path relative to the folder
 * and whether `is_file()` holds of it.
 */
module FileTree {
  import opened Paths

  datatype Node =
    | File(name: string)                      // a regular file
    | Dir(name: string, children: seq<Node>)  // a directory
    | Other(name: string)                     // a socket, a fifo, a device, a dangling link

  datatype Entry = Entry(path: Path, isFile: bool)

  /** A directory's entries, seen from its parent. */
  function Below(name: string, entries: seq<Entry>): (r: seq<Entry>)
    ensures |r| == |entries|
    ensures forall i :: 0 <= i < |r| ==> r[i] == Entry([name] + entries[i].path, entries[i].isFile)
  {
    seq(|entries|, i requires 0 <= i < |entries| => Entry([name] + entries[i].path, entries[i].isFile))
  }

  /** The entries at and below one node. */
  function NodeEntries(n: Node): (r: seq<Entry>)
    ensures forall i :: 0 <= i < |r| ==> |r[i].path| >= 1 && r[i].path[0] == n.name
    decreases n
  {
    match n
    case File(name) => [Entry([name], true)]
    case Other(name) => [Entry([name], false)]
    case Dir(name, children) => [Entry([name], false)] + Below(name, Walk(children))
  }

  /** `rglob("*")` over the folder's children, in some order (the caller sorts the result). */
  function Walk(nodes: seq<Node>): (r: seq<Entry>)
    ensures forall i :: 0 <= i < |r| ==> |r[i].path| >= 1
    decreases nodes
  {
    if nodes == [] then [] else NodeEntries(nodes[0]) + Walk(nodes[1..])
  }

  /** `p` names a regular file of the tree. */
  ghost predicate IsRegularFile(nodes: seq<Node>, p: Path)
    decreases |p|
  {
    && |p| >= 1
    && exists n :: n in nodes && n.name == p[0] &&
         if |p| == 1 then n.File? else n.Dir? && IsRegularFile(n.children, p[1..])
  }

  /** Every directory holds at most one entry of each name, as on a real file system. */
  ghost predicate WellFormed(nodes: seq<Node>)
    decreases nodes
  {
    && (forall i, j :: 0 <= i < j < |nodes| ==> nodes[i].name != nodes[j].name)
    && (forall i :: 0 <= i < |nodes| && nodes[i].Dir? ==> WellFormed(nodes[i].children))
  }

  ghost predicate UniquePaths(entries: seq<Entry>)
  {
    forall i, j :: 0 <= i < j < |entries| ==> entries[i].path != entries[j].path
  }

  /** The entries of one node report `p` as a regular file exactly when the node is, or holds, that file. */
  lemma {:induction false} NodeFindsRegularFile(n: Node, p: Path)
    ensures Entry(p, true) in NodeEntries(n) <==>
              |p| >= 1 && n.name == p[0] &&
              if |p| == 1 then n.File? else n.Dir? && IsRegularFile(n.children, p[1..])
    decreases n
  {
    match n
    case File(name) => {
      if |p| == 1 && p[0] == name {
        assert p == [name];
      }
    }
    case Other(_) => {}
    case Dir(name, children) => {
      var below := Below(name, Walk(children));
      assert NodeEntries(n) == [Entry([name], false)] + below;
      if |p| >= 2 && p[0] == name {
        WalkFindsRegularFiles(children, p[1..]);
        if Entry(p[1..], true) in Walk(children) {
          var k :| 0 <= k < |Walk(children)| && Walk(children)[k] == Entry(p[1..], true);
          assert p == [p[0]] + p[1..];
          assert below[k] == Entry(p, true);
        }
      }
      if Entry(p, true) in below {
        var k :| 0 <= k < |below| && below[k] == Entry(p, true);
        assert |p| >= 2 && p[0] == name && Walk(children)[k].path == p[1..];
        WalkFindsRegularFiles(children, p[1..]);
      }
    }
  }

  /** The walk reports `p` as a regular file exactly when `p` names a regular file of the tree. */
  lemma {:induction false} WalkFindsRegularFiles(nodes: seq<Node>, p: Path)
    ensures Entry(p, true) in Walk(nodes) <==> IsRegularFile(nodes, p)
    decreases nodes
  {
    if nodes == [] {
      return;
    }
    var n := nodes[0];
    WalkFindsRegularFiles(nodes[1..], p);
    NodeFindsRegularFile(n, p);
    assert Walk(nodes) == NodeEntries(n) + Walk(nodes[1..]);
    if IsRegularFile(nodes, p) {
      var m :| m in nodes && m.name == p[0] &&
               if |p| == 1 then m.File? else m.Dir? && IsRegularFile(m.children, p[1..]);
      if m != n {
        assert m in nodes[1..];
      }
    }
    if IsRegularFile(nodes[1..], p) {
      var m :| m in nodes[1..] && m.name == p[0] &&
               if |p| == 1 then m.File? else m.Dir? && IsRegularFile(m.children, p[1..]);
      assert m in nodes;
    }
  }

  lemma UniquePathsConcat(a: seq<Entry>, b: seq<Entry>)
    requires UniquePaths(a) && UniquePaths(b)
    requires forall i, j :: 0 <= i < |a| && 0 <= j < |b| ==> a[i].path != b[j].path
    ensures UniquePaths(a + b)
  {
    var c := a + b;
    forall i, j | 0 <= i < j < |c| ensures c[i].path != c[j].path {
      if j < |a| {
        assert c[i] == a[i] && c[j] == a[j];
      } else if i >= |a| {
        assert c[i] == b[i - |a|] && c[j] == b[j - |a|];
      } else {
        assert c[i] == a[i] && c[j] == b[j - |a|];
      }
    }
  }

  /** The first components of the walk's paths are the names of the nodes walked. */
  lemma {:induction false} WalkHeads(nodes: seq<Node>, k: nat)
    requires k < |Walk(nodes)|
    ensures exists i :: 0 <= i < |nodes| && nodes[i].name == Walk(nodes)[k].path[0]
    decreases nodes
  {
    var head := NodeEntries(nodes[0]);
    if k < |head| {
      assert Walk(nodes)[k] == head[k];
    } else {
      assert Walk(nodes)[k] == Walk(nodes[1..])[k - |head|];
      WalkHeads(nodes[1..], k - |head|);
      var i :| 0 <= i < |nodes[1..]| && nodes[1..][i].name == Walk(nodes)[k].path[0];
      assert nodes[i + 1].name == Walk(nodes)[k].path[0];
    }
  }

  /** In a well-formed tree the walk meets every path once. */
  lemma {:induction false} WalkUniquePaths(nodes: seq<Node>)
    requires WellFormed(nodes)
    ensures UniquePaths(Walk(nodes))
    decreases nodes
  {
    if nodes == [] {
      return;
    }
    var n := nodes[0];
    var head := NodeEntries(n);
    if n.Dir? {
      var inner := Walk(n.children);
      WalkUniquePaths(n.children);
      var below := Below(n.name, inner);
      forall i, j | 0 <= i < j < |below| ensures below[i].path != below[j].path {
        assert inner[i].path != inner[j].path;
        assert below[i].path[1..] == inner[i].path && below[j].path[1..] == inner[j].path;
      }
      UniquePathsConcat([Entry([n.name], false)], below);
    }
    var rest := nodes[1..];
    assert WellFormed(rest) by {
      forall i | 0 <= i < |rest| && rest[i].Dir? ensures WellFormed(rest[i].children) {
        assert rest[i] == nodes[i + 1];
      }
    }
    WalkUniquePaths(rest);
    forall i, j | 0 <= i < |head| && 0 <= j < |Walk(rest)| ensures head[i].path != Walk(rest)[j].path {
      WalkHeads(rest, j);
      var m :| 0 <= m < |rest| && rest[m].name == Walk(rest)[j].path[0];
      assert nodes[m + 1].name != nodes[0].name;
    }
    UniquePathsConcat(head, Walk(rest));
  }
}
