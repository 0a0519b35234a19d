// The profiler's fold of stack samples into a call tree
// (tools/hmi_profiler.py, build_call_tree and dominant_path).

module CallTree {
  import opened Prelude

  /** The names from below the root down to a node; a node of the tree is found by its path. */
  type Path = seq<string>

  datatype Sample = Sample(tid: Option<int>, stack: seq<int>)

  function FunctionLabel(labels: seq<string>, index: int): string {
    if index < 0 || index >= |labels| then "???" else labels[index]
  }

  // --- What is folded -------------------------------------------------------------------

  /** A leaf-first stack as the labels from the outermost caller in. */
  function RootFirst(labels: seq<string>, stack: seq<int>): (path: Path)
    ensures |path| == |stack|
    ensures forall i :: 0 <= i < |stack| ==> path[i] == FunctionLabel(labels, stack[|stack| - 1 - i])
  {
    seq(|stack|, i requires 0 <= i < |stack| => FunctionLabel(labels, stack[|stack| - 1 - i]))
  }

  predicate IsKept(sample: Sample, tid: Option<int>) {
    (tid == None || sample.tid == tid) && sample.stack != []
  }

  /** A sample's path, if it counts. */
  function PathOf(labels: seq<string>, sample: Sample, tid: Option<int>): seq<Path> {
    if IsKept(sample, tid) then [RootFirst(labels, sample.stack)] else []
  }

  /** The paths of the samples that count, in order. */
  function Paths(labels: seq<string>, samples: seq<Sample>, tid: Option<int>): (paths: seq<Path>)
    ensures forall q :: q in paths ==> q != []
  {
    if samples == [] then []
    else
      Paths(labels, samples[..|samples| - 1], tid) + PathOf(labels, samples[|samples| - 1], tid)
  }

  // --- What a tree of paths holds ---------------------------------------------------------

  /** How many paths pass through `p` or end there. */
  function Total(paths: seq<Path>, p: Path): nat {
    if paths == [] then 0
    else Total(paths[..|paths| - 1], p) + (if p <= paths[|paths| - 1] then 1 else 0)
  }

  /** How many paths end at `p`. */
  function Self(paths: seq<Path>, p: Path): nat {
    if paths == [] then 0
    else Self(paths[..|paths| - 1], p) + (if p == paths[|paths| - 1] then 1 else 0)
  }

  /** The names that follow `p`, in the order they were first seen. */
  function Names(paths: seq<Path>, p: Path): seq<string> {
    if paths == [] then []
    else WithName(Names(paths[..|paths| - 1], p), paths[|paths| - 1], p)
  }

  function WithName(names: seq<string>, q: Path, p: Path): seq<string> {
    if p < q && q[|p|] !in names then names + [q[|p|]] else names
  }

  datatype Node = Node(name: string, self: nat, total: nat, children: seq<string>)

  function NameOf(p: Path): string {
    if p == [] then "<all>" else p[|p| - 1]
  }

  type Nodes = map<Path, Node>

  function At(nodes: Nodes, p: Path): Option<Node> {
    if p in nodes then Some(nodes[p]) else None
  }

  /** The node at `p` after folding `paths` and entering the first `k` frames of `q` on top. */
  function Expected(paths: seq<Path>, q: Path, k: nat, p: Path): Option<Node>
    requires k <= |q|
  {
    if p <= q[..k] then
      Some(Node(NameOf(p), Self(paths, p), Total(paths, p) + 1,
                if |p| < k then Names(paths + [q], p) else Names(paths, p)))
    else if Total(paths, p) > 0 then Some(Node(NameOf(p), Self(paths, p), Total(paths, p), Names(paths, p)))
    else None
  }

  ghost predicate IsEntered(nodes: Nodes, paths: seq<Path>, q: Path, k: nat)
    requires k <= |q|
  {
    forall p :: At(nodes, p) == Expected(paths, q, k, p)
  }

  /** The node at `p` of the finished tree; the root is there even with nothing in it. */
  function Folded(paths: seq<Path>, p: Path): Option<Node> {
    if p == [] || Total(paths, p) > 0 then Some(Node(NameOf(p), Self(paths, p), Total(paths, p), Names(paths, p)))
    else None
  }

  ghost predicate IsTreeOf(nodes: Nodes, paths: seq<Path>) {
    forall p :: At(nodes, p) == Folded(paths, p)
  }

  // --- The fold ---------------------------------------------------------------------------

  class Tree {
    var nodes: Nodes

    constructor ()
      ensures IsTreeOf(nodes, [])
    {
      nodes := map[[] := Node("<all>", 0, 0, [])];
    }

    /** One frame down: the child is made when it is new, and counted. */
    method Enter(node: Path, name: string) returns (child: Path)
      requires node in nodes
      requires node + [name] in nodes <==> name in nodes[node].children
      modifies this
      ensures child == node + [name]
      ensures nodes == Entered(old(nodes), node, name)
    {
      child := node + [name];
      if name !in nodes[node].children {
        nodes := nodes[child := Node(name, 0, 0, [])];
        nodes := nodes[node := nodes[node].(children := nodes[node].children + [name])];
      }
      nodes := nodes[child := nodes[child].(total := nodes[child].total + 1)];
    }

    method AddSample(ghost paths: seq<Path>, path: Path)
      requires IsTreeOf(nodes, paths) && path != []
      modifies this
      ensures IsTreeOf(nodes, paths + [path])
    {
      hide IsTreeOf, IsEntered, Entered;
      CountRoot(nodes, paths, path);
      nodes := nodes[[] := nodes[[]].(total := nodes[[]].total + 1)];
      var node: Path := [];
      var k := 0;
      while k < |path|
        invariant 0 <= k <= |path| && node == path[..k]
        invariant IsEntered(nodes, paths, path, k)
      {
        CanEnter(nodes, paths, path, k);
        OneFrameDown(nodes, paths, path, k);
        node := Enter(node, path[k]);
        k := k + 1;
      }
      assert path[..k] == path;
      CountLeaf(nodes, paths, path);
      nodes := nodes[node := nodes[node].(self := nodes[node].self + 1)];
    }
  }

  method BuildCallTree(labels: seq<string>, samples: seq<Sample>, tid: Option<int>) returns (tree: Tree)
    ensures fresh(tree) && IsTreeOf(tree.nodes, Paths(labels, samples, tid))
  {
    hide IsTreeOf;
    tree := new Tree();
    var i := 0;
    assert Paths(labels, samples[..0], tid) == [];
    while i < |samples|
      invariant 0 <= i <= |samples| && fresh(tree)
      invariant IsTreeOf(tree.nodes, Paths(labels, samples[..i], tid))
    {
      var sample := samples[i];
      assert samples[..i + 1][..i] == samples[..i];
      EmptyIsNeutral(Paths(labels, samples[..i], tid));
      i := i + 1;
      if tid.Some? && sample.tid != tid {
        continue;
      }
      if sample.stack == [] {
        continue;
      }
      tree.AddSample(Paths(labels, samples[..i - 1], tid), RootFirst(labels, sample.stack));
    }
    assert samples[..i] == samples;
  }

  /** The nodes after entering `name` below `node`. */
  function Entered(nodes: Nodes, node: Path, name: string): Nodes
    requires node in nodes
    requires node + [name] in nodes <==> name in nodes[node].children
  {
    var child := node + [name];
    var made := if name in nodes[node].children then nodes
                else
                  var grown := nodes[node].(children := nodes[node].children + [name]);
                  nodes[child := Node(name, 0, 0, [])][node := grown];
    made[child := made[child].(total := made[child].total + 1)]
  }

  // --- Why it is that tree ----------------------------------------------------------------

  lemma OneMorePath(paths: seq<Path>, q: Path, p: Path)
    ensures Total(paths + [q], p) == Total(paths, p) + (if p <= q then 1 else 0)
    ensures Self(paths + [q], p) == Self(paths, p) + (if p == q then 1 else 0)
    ensures Names(paths + [q], p) == WithName(Names(paths, p), q, p)
  {
    assert (paths + [q])[..|paths|] == paths;
  }

  lemma {:induction false} SelfIsPartOfTotal(paths: seq<Path>, p: Path)
    ensures Self(paths, p) <= Total(paths, p)
  {
    if paths != [] {
      SelfIsPartOfTotal(paths[..|paths| - 1], p);
    }
  }

  lemma Extends(p: Path, name: string, q: Path)
    ensures p + [name] <= q <==> p < q && q[|p|] == name
  {
    if p + [name] <= q {
      assert q[..|p|] == (p + [name])[..|p|] == p;
      assert q[|p|] == (p + [name])[|p|];
    }
  }

  /** The children of a node are exactly the names with a path through them. */
  lemma {:induction false} NamesAreChildren(paths: seq<Path>, p: Path, name: string)
    ensures name in Names(paths, p) <==> Total(paths, p + [name]) > 0
  {
    if paths != [] {
      NamesAreChildren(paths[..|paths| - 1], p, name);
      Extends(p, name, paths[|paths| - 1]);
    }
  }

  lemma {:induction false} NothingThere(paths: seq<Path>, p: Path)
    requires Total(paths, p) == 0
    ensures Names(paths, p) == []
  {
    if paths != [] {
      NothingThere(paths[..|paths| - 1], p);
    }
  }

  lemma CountRoot(nodes: Nodes, paths: seq<Path>, q: Path)
    requires IsTreeOf(nodes, paths)
    ensures [] in nodes
    ensures IsEntered(nodes[[] := nodes[[]].(total := nodes[[]].total + 1)], paths, q, 0)
  {
    assert At(nodes, []) == Folded(paths, []);
    hide Total, Self, Names;
    forall p
      ensures At(nodes[[] := nodes[[]].(total := nodes[[]].total + 1)], p) == Expected(paths, q, 0, p)
    {
      assert At(nodes, p) == Folded(paths, p);
      assert p <= q[..0] <==> p == [];
    }
  }

  lemma CanEnter(nodes: Nodes, paths: seq<Path>, q: Path, k: nat)
    requires k < |q| && IsEntered(nodes, paths, q, k)
    ensures q[..k] in nodes
    ensures q[..k] + [q[k]] in nodes <==> q[k] in nodes[q[..k]].children
  {
    hide Total, Self, Names;
    assert At(nodes, q[..k]) == Expected(paths, q, k, q[..k]);
    assert At(nodes, q[..k] + [q[k]]) == Expected(paths, q, k, q[..k] + [q[k]]);
    NamesAreChildren(paths, q[..k], q[k]);
  }

  lemma OneFrameDown(nodes: Nodes, paths: seq<Path>, q: Path, k: nat)
    requires k < |q| && IsEntered(nodes, paths, q, k)
    requires q[..k] in nodes && (q[..k] + [q[k]] in nodes <==> q[k] in nodes[q[..k]].children)
    ensures IsEntered(Entered(nodes, q[..k], q[k]), paths, q, k + 1)
  {
    forall p
      ensures At(Entered(nodes, q[..k], q[k]), p) == Expected(paths, q, k + 1, p)
    {
      OneFrameDownAt(nodes, paths, q, k, p);
    }
  }

  lemma OneFrameDownAt(nodes: Nodes, paths: seq<Path>, q: Path, k: nat, p: Path)
    requires k < |q| && IsEntered(nodes, paths, q, k)
    requires q[..k] in nodes && (q[..k] + [q[k]] in nodes <==> q[k] in nodes[q[..k]].children)
    ensures At(Entered(nodes, q[..k], q[k]), p) == Expected(paths, q, k + 1, p)
  {
    var node, child := q[..k], q[..k] + [q[k]];
    assert child == q[..k + 1];
    assert At(nodes, p) == Expected(paths, q, k, p);
    hide Total, Self, Names;
    if p == child {
      SelfIsPartOfTotal(paths, p);
      if Total(paths, p) == 0 {
        NothingThere(paths, p);
      }
    } else if p == node {
      OneMorePath(paths, q, p);
    } else {
      NotOnTheWay(q, k, p);
    }
  }

  lemma NotOnTheWay(q: Path, k: nat, p: Path)
    requires k < |q| && p != q[..k] && p != q[..k + 1]
    ensures p <= q[..k + 1] <==> p <= q[..k]
    ensures p <= q[..k] ==> |p| < k
  {
    if p <= q[..k + 1] {
      assert q[..k + 1][..|p|] == p;
      assert |p| <= k ==> q[..k + 1][..|p|] == q[..k][..|p|];
    }
    if p <= q[..k] {
      assert q[..k][..|p|] == p && q[..k] == q[..k + 1][..k];
    }
  }

  lemma CountLeaf(nodes: Nodes, paths: seq<Path>, q: Path)
    requires IsEntered(nodes, paths, q, |q|)
    ensures q in nodes
    ensures IsTreeOf(nodes[q := nodes[q].(self := nodes[q].self + 1)], paths + [q])
  {
    assert q[..|q|] == q;
    assert At(nodes, q) == Expected(paths, q, |q|, q);
    forall p
      ensures At(nodes[q := nodes[q].(self := nodes[q].self + 1)], p) == Folded(paths + [q], p)
    {
      CountLeafAt(nodes, paths, q, p);
    }
  }

  lemma CountLeafAt(nodes: Nodes, paths: seq<Path>, q: Path, p: Path)
    requires IsEntered(nodes, paths, q, |q|) && q in nodes
    ensures At(nodes[q := nodes[q].(self := nodes[q].self + 1)], p) == Folded(paths + [q], p)
  {
    assert q[..|q|] == q;
    assert At(nodes, p) == Expected(paths, q, |q|, p);
    OneMorePath(paths, q, p);
    hide Total, Self, Names;
  }

  // --- What the counts say ----------------------------------------------------------------

  function SumOfTotals(paths: seq<Path>, p: Path, names: seq<string>): nat {
    if names == [] then 0
    else SumOfTotals(paths, p, names[..|names| - 1]) + Total(paths, p + [names[|names| - 1]])
  }

  ghost predicate Distinct(names: seq<string>) {
    forall i, j :: 0 <= i < j < |names| ==> names[i] != names[j]
  }

  lemma {:induction false} NamesAreDistinct(paths: seq<Path>, p: Path)
    ensures Distinct(Names(paths, p))
  {
    if paths != [] {
      NamesAreDistinct(paths[..|paths| - 1], p);
    }
  }

  /** One more path adds one to the child it goes through and nothing to the others. */
  lemma {:induction false} SumWithPath(paths: seq<Path>, q: Path, p: Path, names: seq<string>)
    requires Distinct(names)
    ensures SumOfTotals(paths + [q], p, names)
         == SumOfTotals(paths, p, names) + (if p < q && q[|p|] in names then 1 else 0)
  {
    if names != [] {
      var last := names[|names| - 1];
      SumWithPath(paths, q, p, names[..|names| - 1]);
      OneMorePath(paths, q, p + [last]);
      Extends(p, last, q);
      assert forall n :: n in names <==> n in names[..|names| - 1] || n == last;
    }
  }

  lemma SumWithName(paths: seq<Path>, p: Path, names: seq<string>, name: string)
    ensures SumOfTotals(paths, p, names + [name]) == SumOfTotals(paths, p, names) + Total(paths, p + [name])
  {
    assert (names + [name])[..|names|] == names;
  }

  /** What passes through a node ends there or goes on to one of its children. */
  lemma {:induction false} TotalIsSelfPlusChildren(paths: seq<Path>, p: Path)
    ensures Total(paths, p) == Self(paths, p) + SumOfTotals(paths, p, Names(paths, p))
  {
    if paths != [] {
      var before, q := paths[..|paths| - 1], paths[|paths| - 1];
      assert paths == before + [q];
      TotalIsSelfPlusChildren(before, p);
      NamesAreDistinct(before, p);
      OneMorePath(before, q, p);
      hide Total, Self, Names, SumOfTotals;
      SumWithPath(before, q, p, Names(before, p));
      if p < q && q[|p|] !in Names(before, p) {
        SumWithName(paths, p, Names(before, p), q[|p|]);
        NamesAreChildren(before, p, q[|p|]);
        OneMorePath(before, q, p + [q[|p|]]);
        Extends(p, q[|p|], q);
      }
    }
  }

  // --- The order of the samples ----------------------------------------------------------

  lemma {:induction false} CountsWithout(paths: seq<Path>, i: nat, p: Path)
    requires i < |paths|
    ensures Total(paths, p) == Total(paths[..i] + paths[i + 1..], p) + (if p <= paths[i] then 1 else 0)
    ensures Self(paths, p) == Self(paths[..i] + paths[i + 1..], p) + (if p == paths[i] then 1 else 0)
  {
    var before, last := paths[..|paths| - 1], paths[|paths| - 1];
    var rest := paths[..i] + paths[i + 1..];
    if i == |paths| - 1 {
      assert rest == before;
    } else {
      CountsWithout(before, i, p);
      assert rest == before[..i] + before[i + 1..] + [last];
      OneMorePath(before[..i] + before[i + 1..], last, p);
    }
  }

  lemma MultisetWithout<T>(s: seq<T>, i: nat)
    requires i < |s|
    ensures multiset(s) == multiset(s[..i] + s[i + 1..]) + multiset{s[i]}
  {
    assert s == s[..i] + [s[i]] + s[i + 1..];
  }

  lemma Cancel<T>(a: multiset<T>, b: multiset<T>, x: T)
    requires a + multiset{x} == b + multiset{x}
    ensures a == b
  {
    forall y
      ensures a[y] == b[y]
    {
      assert (a + multiset{x})[y] == (b + multiset{x})[y];
    }
  }

  lemma Without<T>(a: seq<T>, b: seq<T>) returns (i: nat)
    requires a != [] && multiset(a) == multiset(b)
    ensures i < |b| && b[i] == a[|a| - 1]
    ensures multiset(b[..i] + b[i + 1..]) == multiset(a[..|a| - 1])
  {
    var last := |a| - 1;
    MultisetWithout(a, last);
    assert a[..last] + a[last + 1..] == a[..last];
    assert a[last] in multiset(b);
    i :| 0 <= i < |b| && b[i] == a[last];
    MultisetWithout(b, i);
    Cancel(multiset(b[..i] + b[i + 1..]), multiset(a[..last]), a[last]);
  }

  /** The counts of every node are the same in whatever order the samples come. */
  lemma {:induction false} OrderDoesNotMatter(a: seq<Path>, b: seq<Path>, p: Path)
    requires multiset(a) == multiset(b)
    ensures Total(a, p) == Total(b, p) && Self(a, p) == Self(b, p)
    ensures forall name :: name in Names(a, p) <==> name in Names(b, p)
    decreases |a|, 1
  {
    OrderDoesNotMatterForCounts(a, b, p);
    forall name
      ensures name in Names(a, p) <==> name in Names(b, p)
    {
      NamesAreChildren(a, p, name);
      NamesAreChildren(b, p, name);
      OrderDoesNotMatterForCounts(a, b, p + [name]);
    }
  }

  lemma {:induction false} OrderDoesNotMatterForCounts(a: seq<Path>, b: seq<Path>, p: Path)
    requires multiset(a) == multiset(b)
    ensures Total(a, p) == Total(b, p) && Self(a, p) == Self(b, p)
    decreases |a|
  {
    if a == [] {
      assert |multiset(b)| == 0;
    } else {
      var i := Without(a, b);
      CountsWithout(b, i, p);
      OrderDoesNotMatterForCounts(a[..|a| - 1], b[..i] + b[i + 1..], p);
    }
  }

  lemma PathsOneMore(labels: seq<string>, samples: seq<Sample>, sample: Sample, tid: Option<int>)
    ensures multiset(Paths(labels, samples + [sample], tid))
         == multiset(Paths(labels, samples, tid)) + multiset(PathOf(labels, sample, tid))
  {
    hide PathOf;
    assert (samples + [sample])[..|samples|] == samples;
  }

  lemma {:induction false} PathsWithout(labels: seq<string>, samples: seq<Sample>, tid: Option<int>, i: nat)
    requires i < |samples|
    ensures multiset(Paths(labels, samples, tid))
         == multiset(Paths(labels, samples[..i] + samples[i + 1..], tid)) + multiset(PathOf(labels, samples[i], tid))
  {
    hide Paths, PathOf;
    var before, last := samples[..|samples| - 1], samples[|samples| - 1];
    assert samples == before + [last];
    PathsOneMore(labels, before, last, tid);
    if i == |samples| - 1 {
      assert samples[..i] + samples[i + 1..] == before;
    } else {
      PathsWithout(labels, before, tid, i);
      assert samples[..i] + samples[i + 1..] == before[..i] + before[i + 1..] + [last];
      PathsOneMore(labels, before[..i] + before[i + 1..], last, tid);
    }
  }

  /** Samples in another order are the same paths in another order. */
  lemma {:induction false} PathsFollowSamples(labels: seq<string>, a: seq<Sample>, b: seq<Sample>, tid: Option<int>)
    requires multiset(a) == multiset(b)
    ensures multiset(Paths(labels, a, tid)) == multiset(Paths(labels, b, tid))
    decreases |a|
  {
    if a == [] {
      assert |multiset(b)| == 0;
    } else {
      hide Paths, PathOf;
      var i := Without(a, b);
      PathsWithout(labels, b, tid, i);
      PathsWithout(labels, a, tid, |a| - 1);
      assert a[..|a| - 1] + a[|a|..] == a[..|a| - 1];
      PathsFollowSamples(labels, a[..|a| - 1], b[..i] + b[i + 1..], tid);
    }
  }

  /** Trees built from the same samples differ in the order of their children at most. */
  lemma TreesAgree(labels: seq<string>, a: seq<Sample>, b: seq<Sample>, tid: Option<int>, x: Nodes, y: Nodes, p: Path)
    requires multiset(a) == multiset(b)
    requires IsTreeOf(x, Paths(labels, a, tid)) && IsTreeOf(y, Paths(labels, b, tid))
    ensures p in x <==> p in y
    ensures p in x ==> x[p].self == y[p].self && x[p].total == y[p].total
    ensures p in x ==> forall name :: name in x[p].children <==> name in y[p].children
  {
    hide Total, Self, Names, Paths;
    PathsFollowSamples(labels, a, b, tid);
    OrderDoesNotMatter(Paths(labels, a, tid), Paths(labels, b, tid), p);
    assert At(x, p) == Folded(Paths(labels, a, tid), p);
    assert At(y, p) == Folded(Paths(labels, b, tid), p);
  }

  // --- What the numbers count ---------------------------------------------------------------

  /** A sample of the thread asked for, if one is, that was taken on some frame. */
  predicate Counts(sample: Sample, tid: Option<int>) {
    sample.stack != [] && (tid.None? || (sample.tid.Some? && sample.tid.value == tid.value))
  }

  /** The stack is entered by the calls `p`, outermost first; a function that is not known is "???". */
  predicate EnteredBy(labels: seq<string>, stack: seq<int>, p: Path) {
    && |p| <= |stack|
    && forall k :: 0 <= k < |p| ==>
         var index := stack[|stack| - 1 - k];
         p[k] == if 0 <= index < |labels| then labels[index] else "???"
  }

  /** The samples that pass through the calls `p`. */
  function Passing(labels: seq<string>, samples: seq<Sample>, tid: Option<int>, p: Path): nat {
    if samples == [] then 0
    else
      var last := samples[|samples| - 1];
      var through := Counts(last, tid) && EnteredBy(labels, last.stack, p);
      Passing(labels, samples[..|samples| - 1], tid, p) + if through then 1 else 0
  }

  /** Those of them that were taken right there. */
  function Ending(labels: seq<string>, samples: seq<Sample>, tid: Option<int>, p: Path): nat {
    if samples == [] then 0
    else
      var last := samples[|samples| - 1];
      var there := Counts(last, tid) && EnteredBy(labels, last.stack, p) && |p| == |last.stack|;
      Ending(labels, samples[..|samples| - 1], tid, p) + if there then 1 else 0
  }

  lemma PathIsEntered(labels: seq<string>, stack: seq<int>, p: Path)
    ensures p <= RootFirst(labels, stack) <==> EnteredBy(labels, stack, p)
    ensures p == RootFirst(labels, stack) <==> EnteredBy(labels, stack, p) && |p| == |stack|
  {
    var path := RootFirst(labels, stack);
    if EnteredBy(labels, stack, p) {
      assert forall k :: 0 <= k < |p| ==> p[k] == path[k];
    }
  }

  lemma OneMoreSample(labels: seq<string>, paths: seq<Path>, sample: Sample, tid: Option<int>, p: Path)
    ensures var more := paths + PathOf(labels, sample, tid);
      var through := Counts(sample, tid) && EnteredBy(labels, sample.stack, p);
      && Total(more, p) == Total(paths, p) + (if through then 1 else 0)
      && Self(more, p) == Self(paths, p) + (if through && |p| == |sample.stack| then 1 else 0)
  {
    PathIsEntered(labels, sample.stack, p);
    hide RootFirst, EnteredBy, Total, Self, Names;
    EmptyIsNeutral(paths);
    OneMorePath(paths, RootFirst(labels, sample.stack), p);
  }

  /** A node's total counts the samples that pass through its calls, its self those taken right there. */
  lemma {:induction false} NodesCountSamples(labels: seq<string>, samples: seq<Sample>, tid: Option<int>, p: Path)
    ensures Total(Paths(labels, samples, tid), p) == Passing(labels, samples, tid, p)
    ensures Self(Paths(labels, samples, tid), p) == Ending(labels, samples, tid, p)
  {
    hide EnteredBy, Counts, PathOf;
    if samples != [] {
      var front, last := samples[..|samples| - 1], samples[|samples| - 1];
      NodesCountSamples(labels, front, tid, p);
      OneMoreSample(labels, Paths(labels, front, tid), last, tid, p);
      hide Total, Self;
    }
  }

  /** The root is named "<all>" and is always there; any other node is named after its last call. */
  lemma NodesAreNamed(nodes: Nodes, paths: seq<Path>, p: Path)
    requires IsTreeOf(nodes, paths)
    ensures [] in nodes && nodes[[]].name == "<all>"
    ensures p in nodes && p != [] ==> nodes[p].name == p[|p| - 1]
  {
    assert At(nodes, []) == Folded(paths, []) && At(nodes, p) == Folded(paths, p);
  }

  // --- The heaviest path -----------------------------------------------------------------

  /** The first of the heaviest children. */
  function HeaviestIndex(paths: seq<Path>, p: Path, names: seq<string>): (i: nat)
    requires names != []
    ensures i < |names|
    ensures forall j :: 0 <= j < |names| ==> Total(paths, p + [names[j]]) <= Total(paths, p + [names[i]])
    ensures forall j :: 0 <= j < i ==> Total(paths, p + [names[j]]) < Total(paths, p + [names[i]])
  {
    var last := |names| - 1;
    if last == 0 then 0
    else
      var i := HeaviestIndex(paths, p, names[..last]);
      assert forall j :: 0 <= j < last ==> names[..last][j] == names[j];
      if Total(paths, p + [names[last]]) > Total(paths, p + [names[i]]) then last else i
  }

  function Heaviest(paths: seq<Path>, p: Path): string
    requires Names(paths, p) != []
  {
    Names(paths, p)[HeaviestIndex(paths, p, Names(paths, p))]
  }

  /** A share of all samples, in percent, that is at least the threshold. */
  predicate Weighs(paths: seq<Path>, minPercent: real, p: Path) {
    100.0 * Total(paths, p) as real / Max(Total(paths, []), 1) as real >= minPercent
  }

  predicate IsHeavyStep(paths: seq<Path>, minPercent: real, path: Path, k: nat)
    requires k < |path|
  {
    && Names(paths, path[..k]) != []
    && path[k] == Heaviest(paths, path[..k])
    && Weighs(paths, minPercent, path[..k + 1])
  }

  ghost predicate IsHeavyChain(paths: seq<Path>, minPercent: real, path: Path) {
    forall k :: 0 <= k < |path| ==> IsHeavyStep(paths, minPercent, path, k)
  }

  /** Heaviest child by heaviest child, as far down as they reach the threshold. */
  ghost predicate IsDominant(paths: seq<Path>, minPercent: real, path: Path) {
    && IsHeavyChain(paths, minPercent, path)
    && (Names(paths, path) != [] ==> !Weighs(paths, minPercent, path + [Heaviest(paths, path)]))
  }

  function Depth(paths: seq<Path>): nat {
    if paths == [] then 0 else Max(Depth(paths[..|paths| - 1]), |paths[|paths| - 1]|)
  }

  lemma {:induction false} NodesAreNotDeeper(paths: seq<Path>, p: Path)
    requires Total(paths, p) > 0
    ensures |p| <= Depth(paths)
  {
    if !(p <= paths[|paths| - 1]) {
      NodesAreNotDeeper(paths[..|paths| - 1], p);
    }
  }

  lemma ChildNode(nodes: Nodes, paths: seq<Path>, p: Path, name: string)
    requires IsTreeOf(nodes, paths) && p in nodes && name in nodes[p].children
    ensures p + [name] in nodes && nodes[p + [name]].total == Total(paths, p + [name]) > 0
  {
    assert At(nodes, p) == Folded(paths, p) && At(nodes, p + [name]) == Folded(paths, p + [name]);
    NamesAreChildren(paths, p, name);
  }

  lemma HeaviestOfMore(paths: seq<Path>, p: Path, names: seq<string>, i: nat)
    requires 0 < i < |names|
    ensures var h := HeaviestIndex(paths, p, names[..i]);
      HeaviestIndex(paths, p, names[..i + 1])
      == if Total(paths, p + [names[i]]) > Total(paths, p + [names[h]]) then i else h
  {
    hide Total;
    assert names[..i + 1][..i] == names[..i];
  }

  method HeaviestChild(tree: Tree, ghost paths: seq<Path>, node: Path) returns (name: string)
    requires IsTreeOf(tree.nodes, paths) && node in tree.nodes && tree.nodes[node].children != []
    ensures Names(paths, node) != [] && name == Heaviest(paths, node)
  {
    assert At(tree.nodes, node) == Folded(paths, node);
    var names := tree.nodes[node].children;
    hide IsTreeOf, Total, Names, HeaviestIndex, At, Folded;
    name := names[0];
    ChildNode(tree.nodes, paths, node, name);
    ghost var h := 0;
    var i := 1;
    while i < |names|
      invariant 1 <= i <= |names|
      invariant h == HeaviestIndex(paths, node, names[..i]) && name == names[h]
    {
      ChildNode(tree.nodes, paths, node, name);
      ChildNode(tree.nodes, paths, node, names[i]);
      HeaviestOfMore(paths, node, names, i);
      if tree.nodes[node + [names[i]]].total > tree.nodes[node + [name]].total {
        name := names[i];
        h := i;
      }
      i := i + 1;
    }
    assert names[..i] == names;
  }

  lemma OneStepFurther(paths: seq<Path>, minPercent: real, path: Path)
    requires IsHeavyChain(paths, minPercent, path) && Names(paths, path) != []
    requires Weighs(paths, minPercent, path + [Heaviest(paths, path)])
    ensures IsHeavyChain(paths, minPercent, path + [Heaviest(paths, path)])
  {
    hide Names, Heaviest, Weighs;
    var longer := path + [Heaviest(paths, path)];
    forall k | 0 <= k < |longer|
      ensures IsHeavyStep(paths, minPercent, longer, k)
    {
      assert longer[..k] == path[..k];
      if k < |path| {
        assert IsHeavyStep(paths, minPercent, path, k) && longer[..k + 1] == path[..k + 1];
      } else {
        assert path[..k] == path && longer[..k + 1] == longer;
      }
    }
  }

  lemma NodeTotal(nodes: Nodes, paths: seq<Path>, p: Path)
    requires IsTreeOf(nodes, paths)
    ensures [] in nodes && nodes[[]].total == Total(paths, [])
    ensures p in nodes ==> nodes[p].total == Total(paths, p) && nodes[p].children == Names(paths, p)
  {
    assert At(nodes, []) == Folded(paths, []) && At(nodes, p) == Folded(paths, p);
    hide Total, Names, Self;
  }

  method DominantPath(tree: Tree, ghost paths: seq<Path>, minPercent: real) returns (path: Path)
    requires IsTreeOf(tree.nodes, paths)
    ensures IsDominant(paths, minPercent, path)
  {
    hide IsTreeOf, Total, Names, Heaviest, IsHeavyStep, Depth;
    path := [];
    var node: Path := [];
    NodeTotal(tree.nodes, paths, []);
    var total := if tree.nodes[[]].total == 0 then 1 else tree.nodes[[]].total;
    while tree.nodes[node].children != []
      invariant node == path && node in tree.nodes
      invariant IsHeavyChain(paths, minPercent, path)
      decreases Depth(paths) - |node|
    {
      NodeTotal(tree.nodes, paths, node);
      var name := HeaviestChild(tree, paths, node);
      HeaviestIsAName(paths, node);
      ChildNode(tree.nodes, paths, node, name);
      NodesAreNotDeeper(paths, node + [name]);
      node := node + [name];
      if 100.0 * tree.nodes[node].total as real / total as real < minPercent {
        return;
      }
      OneStepFurther(paths, minPercent, path);
      path := path + [name];
    }
    NodeTotal(tree.nodes, paths, path);
  }

  // --- Where the heaviest path depends on the order ---------------------------------------

  lemma SameWeights(a: seq<Path>, b: seq<Path>, minPercent: real, p: Path)
    requires multiset(a) == multiset(b)
    ensures Weighs(a, minPercent, p) <==> Weighs(b, minPercent, p)
    ensures Names(a, p) == [] <==> Names(b, p) == []
  {
    hide Total, Names;
    OrderDoesNotMatter(a, b, p);
    OrderDoesNotMatter(a, b, []);
    if Names(a, p) != [] { assert Names(a, p)[0] in Names(b, p); }
    if Names(b, p) != [] { assert Names(b, p)[0] in Names(a, p); }
  }

  lemma HeaviestIsHeaviest(paths: seq<Path>, p: Path, name: string)
    requires name in Names(paths, p)
    ensures Total(paths, p + [name]) <= Total(paths, p + [Heaviest(paths, p)])
  {
    hide Total, Names;
  }

  /** A heaviest child weighs enough as soon as any child does. */
  lemma HeaviestWeighsMost(paths: seq<Path>, minPercent: real, p: Path, name: string)
    requires name in Names(paths, p) && Weighs(paths, minPercent, p + [name])
    ensures Weighs(paths, minPercent, p + [Heaviest(paths, p)])
  {
    hide Total, Names, Heaviest;
    HeaviestIsHeaviest(paths, p, name);
    ShareGrows(Total(paths, p + [name]), Total(paths, p + [Heaviest(paths, p)]), Max(Total(paths, []), 1));
  }

  lemma ShareGrows(x: nat, y: nat, whole: nat)
    requires x <= y && whole > 0
    ensures 100.0 * x as real / whole as real <= 100.0 * y as real / whole as real
  {
  }

  lemma HeaviestIsAName(paths: seq<Path>, p: Path)
    requires Names(paths, p) != []
    ensures Heaviest(paths, p) in Names(paths, p)
  {
  }

  lemma HeavyStepIsAName(paths: seq<Path>, minPercent: real, path: Path, k: nat)
    requires k < |path| && IsHeavyStep(paths, minPercent, path, k)
    ensures path[k] in Names(paths, path[..k])
  {
    HeaviestIsAName(paths, path[..k]);
  }

  lemma ChainTakesHeaviest(paths: seq<Path>, minPercent: real, path: Path, k: nat)
    requires IsHeavyChain(paths, minPercent, path) && k < |path|
    ensures Names(paths, path[..k]) != [] && path[k] == Heaviest(paths, path[..k])
  {
    hide Names, Heaviest, Weighs;
    assert IsHeavyStep(paths, minPercent, path, k);
  }

  lemma LastAndBefore(x: Path, k: nat)
    requires 0 < k <= |x|
    ensures x[..k] == x[..k - 1] + [x[k - 1]]
  {
  }

  lemma {:induction false} SamePrefix(paths: seq<Path>, minPercent: real, x: Path, y: Path, k: nat)
    requires IsHeavyChain(paths, minPercent, x) && IsHeavyChain(paths, minPercent, y)
    requires k <= |x| && k <= |y|
    ensures x[..k] == y[..k]
  {
    if k > 0 {
      hide Names, Heaviest, Weighs, IsHeavyChain;
      SamePrefix(paths, minPercent, x, y, k - 1);
      ChainTakesHeaviest(paths, minPercent, x, k - 1);
      ChainTakesHeaviest(paths, minPercent, y, k - 1);
      LastAndBefore(x, k);
      LastAndBefore(y, k);
    }
  }

  lemma LongerGoesOn(paths: seq<Path>, minPercent: real, x: Path, y: Path)
    requires IsHeavyChain(paths, minPercent, x) && IsHeavyChain(paths, minPercent, y) && |x| < |y|
    ensures Names(paths, x) != [] && Weighs(paths, minPercent, x + [Heaviest(paths, x)])
  {
    hide Names, Heaviest, Weighs;
    SamePrefix(paths, minPercent, x, y, |x|);
    assert IsHeavyStep(paths, minPercent, y, |x|);
    assert x[..|x|] == x && y[..|x| + 1] == x + [y[|x|]];
  }

  lemma NotShorter(paths: seq<Path>, minPercent: real, x: Path, y: Path)
    requires IsDominant(paths, minPercent, x) && IsHeavyChain(paths, minPercent, y)
    ensures |y| <= |x|
  {
    hide Names, Heaviest, Weighs;
    if |x| < |y| {
      LongerGoesOn(paths, minPercent, x, y);
    }
  }

  /** The heaviest path is determined by the samples. */
  lemma DominantPathIsUnique(paths: seq<Path>, minPercent: real, x: Path, y: Path)
    requires IsDominant(paths, minPercent, x) && IsDominant(paths, minPercent, y)
    ensures x == y
  {
    NotShorter(paths, minPercent, x, y);
    NotShorter(paths, minPercent, y, x);
    SamePrefix(paths, minPercent, x, y, |x|);
    assert x[..|x|] == x && y[..|x|] == y;
  }

  /** And there always is one. */
  lemma {:induction false} DominantFrom(paths: seq<Path>, minPercent: real, p: Path) returns (path: Path)
    requires IsHeavyChain(paths, minPercent, p)
    ensures IsDominant(paths, minPercent, path)
    decreases Depth(paths) - |p|
  {
    hide Total, Names, Heaviest, Weighs, IsHeavyStep;
    path := p;
    if Names(paths, p) != [] && Weighs(paths, minPercent, p + [Heaviest(paths, p)]) {
      HeaviestIsAName(paths, p);
      NamesAreChildren(paths, p, Heaviest(paths, p));
      NodesAreNotDeeper(paths, p + [Heaviest(paths, p)]);
      OneStepFurther(paths, minPercent, p);
      path := DominantFrom(paths, minPercent, p + [Heaviest(paths, p)]);
    }
  }

  /** The child taken at step `k` is strictly heavier than each of its siblings. */
  ghost predicate IsUntied(paths: seq<Path>, path: Path, k: nat)
    requires k < |path|
  {
    forall name :: name in Names(paths, path[..k]) && name != path[k] ==>
                     Total(paths, path[..k] + [name]) < Total(paths, path[..k] + [path[k]])
  }

  lemma UntiedIsHeaviest(a: seq<Path>, b: seq<Path>, path: Path, k: nat)
    requires multiset(a) == multiset(b) && k < |path|
    requires path[k] in Names(a, path[..k]) && IsUntied(a, path, k)
    ensures Names(b, path[..k]) != [] && Heaviest(b, path[..k]) == path[k]
  {
    hide Total, Names, Heaviest;
    var p := path[..k];
    OrderDoesNotMatter(a, b, p);
    assert path[k] in Names(b, p);
    HeaviestIsAName(b, p);
    HeaviestIsHeaviest(b, p, path[k]);
    OrderDoesNotMatter(a, b, p + [path[k]]);
    OrderDoesNotMatter(a, b, p + [Heaviest(b, p)]);
  }

  lemma UntiedChainStays(a: seq<Path>, b: seq<Path>, minPercent: real, path: Path)
    requires multiset(a) == multiset(b) && IsHeavyChain(a, minPercent, path)
    requires forall k :: 0 <= k < |path| ==> IsUntied(a, path, k)
    ensures IsHeavyChain(b, minPercent, path)
  {
    hide Total, Names, Heaviest, Weighs, IsUntied;
    forall k | 0 <= k < |path|
      ensures IsHeavyStep(b, minPercent, path, k)
    {
      assert IsHeavyStep(a, minPercent, path, k);
      HeavyStepIsAName(a, minPercent, path, k);
      UntiedIsHeaviest(a, b, path, k);
      SameWeights(a, b, minPercent, path[..k + 1]);
    }
  }

  lemma UntiedPathStays(a: seq<Path>, b: seq<Path>, minPercent: real, path: Path)
    requires multiset(a) == multiset(b) && IsDominant(a, minPercent, path)
    requires forall k :: 0 <= k < |path| ==> IsUntied(a, path, k)
    ensures IsDominant(b, minPercent, path)
  {
    hide Total, Names, Heaviest, Weighs, IsUntied, IsHeavyChain;
    UntiedChainStays(a, b, minPercent, path);
    if Names(b, path) != [] && Weighs(b, minPercent, path + [Heaviest(b, path)]) {
      var name := Heaviest(b, path);
      HeaviestIsAName(b, path);
      OrderDoesNotMatter(a, b, path);
      SameWeights(a, b, minPercent, path + [name]);
      HeaviestWeighsMost(a, minPercent, path, name);
    }
  }

  /** The same samples, one that goes through `q` before all others. */
  lemma {:induction false} BroughtToFront(paths: seq<Path>, q: Path) returns (first: Path, rest: seq<Path>)
    requires Total(paths, q) > 0
    ensures q <= first && multiset([first] + rest) == multiset(paths)
  {
    var last := |paths| - 1;
    MultisetWithout(paths, last);
    assert paths[..last] + paths[last + 1..] == paths[..last];
    if q <= paths[last] {
      first, rest := paths[last], paths[..last];
      MultisetWithout([first] + rest, 0);
      assert ([first] + rest)[..0] + ([first] + rest)[1..] == rest;
    } else {
      var others;
      first, others := BroughtToFront(paths[..last], q);
      rest := others + [paths[last]];
      assert [first] + rest == [first] + others + [paths[last]];
    }
  }

  lemma {:induction false} FirstNameLeads(first: Path, rest: seq<Path>, p: Path, name: string)
    requires p + [name] <= first
    ensures Names([first] + rest, p) != [] && Names([first] + rest, p)[0] == name
  {
    Extends(p, name, first);
    if rest == [] {
      assert [first] + rest == [] + [first];
      OneMorePath([], first, p);
    } else {
      FirstNameLeads(first, rest[..|rest| - 1], p, name);
      assert [first] + rest == ([first] + rest[..|rest| - 1]) + [rest[|rest| - 1]];
      OneMorePath([first] + rest[..|rest| - 1], rest[|rest| - 1], p);
    }
  }

  lemma LeaderWinsTies(paths: seq<Path>, p: Path, name: string)
    requires Names(paths, p) != [] && Names(paths, p)[0] == name
    requires forall other :: other in Names(paths, p) ==> Total(paths, p + [other]) <= Total(paths, p + [name])
    ensures Heaviest(paths, p) == name
  {
    hide Total, Names;
    var names := Names(paths, p);
    var i := HeaviestIndex(paths, p, names);
    assert names[i] in names;
    assert Total(paths, p + [names[i]]) <= Total(paths, p + [names[0]]);
  }

  /** A sibling as heavy as the child taken is taken instead once its samples come first. */
  lemma TiedPathMoves(paths: seq<Path>, minPercent: real, path: Path, k: nat, name: string)
    returns (other: seq<Path>, moved: Path)
    requires IsHeavyChain(paths, minPercent, path) && k < |path|
    requires name in Names(paths, path[..k]) && name != path[k]
    requires Total(paths, path[..k] + [name]) >= Total(paths, path[..k] + [path[k]])
    ensures multiset(other) == multiset(paths) && IsDominant(other, minPercent, moved) && moved != path
  {
    hide Total, Names, Heaviest, HeaviestIndex, Weighs;
    var p := path[..k];
    assert IsHeavyStep(paths, minPercent, path, k);
    NamesAreChildren(paths, p, name);
    var first, rest := BroughtToFront(paths, p + [name]);
    other := [first] + rest;
    FirstNameLeads(first, rest, p, name);
    OrderDoesNotMatter(paths, other, p);
    forall n | n in Names(other, p)
      ensures Total(other, p + [n]) <= Total(other, p + [name])
    {
      HeaviestIsHeaviest(paths, p, n);
      OrderDoesNotMatter(paths, other, p + [n]);
      OrderDoesNotMatter(paths, other, p + [name]);
    }
    LeaderWinsTies(other, p, name);
    moved := DominantFrom(other, minPercent, []);
    if moved == path {
      ChainTakesHeaviest(other, minPercent, path, k);
    }
  }

  ghost predicate IsOrderFree(paths: seq<Path>, minPercent: real, path: Path) {
    forall other, y :: multiset(other) == multiset(paths) && IsDominant(other, minPercent, y) ==> y == path
  }

  /**
   * The dominant path is the same in whatever order the samples come if and
   * only if every child on it is strictly heavier than its siblings.
   */
  lemma DominantPathIsOrderFree(paths: seq<Path>, minPercent: real, path: Path)
    requires IsDominant(paths, minPercent, path)
    ensures IsOrderFree(paths, minPercent, path) <==> forall k :: 0 <= k < |path| ==> IsUntied(paths, path, k)
  {
    hide Total, Names, IsHeavyChain;
    if forall k :: 0 <= k < |path| ==> IsUntied(paths, path, k) {
      forall other, y | multiset(other) == multiset(paths) && IsDominant(other, minPercent, y)
        ensures y == path
      {
        UntiedPathStays(paths, other, minPercent, path);
        DominantPathIsUnique(other, minPercent, path, y);
      }
    } else {
      var k :| 0 <= k < |path| && !IsUntied(paths, path, k);
      var name :| name in Names(paths, path[..k]) && name != path[k]
        && Total(paths, path[..k] + [name]) >= Total(paths, path[..k] + [path[k]]);
      var other, moved := TiedPathMoves(paths, minPercent, path, k, name);
    }
  }

  lemma {:induction false} ChildrenShareTheWhole(paths: seq<Path>, p: Path, x: string, y: string)
    requires x != y
    ensures Total(paths, p + [x]) + Total(paths, p + [y]) <= Total(paths, []) == |paths|
  {
    if paths != [] {
      ChildrenShareTheWhole(paths[..|paths| - 1], p, x, y);
      Extends(p, x, paths[|paths| - 1]);
      Extends(p, y, paths[|paths| - 1]);
    }
  }

  lemma LesserShare(x: nat, y: nat, whole: nat)
    requires x <= y && x + y <= whole
    ensures 100.0 * x as real / Max(whole, 1) as real <= 50.0
  {
    var w := Max(whole, 1) as real;
    assert 100.0 * x as real <= 50.0 * w;
  }

  /** Only one child can hold more than half of all samples ... */
  lemma MajorityIsUntied(paths: seq<Path>, minPercent: real, path: Path, k: nat)
    requires minPercent > 50.0 && k < |path| && IsHeavyStep(paths, minPercent, path, k)
    ensures IsUntied(paths, path, k)
  {
    hide Total, Names, Heaviest;
    var p, x := path[..k], path[k];
    assert path[..k + 1] == p + [x];
    forall name | name in Names(paths, p) && name != x
      ensures Total(paths, p + [name]) < Total(paths, p + [x])
    {
      ChildrenShareTheWhole(paths, p, x, name);
      if Total(paths, p + [x]) <= Total(paths, p + [name]) {
        LesserShare(Total(paths, p + [x]), Total(paths, p + [name]), Total(paths, []));
      }
    }
  }

  /** ... so above that threshold the dominant path never depends on the order. */
  lemma MajorityPathIsOrderFree(paths: seq<Path>, minPercent: real, path: Path)
    requires minPercent > 50.0 && IsDominant(paths, minPercent, path)
    ensures IsOrderFree(paths, minPercent, path)
  {
    DominantPathIsOrderFree(paths, minPercent, path);
    hide IsOrderFree, Weighs;
    forall k | 0 <= k < |path|
      ensures IsUntied(paths, path, k)
    {
      assert IsHeavyStep(paths, minPercent, path, k);
      MajorityIsUntied(paths, minPercent, path, k);
    }
  }

  lemma TwoPaths(x: string, y: string, p: Path)
    requires x != y
    ensures Total([[x], [y]], p) == (if p <= [x] then 1 else 0) + (if p <= [y] then 1 else 0)
    ensures Names([[x], [y]], p) == if p == [] then [x, y] else []
  {
    assert [[x], [y]] == [] + [[x]] + [[y]];
    OneMorePath([], [x], p);
    OneMorePath([[x]], [y], p);
    assert [] + [[x]] == [[x]] && [[x]] + [[y]] == [[x], [y]];
  }

  /** At half or below it is not: of two equal callers, the one sampled first is the dominant path. */
  lemma TiesFollowTheOrder(x: string, y: string, minPercent: real)
    requires x != y && minPercent <= 50.0
    ensures IsDominant([[x], [y]], minPercent, [x])
  {
    var paths := [[x], [y]];
    hide Total, Names, Weighs;
    TwoPaths(x, y, []);
    TwoPaths(x, y, [x]);
    TwoPaths(x, y, [y]);
    assert [] + [x] == [x] && [] + [y] == [y];
    assert Heaviest(paths, []) == x;
    assert [x][..0] == [] && [x][..1] == [x];
    HalfWeighs(paths, minPercent, [x]);
    assert IsHeavyStep(paths, minPercent, [x], 0);
  }

  lemma HalfWeighs(paths: seq<Path>, minPercent: real, p: Path)
    requires Total(paths, p) == 1 && Total(paths, []) == 2 && minPercent <= 50.0
    ensures Weighs(paths, minPercent, p)
  {
    hide Total;
  }

  /** A single sample is its own heaviest path: all of the time went there. */
  lemma OneSampleIsDominant(q: Path, minPercent: real)
    requires minPercent <= 100.0
    ensures IsDominant([q], minPercent, q)
  {
    forall k | 0 <= k < |q|
      ensures IsHeavyStep([q], minPercent, q, k)
    {
      OnlyNext(q, k);
      WholeWeighs(q, minPercent, k + 1);
    }
    assert [q][..0] == [] && Names([q], q) == WithName(Names([], q), q, q);
  }

  lemma OnlyNext(q: Path, k: nat)
    requires k < |q|
    ensures Names([q], q[..k]) == [q[k]] && Heaviest([q], q[..k]) == q[k]
  {
    assert [q][..0] == [] && Names([q], q[..k]) == WithName(Names([], q[..k]), q, q[..k]);
  }

  lemma WholeWeighs(q: Path, minPercent: real, k: nat)
    requires k <= |q| && minPercent <= 100.0
    ensures Weighs([q], minPercent, q[..k])
  {
    assert [q][..0] == [];
    assert Total([q], q[..k]) == Total([], q[..k]) + 1 == 1;
    assert Total([q], []) == Total([], []) + 1 == 1;
  }
}
