/**
 * Dynamic subgraphs: the pieces the link tree falls into when every joint
 * that carries an FT sensor is cut. Each subgraph has one root, the member
 * nearest the dynamic base. DynTree keeps three tables about them:
 * link2subgraph_index, link_is_subgraph_root and subgraph_index2root_link.
 */
module SubGraphs {
  import opened Sequences

  /**
   * A traversal of the links (KDL::CoDyCo::Traversal), from a base link
   * outwards: order lists the links so that every parent comes before its
   * children; parent[l] is the parent link of l (-1 for the base) and
   * parentJointName[l] the name of the joint joining l to that parent.
   */
  datatype Traversal = Traversal(order: seq<int>, parent: seq<int>, parentJointName: seq<string>)

  /** The parent of link x in the traversal (-1 for the base). */
  function ParentLink(t: Traversal, x: int): int
    requires 0 <= x < |t.parent|
  {
    t.parent[x]
  }

  /**
   * order visits each of the n links exactly once, starting from the base
   * (the one link without a parent), and visits every other link after its
   * parent.
   */
  ghost predicate ValidTraversal(t: Traversal, n: int) {
    && |t.order| == n && |t.parent| == n && |t.parentJointName| == n
    && AllBelow(t.order, n)
    && Distinct(t.order)
    && (forall l :: 0 <= l < n ==> l in t.order)
    && (n > 0 ==> t.parent[t.order[0]] == -1)
    && (forall k {:trigger t.parent[t.order[k]]} :: 0 < k < n ==>
          0 <= t.parent[t.order[k]] < n && IndexOf(t.order, t.parent[t.order[k]]) < k)
  }

  /** The three tables agree with each other; link_count links, |roots| subgraphs. */
  ghost predicate TablesConsistent(link_count: int, link2subgraph: seq<int>, isRoot: seq<bool>, roots: seq<int>) {
    && |link2subgraph| == link_count && |isRoot| == link_count
    && (forall l :: 0 <= l < link_count ==> 0 <= link2subgraph[l] < |roots|)
    && (forall s :: 0 <= s < |roots| ==> 0 <= roots[s] < link_count && link2subgraph[roots[s]] == s)
    && (forall l :: 0 <= l < link_count ==> (isRoot[l] <==> roots[link2subgraph[l]] == l))
  }

  /** Each subgraph has exactly one root: two roots in the same subgraph are the same link. */
  lemma OneRootPerSubGraph(link_count: int, link2subgraph: seq<int>, isRoot: seq<bool>, roots: seq<int>, l: int, m: int)
    requires TablesConsistent(link_count, link2subgraph, isRoot, roots)
    requires 0 <= l < link_count && 0 <= m < link_count
    requires isRoot[l] && isRoot[m] && link2subgraph[l] == link2subgraph[m]
    ensures l == m
  {
  }

  /** The root of the subgraph of every link is a root, of that same subgraph. */
  lemma RootOfSubGraphIsRoot(link_count: int, link2subgraph: seq<int>, isRoot: seq<bool>, roots: seq<int>, l: int)
    requires TablesConsistent(link_count, link2subgraph, isRoot, roots)
    requires 0 <= l < link_count
    ensures 0 <= roots[link2subgraph[l]] < link_count
    ensures isRoot[roots[link2subgraph[l]]]
    ensures link2subgraph[roots[link2subgraph[l]]] == link2subgraph[l]
  {
  }

  /**
   * The tables describe the cut of traversal t at the FT-sensor joints,
   * where cut[l] says that the joint from link l to its parent carries a
   * sensor: a link is a root exactly when it is the base or is cut from its
   * parent, any other link is in its parent's subgraph, and subgraph 0 is
   * the base's.
   */
  ghost predicate CutAtSensors(t: Traversal, n: int, cut: seq<bool>,
                               link2subgraph: seq<int>, isRoot: seq<bool>, roots: seq<int>)
    requires ValidTraversal(t, n) && |cut| == n && |link2subgraph| == n && |isRoot| == n
  {
    && (forall l :: 0 <= l < n ==> (isRoot[l] <==> t.parent[l] == -1 || cut[l]))
    // triggered on ParentLink alone: a trigger on the tables would chain up the tree
    && (forall l {:trigger ParentLink(t, l)} :: 0 <= l < n && !isRoot[l] ==>
          0 <= ParentLink(t, l) < n && link2subgraph[l] == link2subgraph[ParentLink(t, l)])
    && (n > 0 ==> |roots| > 0 && roots[0] == t.order[0])
  }

  /** DynTree::isFTsensor: joint_name is one of the FT sensor joint names. */
  function IsFTSensor(joint_name: string, ft_sensors: seq<string>): (b: bool)
    ensures b <==> joint_name in ft_sensors
  {
    IndexOf(ft_sensors, joint_name) >= 0
  }

  /** The cut mask of a traversal: the joint from link l to its parent is an FT-sensor joint. */
  function SensorCut(t: Traversal, n: int, ft_sensors: seq<string>): (cut: seq<bool>)
    requires |t.parentJointName| == n
    ensures |cut| == n
    ensures forall l :: 0 <= l < n ==> (cut[l] <==> t.parentJointName[l] in ft_sensors)
  {
    seq(n, l requires 0 <= l < n => IsFTSensor(t.parentJointName[l], ft_sensors))
  }

  /** The three tables, as buildSubGraphStructure fills them. */
  datatype SubGraphTables = SubGraphTables(link2subgraph: seq<int>, isRoot: seq<bool>, roots: seq<int>)

  /** The tables describe every link already assigned to a subgraph. */
  ghost predicate AssignedLinksDescribed(t: Traversal, n: int, cut: seq<bool>, tb: SubGraphTables)
    requires |t.parent| == n && |cut| == n && |tb.link2subgraph| == n && |tb.isRoot| == n
  {
    && (forall s :: 0 <= s < |tb.roots| ==> 0 <= tb.roots[s] < n && tb.link2subgraph[tb.roots[s]] == s)
    && (forall x :: 0 <= x < n && tb.link2subgraph[x] >= 0 ==>
          && tb.link2subgraph[x] < |tb.roots|
          && (tb.isRoot[x] <==> tb.roots[tb.link2subgraph[x]] == x)
          && (tb.isRoot[x] <==> t.parent[x] == -1 || cut[x]))
    && (forall x {:trigger ParentLink(t, x)} :: 0 <= x < n && tb.link2subgraph[x] >= 0 && !tb.isRoot[x] ==>
          0 <= ParentLink(t, x) < n && tb.link2subgraph[x] == tb.link2subgraph[ParentLink(t, x)])
  }

  /** Link l opens a new subgraph. */
  function OpenSubGraph(tb: SubGraphTables, l: int): SubGraphTables
    requires 0 <= l < |tb.link2subgraph| && l < |tb.isRoot|
  {
    SubGraphTables(tb.link2subgraph[l := |tb.roots|], tb.isRoot[l := true], tb.roots + [l])
  }

  /** Link l joins the subgraph of link p. */
  function JoinSubGraph(tb: SubGraphTables, l: int, p: int): SubGraphTables
    requires 0 <= l < |tb.link2subgraph| && l < |tb.isRoot| && 0 <= p < |tb.link2subgraph|
  {
    SubGraphTables(tb.link2subgraph[l := tb.link2subgraph[p]], tb.isRoot[l := false], tb.roots)
  }

  lemma RootStep(t: Traversal, n: int, cut: seq<bool>, tb: SubGraphTables, l: int)
    requires |t.parent| == n && |cut| == n && |tb.link2subgraph| == n && |tb.isRoot| == n
    requires AssignedLinksDescribed(t, n, cut, tb)
    requires 0 <= l < n && tb.link2subgraph[l] < 0
    requires t.parent[l] == -1 || cut[l]
    ensures AssignedLinksDescribed(t, n, cut, OpenSubGraph(tb, l))
  {
    var tb' := OpenSubGraph(tb, l);
    forall x | 0 <= x < n && tb'.link2subgraph[x] >= 0
      ensures tb'.link2subgraph[x] < |tb'.roots| && (tb'.isRoot[x] <==> tb'.roots[tb'.link2subgraph[x]] == x)
    {
      if x != l {
        assert tb.roots[tb.link2subgraph[x]] != l;
      }
    }
  }

  lemma InnerStep(t: Traversal, n: int, cut: seq<bool>, tb: SubGraphTables, l: int)
    requires |t.parent| == n && |cut| == n && |tb.link2subgraph| == n && |tb.isRoot| == n
    requires AssignedLinksDescribed(t, n, cut, tb)
    requires 0 <= l < n && tb.link2subgraph[l] < 0
    requires !(t.parent[l] == -1 || cut[l])
    requires 0 <= t.parent[l] < n && tb.link2subgraph[t.parent[l]] >= 0
    ensures AssignedLinksDescribed(t, n, cut, JoinSubGraph(tb, l, t.parent[l]))
  {
    var tb' := JoinSubGraph(tb, l, t.parent[l]);
    forall x | 0 <= x < n && tb'.link2subgraph[x] >= 0
      ensures tb'.link2subgraph[x] < |tb'.roots| && (tb'.isRoot[x] <==> tb'.roots[tb'.link2subgraph[x]] == x)
      ensures !tb'.isRoot[x] ==> 0 <= ParentLink(t, x) < n && tb'.link2subgraph[x] == tb'.link2subgraph[ParentLink(t, x)]
    {
      if x == l {
        assert tb.roots[tb'.link2subgraph[x]] != l;
      } else if !tb'.isRoot[x] {
        assert t.parent[x] != l;
      }
    }
  }

  /** Before any link is visited, every link is unassigned and there is no subgraph. */
  function InitialTables(n: nat): SubGraphTables {
    SubGraphTables(seq(n, _ => -1), seq(n, _ => false), [])
  }

  /**
   * The tables after visiting the first k links of the traversal: a link
   * opens a new subgraph when it is the base or hangs from an FT-sensor
   * joint, and joins its parent's subgraph otherwise.
   */
  ghost function TablesAfter(t: Traversal, n: nat, cut: seq<bool>, k: nat): (tb: SubGraphTables)
    requires ValidTraversal(t, n) && |cut| == n && k <= n
    ensures |tb.link2subgraph| == n && |tb.isRoot| == n
  {
    if k == 0 then InitialTables(n)
    else
      var prev := TablesAfter(t, n, cut, k - 1);
      var l := t.order[k - 1];
      var p := t.parent[l];
      if p == -1 || cut[l] then OpenSubGraph(prev, l)
      else JoinSubGraph(prev, l, p)
  }

  /** Visiting the link at position k opens a subgraph or joins its parent's. */
  lemma TablesAfterNext(t: Traversal, n: nat, cut: seq<bool>, k: nat)
    requires ValidTraversal(t, n) && |cut| == n && k < n
    ensures var l := t.order[k];
      TablesAfter(t, n, cut, k + 1) ==
        if t.parent[l] == -1 || cut[l] then OpenSubGraph(TablesAfter(t, n, cut, k), l)
        else JoinSubGraph(TablesAfter(t, n, cut, k), l, t.parent[l])
  {
  }

  /** Exactly the first k links of order are assigned to a subgraph. */
  ghost predicate VisitedPrefix(order: seq<int>, n: int, link2subgraph: seq<int>, k: int)
    requires AllBelow(order, n) && |order| == n && |link2subgraph| == n
  {
    forall j :: 0 <= j < n ==> (link2subgraph[order[j]] >= 0 <==> j < k)
  }

  /** Assigning the link visited k-th moves the end of the visited prefix by one. */
  lemma PrefixStep(order: seq<int>, n: int, before: seq<int>, after: seq<int>, k: int, v: int)
    requires |order| == n && AllBelow(order, n) && Distinct(order) && |before| == n
    requires 0 < k <= n && v >= 0 && after == before[order[k - 1] := v]
    requires VisitedPrefix(order, n, before, k - 1)
    ensures VisitedPrefix(order, n, after, k)
  {
    forall j | 0 <= j < n && j != k - 1
      ensures after[order[j]] == before[order[j]]
    {
      assert IndexOf(order, order[j]) != IndexOf(order, order[k - 1]);
    }
  }

  /** TablesAfter(k) has assigned the first k links of the traversal and no other. */
  lemma {:induction false} TablesAfterPrefix(t: Traversal, n: nat, cut: seq<bool>, k: nat)
    requires ValidTraversal(t, n) && |cut| == n && k <= n
    ensures VisitedPrefix(t.order, n, TablesAfter(t, n, cut, k).link2subgraph, k)
  {
    if k > 0 {
      TablesAfterPrefix(t, n, cut, k - 1);
      var prev := TablesAfter(t, n, cut, k - 1);
      var l := t.order[k - 1];
      var p := t.parent[l];
      if p == -1 || cut[l] {
        PrefixStep(t.order, n, prev.link2subgraph, TablesAfter(t, n, cut, k).link2subgraph, k, |prev.roots|);
      } else {
        PrefixStep(t.order, n, prev.link2subgraph, TablesAfter(t, n, cut, k).link2subgraph, k, prev.link2subgraph[p]);
      }
    }
  }

  /** One step of the walk keeps the assigned links described. */
  lemma DescribedStep(t: Traversal, n: int, cut: seq<bool>, prev: SubGraphTables, l: int)
    requires |t.parent| == n && |cut| == n && |prev.link2subgraph| == n && |prev.isRoot| == n
    requires AssignedLinksDescribed(t, n, cut, prev)
    requires 0 <= l < n && prev.link2subgraph[l] < 0
    requires t.parent[l] == -1 || cut[l] || (0 <= t.parent[l] < n && prev.link2subgraph[t.parent[l]] >= 0)
    ensures AssignedLinksDescribed(t, n, cut,
      if t.parent[l] == -1 || cut[l] then OpenSubGraph(prev, l) else JoinSubGraph(prev, l, t.parent[l]))
  {
    if t.parent[l] == -1 || cut[l] {
      RootStep(t, n, cut, prev, l);
    } else {
      InnerStep(t, n, cut, prev, l);
    }
  }

  /** TablesAfter(k) describes every link it has assigned. */
  lemma {:induction false} TablesAfterDescribed(t: Traversal, n: nat, cut: seq<bool>, k: nat)
    requires ValidTraversal(t, n) && |cut| == n && k <= n
    ensures AssignedLinksDescribed(t, n, cut, TablesAfter(t, n, cut, k))
  {
    if k > 0 {
      TablesAfterDescribed(t, n, cut, k - 1);
      TablesAfterPrefix(t, n, cut, k - 1);
      var prev := TablesAfter(t, n, cut, k - 1);
      var l := t.order[k - 1];
      assert prev.link2subgraph[l] < 0;
      if k > 1 {
        var i := IndexOf(t.order, t.parent[l]);
        assert t.order[i] == t.parent[l] && prev.link2subgraph[t.order[i]] >= 0;
      }
      DescribedStep(t, n, cut, prev, l);
    }
  }

  /** Subgraph 0 is the one the base link opens. */
  lemma {:induction false} TablesAfterBaseFirst(t: Traversal, n: nat, cut: seq<bool>, k: nat)
    requires ValidTraversal(t, n) && |cut| == n && 0 < k <= n
    ensures |TablesAfter(t, n, cut, k).roots| > 0 && TablesAfter(t, n, cut, k).roots[0] == t.order[0]
  {
    if k > 1 {
      TablesAfterBaseFirst(t, n, cut, k - 1);
    }
  }

  /** When every position of a covering traversal has been visited, every link is assigned. */
  lemma EveryLinkVisited(order: seq<int>, n: int, link2subgraph: seq<int>)
    requires |order| == n && AllBelow(order, n) && |link2subgraph| == n
    requires forall l :: 0 <= l < n ==> l in order
    requires VisitedPrefix(order, n, link2subgraph, n)
    ensures forall l :: 0 <= l < n ==> link2subgraph[l] >= 0
  {
    forall l | 0 <= l < n
      ensures link2subgraph[l] >= 0
    {
      assert l in order;
      var j :| 0 <= j < n && order[j] == l;
    }
  }

  /** Once every link is assigned, the tables are consistent ... */
  lemma AssignedTablesConsistent(t: Traversal, n: int, cut: seq<bool>, tb: SubGraphTables)
    requires |t.parent| == n && |cut| == n && |tb.link2subgraph| == n && |tb.isRoot| == n
    requires AssignedLinksDescribed(t, n, cut, tb)
    requires forall l :: 0 <= l < n ==> tb.link2subgraph[l] >= 0
    ensures TablesConsistent(n, tb.link2subgraph, tb.isRoot, tb.roots)
  {
  }

  /** ... and describe the cut at the sensors. */
  lemma AssignedTablesCut(t: Traversal, n: int, cut: seq<bool>, tb: SubGraphTables)
    requires ValidTraversal(t, n) && |cut| == n && |tb.link2subgraph| == n && |tb.isRoot| == n
    requires AssignedLinksDescribed(t, n, cut, tb)
    requires forall l :: 0 <= l < n ==> tb.link2subgraph[l] >= 0
    requires n > 0 ==> |tb.roots| > 0 && tb.roots[0] == t.order[0]
    ensures CutAtSensors(t, n, cut, tb.link2subgraph, tb.isRoot, tb.roots)
  {
  }

  /** After the whole traversal the tables are consistent and describe the cut at the sensors. */
  lemma TablesAfterAll(t: Traversal, n: nat, cut: seq<bool>, tb: SubGraphTables)
    requires ValidTraversal(t, n) && |cut| == n && tb == TablesAfter(t, n, cut, n)
    ensures TablesConsistent(n, tb.link2subgraph, tb.isRoot, tb.roots)
    ensures CutAtSensors(t, n, cut, tb.link2subgraph, tb.isRoot, tb.roots)
  {
    TablesAfterPrefix(t, n, cut, n);
    TablesAfterDescribed(t, n, cut, n);
    if n > 0 {
      TablesAfterBaseFirst(t, n, cut, n);
    }
    EveryLinkVisited(t.order, n, tb.link2subgraph);
    AssignedTablesConsistent(t, n, cut, tb);
    AssignedTablesCut(t, n, cut, tb);
  }

  /**
   * The table-filling part of DynTree::buildSubGraphStructure: walk the
   * traversal from the base, open a new subgraph at the base and at every
   * link hanging from an FT-sensor joint, and put every other link in its
   * parent's subgraph.
   */
  method ComputeSubGraphTables(t: Traversal, n: nat, cut: seq<bool>)
    returns (link2subgraph: seq<int>, isRoot: seq<bool>, roots: seq<int>)
    requires ValidTraversal(t, n) && |cut| == n
    ensures TablesConsistent(n, link2subgraph, isRoot, roots)
    ensures CutAtSensors(t, n, cut, link2subgraph, isRoot, roots)
  {
    var tables := InitialTables(n);
    var k := 0;
    while k < n
      invariant 0 <= k <= n
      invariant tables == TablesAfter(t, n, cut, k)
    {
      var l := t.order[k];
      TablesAfterNext(t, n, cut, k);
      if t.parent[l] == -1 || cut[l] {
        tables := OpenSubGraph(tables, l);
      } else {
        tables := JoinSubGraph(tables, l, t.parent[l]);
      }
      k := k + 1;
    }
    TablesAfterAll(t, n, cut, tables);
    link2subgraph, isRoot, roots := tables.link2subgraph, tables.isRoot, tables.roots;
  }
}
