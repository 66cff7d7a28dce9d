/**
 * The production tree and its read-only aggregations
 * (core/src/models/production.rs).
 *
 * Counts that the source keeps in `u32` are unbounded here; `load` is an
 * exact rational instead of an `f64`.
 */
module Production {
  import opened Wrappers

  datatype ProductionNode =
    | Resolved(
        itemId: string,
        machineId: string,
        amount: nat,
        machineCount: nat,
        powerUsage: nat,
        load: real,
        inputs: seq<ProductionNode>,
        isSource: bool)
    | Unresolved(itemId: string, amount: nat)

  /** `is_leaf`: a resolved node without children; an unresolved node is never a leaf. */
  predicate IsLeaf(n: ProductionNode): (leaf: bool)
    ensures leaf <==> n.Resolved? && Nodes(n) == [n]
  {
    match n
    case Resolved(_, _, _, _, _, _, inputs, _) => ChildrenHaveNodes(inputs); |inputs| == 0
    case Unresolved(_, _) => false
  }

  // ---------------------------------------------------------------------
  // The nodes of a tree, as a reference for the recursive aggregations
  // ---------------------------------------------------------------------

  /** Every node of the tree in pre-order: the root, then each child's subtree in turn. */
  ghost function Nodes(n: ProductionNode): (ns: seq<ProductionNode>)
    ensures |ns| > 0 && ns[0] == n
    decreases n, 1
  {
    match n
    case Resolved(_, _, _, _, _, _, inputs, _) => [n] + NodesOf(inputs)
    case Unresolved(_, _) => [n]
  }

  ghost function NodesOf(s: seq<ProductionNode>): seq<ProductionNode>
    decreases s, 0
  {
    if |s| == 0 then [] else NodesOf(s[..|s| - 1]) + Nodes(s[|s| - 1])
  }

  /** A non-empty list of children has at least one node. */
  lemma ChildrenHaveNodes(s: seq<ProductionNode>)
    ensures |s| > 0 ==> |NodesOf(s)| > 0
  {
  }

  // ---------------------------------------------------------------------
  // Power
  // ---------------------------------------------------------------------

  /** `total_power`. */
  function TotalPower(n: ProductionNode): (p: nat)
    ensures n.Unresolved? ==> p == 0
    ensures n.Resolved? ==> p >= n.powerUsage
    decreases n, 1
  {
    match n
    case Resolved(_, _, _, _, powerUsage, _, inputs, _) => powerUsage + ChildrenPower(inputs)
    case Unresolved(_, _) => 0
  }

  function ChildrenPower(s: seq<ProductionNode>): nat
    decreases s, 0
  {
    if |s| == 0 then 0 else ChildrenPower(s[..|s| - 1]) + TotalPower(s[|s| - 1])
  }

  /** Sum of `power_usage` over the resolved nodes of a list. */
  ghost function PowerOf(ns: seq<ProductionNode>): nat
  {
    if |ns| == 0 then 0
    else PowerOf(ns[..|ns| - 1]) + (if ns[|ns| - 1].Resolved? then ns[|ns| - 1].powerUsage else 0)
  }

  lemma {:induction false} PowerOfAppend(a: seq<ProductionNode>, b: seq<ProductionNode>)
    ensures PowerOf(a + b) == PowerOf(a) + PowerOf(b)
    decreases |b|
  {
    if |b| > 0 {
      assert (a + b)[..|a + b| - 1] == a + b[..|b| - 1];
      PowerOfAppend(a, b[..|b| - 1]);
    } else {
      assert a + b == a;
    }
  }

  /** The total power is the sum of `power_usage` over every resolved node of the tree. */
  lemma {:induction false} TotalPowerIsSumOverNodes(n: ProductionNode)
    ensures TotalPower(n) == PowerOf(Nodes(n))
    decreases n, 1
  {
    match n
    case Resolved(_, _, _, _, _, _, inputs, _) =>
      ChildrenPowerIsSumOverNodes(inputs);
      PowerOfAppend([n], NodesOf(inputs));
      assert [n][..0] == [];
    case Unresolved(_, _) =>
      assert [n][..0] == [];
  }

  lemma {:induction false} ChildrenPowerIsSumOverNodes(s: seq<ProductionNode>)
    ensures ChildrenPower(s) == PowerOf(NodesOf(s))
    decreases s, 0
  {
    if |s| > 0 {
      ChildrenPowerIsSumOverNodes(s[..|s| - 1]);
      TotalPowerIsSumOverNodes(s[|s| - 1]);
      PowerOfAppend(NodesOf(s[..|s| - 1]), Nodes(s[|s| - 1]));
    }
  }

  /**
   * `total_power_exclude_source`: nothing when the root is unresolved or a
   * source; otherwise the whole tree's power. Only the root's flag is read.
   */
  function TotalPowerExcludeSource(n: ProductionNode): (p: nat)
    ensures n.Resolved? && !n.isSource ==> p == PowerOf(Nodes(n))
    ensures n.Unresolved? || n.isSource ==> p == 0
  {
    TotalPowerIsSumOverNodes(n);
    match n
    case Resolved(_, _, _, _, powerUsage, _, inputs, isSource) =>
      if !isSource then powerUsage + ChildrenPower(inputs) else 0
    case Unresolved(_, _) => 0
  }

  // ---------------------------------------------------------------------
  // Utilization
  // ---------------------------------------------------------------------

  /** `total_utilization`: a node's load times the product of its children's. */
  function TotalUtilization(n: ProductionNode): (u: real)
    ensures n.Unresolved? ==> u == 0.0
    ensures IsLeaf(n) ==> u == n.load
    decreases n, 1
  {
    match n
    case Resolved(_, _, _, _, _, load, inputs, _) =>
      if IsLeaf(n) then load else load * ChildrenUtilization(inputs)
    case Unresolved(_, _) => 0.0
  }

  function ChildrenUtilization(s: seq<ProductionNode>): real
    decreases s, 0
  {
    if |s| == 0 then 1.0 else ChildrenUtilization(s[..|s| - 1]) * TotalUtilization(s[|s| - 1])
  }

  /** An unresolved node anywhere in the tree makes the whole plan's utilization zero. */
  lemma {:induction false} UnresolvedForcesZeroUtilization(n: ProductionNode)
    requires exists m :: m in Nodes(n) && m.Unresolved?
    ensures TotalUtilization(n) == 0.0
    decreases n, 1
  {
    if n.Resolved? {
      var m :| m in Nodes(n) && m.Unresolved?;
      assert m in NodesOf(n.inputs);
      ChildrenUnresolvedForcesZero(n.inputs);
    }
  }

  lemma {:induction false} ChildrenUnresolvedForcesZero(s: seq<ProductionNode>)
    requires exists m :: m in NodesOf(s) && m.Unresolved?
    ensures ChildrenUtilization(s) == 0.0
    decreases s, 0
  {
    var m :| m in NodesOf(s) && m.Unresolved?;
    var last := s[|s| - 1];
    if m in Nodes(last) {
      UnresolvedForcesZeroUtilization(last);
    } else {
      ChildrenUnresolvedForcesZero(s[..|s| - 1]);
    }
  }

  /** Every resolved node's load lies in [0, 1], as the calculator guarantees. */
  ghost predicate LoadsInRange(ns: seq<ProductionNode>)
  {
    forall m :: m in ns && m.Resolved? ==> 0.0 <= m.load <= 1.0
  }

  lemma ProductInUnitInterval(a: real, b: real)
    requires 0.0 <= a <= 1.0 && 0.0 <= b <= 1.0
    ensures 0.0 <= a * b <= 1.0
  {
    var c := 1.0 - b;
    ProductNonNegative(a, c);
    assert a * b == a - a * c;
  }

  lemma ProductNonNegative(a: real, b: real)
    requires 0.0 <= a && 0.0 <= b
    ensures 0.0 <= a * b
  {
  }

  /** With loads in [0, 1], the multiplicative utilization stays in [0, 1]. */
  lemma {:induction false} TotalUtilizationInUnitInterval(n: ProductionNode)
    requires LoadsInRange(Nodes(n))
    ensures 0.0 <= TotalUtilization(n) <= 1.0
    decreases n, 1
  {
    if n.Resolved? && !IsLeaf(n) {
      assert n in Nodes(n);
      ChildrenUtilizationInUnitInterval(n.inputs);
      ProductInUnitInterval(n.load, ChildrenUtilization(n.inputs));
    }
  }

  lemma {:induction false} ChildrenUtilizationInUnitInterval(s: seq<ProductionNode>)
    requires LoadsInRange(NodesOf(s))
    ensures 0.0 <= ChildrenUtilization(s) <= 1.0
    decreases s, 0
  {
    if |s| > 0 {
      ChildrenUtilizationInUnitInterval(s[..|s| - 1]);
      TotalUtilizationInUnitInterval(s[|s| - 1]);
      ProductInUnitInterval(ChildrenUtilization(s[..|s| - 1]), TotalUtilization(s[|s| - 1]));
    }
  }

  /** `f64::round`: to the nearest integer, halves away from zero. */
  function Round(x: real): (r: int)
    ensures x >= 0.0 ==> r as real - 0.5 <= x < r as real + 0.5
    ensures x < 0.0 ==> r as real - 0.5 < x <= r as real + 0.5
  {
    if x >= 0.0 then (x + 0.5).Floor else -((-x + 0.5).Floor)
  }

  /** `utilization`: the root's total utilization as a whole percentage, clamped to 0..=100. */
  function Utilization(n: ProductionNode): (percent: nat)
    ensures percent <= 100
    ensures (exists m :: m in Nodes(n) && m.Unresolved?) ==> percent == 0
    ensures LoadsInRange(Nodes(n)) ==>
              percent as real - 0.5 <= 100.0 * TotalUtilization(n) < percent as real + 0.5
    // outside 0..=100 after rounding, the percentage is clamped
    ensures 0.0 <= 100.0 * TotalUtilization(n) < 100.5 ==>
              percent as real - 0.5 <= 100.0 * TotalUtilization(n) < percent as real + 0.5
    ensures 100.0 * TotalUtilization(n) >= 100.5 ==> percent == 100
    ensures 100.0 * TotalUtilization(n) < 0.0 ==> percent == 0
  {
    assert (exists m :: m in Nodes(n) && m.Unresolved?) ==> TotalUtilization(n) == 0.0 by {
      if exists m :: m in Nodes(n) && m.Unresolved? {
        UnresolvedForcesZeroUtilization(n);
      }
    }
    assert LoadsInRange(Nodes(n)) ==> 0.0 <= TotalUtilization(n) <= 1.0 by {
      if LoadsInRange(Nodes(n)) {
        TotalUtilizationInUnitInterval(n);
      }
    }
    var r := Round(TotalUtilization(n) * 100.0);
    if r < 0 then 0 else if r > 100 then 100 else r
  }

  // ---------------------------------------------------------------------
  // Per-key totals
  // ---------------------------------------------------------------------

  /** What one node adds to a per-key total, if anything (the `extract` closure). */
  type Extractor = ProductionNode -> Option<(string, nat)>

  /** Sum of the values that `extract` yields under `key`, over a list of nodes. */
  ghost function Contribution(extract: Extractor, key: string, ns: seq<ProductionNode>): nat
  {
    if |ns| == 0 then 0
    else
      var e := extract(ns[|ns| - 1]);
      Contribution(extract, key, ns[..|ns| - 1]) + (if e.Some? && e.value.0 == key then e.value.1 else 0)
  }

  /** Some node of the list yields a value under `key`. */
  ghost predicate Contributes(extract: Extractor, key: string, ns: seq<ProductionNode>)
  {
    exists m :: m in ns && extract(m).Some? && extract(m).value.0 == key
  }

  lemma {:induction false} ContributionAppend(extract: Extractor, key: string, a: seq<ProductionNode>, b: seq<ProductionNode>)
    ensures Contribution(extract, key, a + b) == Contribution(extract, key, a) + Contribution(extract, key, b)
    decreases |b|
  {
    if |b| > 0 {
      assert (a + b)[..|a + b| - 1] == a + b[..|b| - 1];
      ContributionAppend(extract, key, a, b[..|b| - 1]);
    } else {
      assert a + b == a;
    }
  }

  function Get(m: map<string, nat>, key: string): nat
  {
    if key in m then m[key] else 0
  }

  /** `after` is `before` with the contributions of `ns` added key by key. */
  ghost predicate Accumulates(before: map<string, nat>, after: map<string, nat>, extract: Extractor, ns: seq<ProductionNode>)
  {
    && (forall k :: k in after <==> k in before || Contributes(extract, k, ns))
    && (forall k :: k in after ==> after[k] == Get(before, k) + Contribution(extract, k, ns))
  }

  lemma AccumulatesNothing(m: map<string, nat>, extract: Extractor)
    ensures Accumulates(m, m, extract, [])
  {
  }

  lemma {:induction false} NoContributionIsZero(extract: Extractor, key: string, ns: seq<ProductionNode>)
    requires !Contributes(extract, key, ns)
    ensures Contribution(extract, key, ns) == 0
    decreases |ns|
  {
    if |ns| > 0 {
      var last := ns[|ns| - 1];
      assert last in ns;
      NoContributionIsZero(extract, key, ns[..|ns| - 1]);
    }
  }

  lemma AccumulatesOne(before: map<string, nat>, extract: Extractor, n: ProductionNode)
    ensures var e := extract(n);
            Accumulates(before, if e.Some? then before[e.value.0 := Get(before, e.value.0) + e.value.1] else before,
                        extract, [n])
  {
    assert [n][..0] == [];
    var e := extract(n);
    forall k
      ensures Contributes(extract, k, [n]) <==> e.Some? && e.value.0 == k
      ensures Contribution(extract, k, [n]) == if e.Some? && e.value.0 == k then e.value.1 else 0
    {
      if Contributes(extract, k, [n]) {
        var m :| m in [n] && extract(m).Some? && extract(m).value.0 == k;
      }
      if e.Some? && e.value.0 == k {
        assert n in [n];
      }
    }
  }

  lemma AccumulatesChain(
    t0: map<string, nat>, t1: map<string, nat>, t2: map<string, nat>, extract: Extractor,
    a: seq<ProductionNode>, b: seq<ProductionNode>)
    requires Accumulates(t0, t1, extract, a) && Accumulates(t1, t2, extract, b)
    ensures Accumulates(t0, t2, extract, a + b)
  {
    forall k
      ensures Contributes(extract, k, a + b) <==> Contributes(extract, k, a) || Contributes(extract, k, b)
      ensures Contribution(extract, k, a + b) == Contribution(extract, k, a) + Contribution(extract, k, b)
      ensures k in t2 ==> t2[k] == Get(t0, k) + Contribution(extract, k, a + b)
    {
      ContributionAppend(extract, k, a, b);
      if !Contributes(extract, k, a) {
        NoContributionIsZero(extract, k, a);
      }
      if Contributes(extract, k, a + b) {
        var m :| m in a + b && extract(m).Some? && extract(m).value.0 == k;
        assert m in a || m in b;
      }
      if Contributes(extract, k, a) {
        var m :| m in a && extract(m).Some? && extract(m).value.0 == k;
        assert m in a + b;
      }
      if Contributes(extract, k, b) {
        var m :| m in b && extract(m).Some? && extract(m).value.0 == k;
        assert m in a + b;
      }
    }
  }

  /** One node's extracted value added into the totals: `*totals.entry(key).or_insert(0) += value`. */
  ghost function AddExtracted(totals: map<string, nat>, extract: Extractor, n: ProductionNode): map<string, nat>
  {
    var e := extract(n);
    if e.Some? then totals[e.value.0 := Get(totals, e.value.0) + e.value.1] else totals
  }

  /** The totals after adding the extracted value of each node of `ns`, first to last. */
  ghost function Added(totals: map<string, nat>, extract: Extractor, ns: seq<ProductionNode>): map<string, nat>
    decreases |ns|
  {
    if |ns| == 0 then totals else AddExtracted(Added(totals, extract, ns[..|ns| - 1]), extract, ns[|ns| - 1])
  }

  /** Adding two lists of nodes one after the other is adding their concatenation. */
  lemma {:induction false} AddedAppend(totals: map<string, nat>, extract: Extractor, a: seq<ProductionNode>, b: seq<ProductionNode>)
    ensures Added(totals, extract, a + b) == Added(Added(totals, extract, a), extract, b)
    decreases |b|
  {
    if |b| == 0 {
      assert a + b == a;
    } else {
      assert (a + b)[..|a + b| - 1] == a + b[..|b| - 1];
      AddedAppend(totals, extract, a, b[..|b| - 1]);
    }
  }

  /** Adding the nodes one by one gives, key by key, the old total plus the contributions of `ns`. */
  lemma {:induction false} AddedAccumulates(totals: map<string, nat>, extract: Extractor, ns: seq<ProductionNode>)
    ensures Accumulates(totals, Added(totals, extract, ns), extract, ns)
    decreases |ns|
  {
    if |ns| == 0 {
      AccumulatesNothing(totals, extract);
    } else {
      var front, last := ns[..|ns| - 1], ns[|ns| - 1];
      AddedAccumulates(totals, extract, front);
      AccumulatesOne(Added(totals, extract, front), extract, last);
      AccumulatesChain(totals, Added(totals, extract, front), Added(totals, extract, ns), extract, front, [last]);
      assert front + [last] == ns;
    }
  }

  /** The first step of a node's walk adds the node itself. */
  lemma AddedRoot(totals: map<string, nat>, extract: Extractor, n: ProductionNode)
    ensures Added(totals, extract, [n]) == AddExtracted(totals, extract, n)
    ensures n.Resolved? ==> [n] + NodesOf(n.inputs[..0]) == [n]
    ensures n.Unresolved? ==> Nodes(n) == [n]
  {
    assert [n][..0] == [];
    if n.Resolved? {
      assert n.inputs[..0] == [];
    }
  }

  /** The pre-order up to child `i + 1` is the pre-order up to child `i`, then child `i`'s subtree. */
  lemma PreorderStep(n: ProductionNode, i: nat)
    requires n.Resolved? && i < |n.inputs|
    ensures [n] + NodesOf(n.inputs[..i + 1]) == ([n] + NodesOf(n.inputs[..i])) + Nodes(n.inputs[i])
  {
    assert n.inputs[..i + 1][..i] == n.inputs[..i];
  }

  /** Walking one more child extends the walked prefix of a node's pre-order. */
  lemma AddedChild(
    n: ProductionNode, i: nat, totals: map<string, nat>, result: map<string, nat>, next: map<string, nat>,
    extract: Extractor)
    requires n.Resolved? && i < |n.inputs|
    requires result == Added(totals, extract, [n] + NodesOf(n.inputs[..i]))
    requires next == Added(result, extract, Nodes(n.inputs[i]))
    ensures next == Added(totals, extract, [n] + NodesOf(n.inputs[..i + 1]))
  {
    PreorderStep(n, i);
    AddedAppend(totals, extract, [n] + NodesOf(n.inputs[..i]), Nodes(n.inputs[i]));
  }

  /** Once every child is walked, the whole pre-order is. */
  lemma AllChildrenWalked(n: ProductionNode)
    requires n.Resolved?
    ensures [n] + NodesOf(n.inputs[..|n.inputs|]) == Nodes(n)
  {
    assert n.inputs[..|n.inputs|] == n.inputs;
  }

  /**
   * `collect_totals_recursive`: adds this node's extracted value, then each
   * child's subtree in turn, into the running totals.
   */
  method CollectTotalsRecursive(n: ProductionNode, totals: map<string, nat>, extract: Extractor)
    returns (result: map<string, nat>)
    ensures result == Added(totals, extract, Nodes(n))
    decreases n
  {
    result := totals;
    var e := extract(n);
    if e.Some? {
      var (key, value) := e.value;
      result := result[key := Get(result, key) + value];
    }
    AddedRoot(totals, extract, n);
    if n.Resolved? {
      var i := 0;
      while i < |n.inputs|
        invariant 0 <= i <= |n.inputs|
        invariant result == Added(totals, extract, [n] + NodesOf(n.inputs[..i]))
      {
        var next := CollectTotalsRecursive(n.inputs[i], result, extract);
        AddedChild(n, i, totals, result, next, extract);
        result := next;
        i := i + 1;
      }
      AllChildrenWalked(n);
    }
  }

  /** `collect_totals`: the per-key totals of a whole tree, from an empty map. */
  method CollectTotals(n: ProductionNode, extract: Extractor) returns (totals: map<string, nat>)
    ensures forall k :: k in totals <==> Contributes(extract, k, Nodes(n))
    ensures forall k :: k in totals ==> totals[k] == Contribution(extract, k, Nodes(n))
  {
    totals := CollectTotalsRecursive(n, map[], extract);
    AddedAccumulates(map[], extract, Nodes(n));
    assert forall k :: Get(map[], k) == 0;
  }

  /** Raw demand: every resolved leaf and every unresolved node, keyed by item. */
  function SourceMaterialOf(n: ProductionNode): Option<(string, nat)>
  {
    match n
    case Resolved(itemId, _, amount, _, _, _, _, _) => if IsLeaf(n) then Some((itemId, amount)) else None
    case Unresolved(itemId, amount) => Some((itemId, amount))
  }

  /** Machines of every resolved node with a non-empty machine id. */
  function MachineCountOf(n: ProductionNode): Option<(string, nat)>
  {
    match n
    case Resolved(_, machineId, _, machineCount, _, _, _, _) =>
      if machineId != "" then Some((machineId, machineCount)) else None
    case Unresolved(_, _) => None
  }

  /** As `MachineCountOf`, but skipping source nodes wherever they are. */
  function MachineCountExcludingSourceOf(n: ProductionNode): Option<(string, nat)>
  {
    match n
    case Resolved(_, machineId, _, machineCount, _, _, _, isSource) =>
      if machineId != "" && !isSource then Some((machineId, machineCount)) else None
    case Unresolved(_, _) => None
  }

  /**
   * `total_source_materials`: an item is a key exactly when some resolved
   * leaf or unresolved node makes it; internal nodes are not counted.
   */
  method TotalSourceMaterials(n: ProductionNode) returns (totals: map<string, nat>)
    ensures forall k :: k in totals <==>
              exists m :: m in Nodes(n) && m.itemId == k && (m.Unresolved? || IsLeaf(m))
    ensures forall k :: k in totals ==> totals[k] == Contribution(SourceMaterialOf, k, Nodes(n))
  {
    totals := CollectTotals(n, SourceMaterialOf);
  }

  /**
   * `total_machines`: a machine id is a key exactly when some resolved node
   * with that non-empty machine id exists.
   */
  method TotalMachines(n: ProductionNode) returns (totals: map<string, nat>)
    ensures forall k :: k in totals <==>
              exists m :: m in Nodes(n) && m.Resolved? && m.machineId == k && k != ""
    ensures forall k :: k in totals ==> totals[k] == Contribution(MachineCountOf, k, Nodes(n))
  {
    totals := CollectTotals(n, MachineCountOf);
  }

  /** `total_machines_exclude_source`: as `TotalMachines`, skipping every source node at any depth. */
  method TotalMachinesExcludeSource(n: ProductionNode) returns (totals: map<string, nat>)
    ensures forall k :: k in totals <==>
              exists m :: m in Nodes(n) && m.Resolved? && !m.isSource && m.machineId == k && k != ""
    ensures forall k :: k in totals ==> totals[k] == Contribution(MachineCountExcludingSourceOf, k, Nodes(n))
  {
    totals := CollectTotals(n, MachineCountExcludingSourceOf);
  }
}
