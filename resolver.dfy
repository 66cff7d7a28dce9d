/**
 * The dependency resolver (core/src/planner/dependency_resolver.rs) and its
 * entry point `plan_production` (core/src/planner/mod.rs).
 *
 * The source threads one mutable `visiting` set through the recursion: an
 * item is inserted before its recipe is chosen and removed once its subtree
 * is built. Here the methods take the set and hand back the set as it is on
 * return; the function `Plan` is the tree they build.
 */
module Resolver {
  import opened Wrappers
  import opened Recipes
  import opened Calculator
  import opened Selector
  import opened Production

  /** The machine id of a node whose recipe names no known machine. */
  const ManualMachine: string := "manual"

  /** Every item that is an input of some recipe: the only items the recursion descends into. */
  ghost function Universe(recipes: map<string, Recipe>): set<string>
  {
    set r, i | r in recipes.Values && 0 <= i < |r.inputs| :: r.inputs[i].0
  }

  /**
   * Every stored recipe listed for an item yields at least one of that item
   * per craft, so `calculate` never divides by zero. By-products may be 0.
   */
  predicate OutputsPositive(recipes: map<string, Recipe>, recipesByOutput: map<string, seq<string>>)
  {
    forall item, k :: item in recipesByOutput && k in recipesByOutput[item] && k in recipes ==>
      OutputPerCraft(recipes[k], item) >= 1
  }

  /** `machines.get(&recipe.by)`. */
  function MachineFor(machines: map<string, Machine>, recipe: Recipe): Option<Machine>
  {
    if recipe.producedBy in machines then Some(machines[recipe.producedBy]) else None
  }

  /** `(input_count * required_crafts).ceil()`: how much of an input a node asks for. */
  function SubAmount(inputCount: nat, requiredCrafts: real): (amount: nat)
    requires requiredCrafts >= 0.0
    ensures inputCount as real * requiredCrafts <= amount as real < inputCount as real * requiredCrafts + 1.0
  {
    Ceil(inputCount as real * requiredCrafts)
  }

  lemma InputInUniverse(recipes: map<string, Recipe>, recipe: Recipe, i: nat)
    requires recipe in recipes.Values && i < |recipe.inputs|
    ensures recipe.inputs[i].0 in Universe(recipes)
  {
  }

  /** Marking an unmarked item of the universe leaves fewer unmarked items. */
  lemma MarkingShrinks(universe: set<string>, visiting: set<string>, x: string)
    requires x in universe && x !in visiting
    ensures |universe - (visiting + {x})| < |universe - visiting|
  {
    assert universe - visiting == (universe - (visiting + {x})) + {x};
  }

  lemma SelectedIsCatalogued(
    itemId: string, recipes: map<string, Recipe>, recipesByOutput: map<string, seq<string>>,
    machines: map<string, Machine>, visiting: set<string>)
    requires SelectBestRecipe(itemId, recipes, recipesByOutput, machines, visiting).Some?
    ensures SelectBestRecipe(itemId, recipes, recipesByOutput, machines, visiting).value in recipes.Values
    ensures OutputsPositive(recipes, recipesByOutput) ==>
              OutputPerCraft(SelectBestRecipe(itemId, recipes, recipesByOutput, machines, visiting).value, itemId) >= 1
  {
    var r := SelectBestRecipe(itemId, recipes, recipesByOutput, machines, visiting).value;
    var k :| k in recipesByOutput[itemId] && k in recipes && recipes[k] == r;
  }

  // ---------------------------------------------------------------------
  // The tree that `resolve` builds
  // ---------------------------------------------------------------------

  /**
   * `resolve(item_id, amount)` started with `visiting`: the item is marked,
   * the best recipe is chosen against the marked set, and without one the
   * item stays unresolved.
   */
  function Plan(
    recipes: map<string, Recipe>, recipesByOutput: map<string, seq<string>>, machines: map<string, Machine>,
    itemId: string, amount: nat, visiting: set<string>): ProductionNode
    requires OutputsPositive(recipes, recipesByOutput)
    decreases |Universe(recipes) - (visiting + {itemId})|, 2
  {
    var marked := visiting + {itemId};
    match SelectBestRecipe(itemId, recipes, recipesByOutput, machines, marked)
    case Some(recipe) =>
      SelectedIsCatalogued(itemId, recipes, recipesByOutput, machines, marked);
      BuildNode(recipes, recipesByOutput, machines, recipe, itemId, amount, marked)
    case None => Unresolved(itemId, amount)
  }

  /** `build_resolved_node`: the calculation for the recipe, and one child per unmarked input. */
  function BuildNode(
    recipes: map<string, Recipe>, recipesByOutput: map<string, seq<string>>, machines: map<string, Machine>,
    recipe: Recipe, itemId: string, amount: nat, visiting: set<string>): ProductionNode
    requires OutputsPositive(recipes, recipesByOutput) && recipe in recipes.Values
    requires OutputPerCraft(recipe, itemId) >= 1
    decreases |Universe(recipes) - visiting|, 1
  {
    var machine := MachineFor(machines, recipe);
    var calculation := Calculate(recipe, machine, amount, itemId);
    Resolved(
      itemId,
      if machine.Some? then machine.value.id else ManualMachine,
      amount,
      calculation.machineCount,
      calculation.powerUsage,
      calculation.load,
      Children(recipes, recipesByOutput, machines, recipe, calculation.requiredCrafts, visiting, |recipe.inputs|),
      recipe.isSource)
  }

  /** The children built from the first `n` inputs of `recipe`, skipping the marked ones. */
  function Children(
    recipes: map<string, Recipe>, recipesByOutput: map<string, seq<string>>, machines: map<string, Machine>,
    recipe: Recipe, requiredCrafts: real, visiting: set<string>, n: nat): seq<ProductionNode>
    requires OutputsPositive(recipes, recipesByOutput) && recipe in recipes.Values
    requires requiredCrafts >= 0.0 && n <= |recipe.inputs|
    decreases |Universe(recipes) - visiting|, 0, n
  {
    if n == 0 then []
    else
      var earlier := Children(recipes, recipesByOutput, machines, recipe, requiredCrafts, visiting, n - 1);
      var (inputId, inputCount) := recipe.inputs[n - 1];
      if inputId in visiting then earlier
      else
        InputInUniverse(recipes, recipe, n - 1);
        MarkingShrinks(Universe(recipes), visiting, inputId);
        earlier + [Plan(recipes, recipesByOutput, machines, inputId, SubAmount(inputCount, requiredCrafts), visiting)]
  }

  // ---------------------------------------------------------------------
  // The imperative resolver, proved to build that tree
  // ---------------------------------------------------------------------

  /**
   * `resolve`: marks the item, selects its recipe, builds the node and
   * unmarks the item again.
   */
  method Resolve(
    recipes: map<string, Recipe>, recipesByOutput: map<string, seq<string>>, machines: map<string, Machine>,
    itemId: string, amount: nat, visiting: set<string>)
    returns (node: ProductionNode, visitingAfter: set<string>)
    requires OutputsPositive(recipes, recipesByOutput)
    ensures node == Plan(recipes, recipesByOutput, machines, itemId, amount, visiting)
    ensures visitingAfter == visiting - {itemId}
    decreases |Universe(recipes) - (visiting + {itemId})|, 2
  {
    var marked := visiting + {itemId};
    var selected := SelectBestRecipe(itemId, recipes, recipesByOutput, machines, marked);
    match selected {
      case Some(recipe) =>
        SelectedIsCatalogued(itemId, recipes, recipesByOutput, machines, marked);
        node, marked := BuildResolvedNode(recipes, recipesByOutput, machines, recipe, itemId, amount, marked);
      case None =>
        node := Unresolved(itemId, amount);
    }
    visitingAfter := marked - {itemId};
  }

  /** `build_resolved_node`: resolves each unmarked input in turn; the marked set is back as it was. */
  method BuildResolvedNode(
    recipes: map<string, Recipe>, recipesByOutput: map<string, seq<string>>, machines: map<string, Machine>,
    recipe: Recipe, itemId: string, amount: nat, visiting: set<string>)
    returns (node: ProductionNode, visitingAfter: set<string>)
    requires OutputsPositive(recipes, recipesByOutput) && recipe in recipes.Values
    requires OutputPerCraft(recipe, itemId) >= 1
    ensures node == BuildNode(recipes, recipesByOutput, machines, recipe, itemId, amount, visiting)
    ensures visitingAfter == visiting
    decreases |Universe(recipes) - visiting|, 1
  {
    var machine := MachineFor(machines, recipe);
    var machineId := if machine.Some? then machine.value.id else ManualMachine;
    var calculation := Calculate(recipe, machine, amount, itemId);
    var children: seq<ProductionNode> := [];
    visitingAfter := visiting;
    var i := 0;
    while i < |recipe.inputs|
      invariant 0 <= i <= |recipe.inputs|
      invariant visitingAfter == visiting
      invariant children == Children(recipes, recipesByOutput, machines, recipe, calculation.requiredCrafts, visiting, i)
    {
      var (inputId, inputCount) := recipe.inputs[i];
      if inputId !in visitingAfter {
        var subAmount := SubAmount(inputCount, calculation.requiredCrafts);
        InputInUniverse(recipes, recipe, i);
        MarkingShrinks(Universe(recipes), visitingAfter, inputId);
        var child;
        child, visitingAfter := Resolve(recipes, recipesByOutput, machines, inputId, subAmount, visitingAfter);
        children := children + [child];
      }
      i := i + 1;
    }
    node := Resolved(itemId, machineId, amount, calculation.machineCount, calculation.powerUsage, calculation.load, children, recipe.isSource);
  }

  /** `plan_production`: the entry point, which only delegates to `resolve`. */
  method PlanProduction(
    recipes: map<string, Recipe>, recipesByOutput: map<string, seq<string>>, machines: map<string, Machine>,
    itemId: string, amount: nat, visiting: set<string>)
    returns (node: ProductionNode, visitingAfter: set<string>)
    requires OutputsPositive(recipes, recipesByOutput)
    ensures node == Plan(recipes, recipesByOutput, machines, itemId, amount, visiting)
    ensures itemId !in visiting ==> visitingAfter == visiting
  {
    node, visitingAfter := Resolve(recipes, recipesByOutput, machines, itemId, amount, visiting);
  }

  // ---------------------------------------------------------------------
  // Properties of the tree
  // ---------------------------------------------------------------------

  /** The root of a plan is always the requested item and amount, resolved or not. */
  lemma PlanRoot(
    recipes: map<string, Recipe>, recipesByOutput: map<string, seq<string>>, machines: map<string, Machine>,
    itemId: string, amount: nat, visiting: set<string>)
    requires OutputsPositive(recipes, recipesByOutput)
    ensures var n := Plan(recipes, recipesByOutput, machines, itemId, amount, visiting);
            n.itemId == itemId && n.amount == amount
  {
  }

  /**
   * An item stays unresolved exactly when the catalogue has no recipe for
   * it: cyclic candidates are never filtered out, whatever is being visited.
   */
  lemma UnresolvedIffNoRecipe(
    recipes: map<string, Recipe>, recipesByOutput: map<string, seq<string>>, machines: map<string, Machine>,
    itemId: string, amount: nat, visiting: set<string>)
    requires OutputsPositive(recipes, recipesByOutput)
    ensures var n := Plan(recipes, recipesByOutput, machines, itemId, amount, visiting);
            n.Unresolved? <==> itemId !in recipesByOutput || forall k :: k in recipesByOutput[itemId] ==> k !in recipes
    ensures var n := Plan(recipes, recipesByOutput, machines, itemId, amount, visiting);
            n.Unresolved? ==> n == Unresolved(itemId, amount)
  {
  }

  /**
   * A resolved node is built from the recipe selected with the item itself
   * marked: its machine (or "manual"), the calculation for the requested
   * amount, and the recipe's source flag.
   */
  lemma ResolvedFields(
    recipes: map<string, Recipe>, recipesByOutput: map<string, seq<string>>, machines: map<string, Machine>,
    itemId: string, amount: nat, visiting: set<string>)
    requires OutputsPositive(recipes, recipesByOutput)
    ensures var n := Plan(recipes, recipesByOutput, machines, itemId, amount, visiting);
            var selected := SelectBestRecipe(itemId, recipes, recipesByOutput, machines, visiting + {itemId});
            n.Resolved? <==> selected.Some?
    ensures var n := Plan(recipes, recipesByOutput, machines, itemId, amount, visiting);
            var selected := SelectBestRecipe(itemId, recipes, recipesByOutput, machines, visiting + {itemId});
            n.Resolved? ==>
              var recipe := selected.value;
              var calculation := Calculate(recipe, MachineFor(machines, recipe), amount, itemId);
              && (recipe.producedBy in machines ==> n.machineId == machines[recipe.producedBy].id)
              && (recipe.producedBy !in machines ==> n.machineId == ManualMachine)
              && n.machineCount == calculation.machineCount
              && n.load == calculation.load
              && n.powerUsage == calculation.powerUsage
              && n.isSource == recipe.isSource
  {
    var selected := SelectBestRecipe(itemId, recipes, recipesByOutput, machines, visiting + {itemId});
    if selected.Some? {
      SelectedIsCatalogued(itemId, recipes, recipesByOutput, machines, visiting + {itemId});
    }
  }

  /** The (item, amount) pairs the children of a node must carry: one per unmarked input, in input order. */
  function Wanted(inputs: seq<(string, nat)>, visiting: set<string>, requiredCrafts: real): seq<(string, nat)>
    requires requiredCrafts >= 0.0
  {
    if |inputs| == 0 then []
    else
      var (inputId, inputCount) := inputs[|inputs| - 1];
      Wanted(inputs[..|inputs| - 1], visiting, requiredCrafts)
        + (if inputId in visiting then [] else [(inputId, SubAmount(inputCount, requiredCrafts))])
  }

  /** The (item, amount) pair of every node of a list. */
  function ItemAmounts(nodes: seq<ProductionNode>): (pairs: seq<(string, nat)>)
    ensures |pairs| == |nodes|
    ensures forall j :: 0 <= j < |nodes| ==> pairs[j] == (nodes[j].itemId, nodes[j].amount)
  {
    if |nodes| == 0 then [] else ItemAmounts(nodes[..|nodes| - 1]) + [(nodes[|nodes| - 1].itemId, nodes[|nodes| - 1].amount)]
  }

  /**
   * The children correspond one to one to the inputs that are not marked,
   * each asking for `ceil(count * required_crafts)` of its input.
   */
  lemma {:induction false} ChildrenMatchUnmarkedInputs(
    recipes: map<string, Recipe>, recipesByOutput: map<string, seq<string>>, machines: map<string, Machine>,
    recipe: Recipe, requiredCrafts: real, visiting: set<string>, n: nat)
    requires OutputsPositive(recipes, recipesByOutput) && recipe in recipes.Values
    requires requiredCrafts >= 0.0 && n <= |recipe.inputs|
    ensures ItemAmounts(Children(recipes, recipesByOutput, machines, recipe, requiredCrafts, visiting, n))
            == Wanted(recipe.inputs[..n], visiting, requiredCrafts)
    decreases n
  {
    if n > 0 {
      ChildrenMatchUnmarkedInputs(recipes, recipesByOutput, machines, recipe, requiredCrafts, visiting, n - 1);
      assert recipe.inputs[..n][..n - 1] == recipe.inputs[..n - 1];
      var (inputId, inputCount) := recipe.inputs[n - 1];
      if inputId !in visiting {
        PlanRoot(recipes, recipesByOutput, machines, inputId, SubAmount(inputCount, requiredCrafts), visiting);
      }
    }
  }

  /** A resolved node's children, as (item, amount) pairs, are the wanted pairs for its recipe. */
  lemma NodeChildrenMatchUnmarkedInputs(
    recipes: map<string, Recipe>, recipesByOutput: map<string, seq<string>>, machines: map<string, Machine>,
    itemId: string, amount: nat, visiting: set<string>)
    requires OutputsPositive(recipes, recipesByOutput)
    ensures var n := Plan(recipes, recipesByOutput, machines, itemId, amount, visiting);
            var selected := SelectBestRecipe(itemId, recipes, recipesByOutput, machines, visiting + {itemId});
            n.Resolved? ==>
              var recipe := selected.value;
              var calculation := Calculate(recipe, MachineFor(machines, recipe), amount, itemId);
              ItemAmounts(n.inputs) == Wanted(recipe.inputs, visiting + {itemId}, calculation.requiredCrafts)
  {
    var marked := visiting + {itemId};
    var selected := SelectBestRecipe(itemId, recipes, recipesByOutput, machines, marked);
    if selected.Some? {
      var recipe := selected.value;
      SelectedIsCatalogued(itemId, recipes, recipesByOutput, machines, marked);
      var calculation := Calculate(recipe, MachineFor(machines, recipe), amount, itemId);
      ChildrenMatchUnmarkedInputs(
        recipes, recipesByOutput, machines, recipe, calculation.requiredCrafts, marked, |recipe.inputs|);
      assert recipe.inputs[..|recipe.inputs|] == recipe.inputs;
    }
  }

  /** No item repeats along any root-to-leaf path, and none is in `seen`. */
  ghost predicate FreshAlongPaths(n: ProductionNode, seen: set<string>)
  {
    && n.itemId !in seen
    && (n.Resolved? ==> forall j :: 0 <= j < |n.inputs| ==> FreshAlongPaths(n.inputs[j], seen + {n.itemId}))
  }

  /** With a recipe selected, the plan is the node built from it, with the item marked. */
  lemma PlanUnfolds(
    recipes: map<string, Recipe>, recipesByOutput: map<string, seq<string>>, machines: map<string, Machine>,
    itemId: string, amount: nat, visiting: set<string>)
    requires OutputsPositive(recipes, recipesByOutput)
    requires SelectBestRecipe(itemId, recipes, recipesByOutput, machines, visiting + {itemId}).Some?
    ensures var recipe := SelectBestRecipe(itemId, recipes, recipesByOutput, machines, visiting + {itemId}).value;
            var calculation := Calculate(recipe, MachineFor(machines, recipe), amount, itemId);
            && recipe in recipes.Values
            && calculation.requiredCrafts >= 0.0
            && Plan(recipes, recipesByOutput, machines, itemId, amount, visiting).Resolved?
            && Plan(recipes, recipesByOutput, machines, itemId, amount, visiting).inputs
               == Children(recipes, recipesByOutput, machines, recipe, calculation.requiredCrafts,
                           visiting + {itemId}, |recipe.inputs|)
  {
    SelectedIsCatalogued(itemId, recipes, recipesByOutput, machines, visiting + {itemId});
  }

  ghost predicate AllFreshAlongPaths(nodes: seq<ProductionNode>, seen: set<string>)
  {
    forall j :: 0 <= j < |nodes| ==> FreshAlongPaths(nodes[j], seen)
  }

  /** Starting from an item that is not being visited, the plan never revisits an item on a path. */
  lemma {:induction false} PlanFreshAlongPaths(
    recipes: map<string, Recipe>, recipesByOutput: map<string, seq<string>>, machines: map<string, Machine>,
    itemId: string, amount: nat, visiting: set<string>)
    requires OutputsPositive(recipes, recipesByOutput)
    requires itemId !in visiting
    ensures FreshAlongPaths(Plan(recipes, recipesByOutput, machines, itemId, amount, visiting), visiting)
    decreases |Universe(recipes) - (visiting + {itemId})|, 2
  {
    var marked := visiting + {itemId};
    var node := Plan(recipes, recipesByOutput, machines, itemId, amount, visiting);
    PlanRoot(recipes, recipesByOutput, machines, itemId, amount, visiting);
    var selected := SelectBestRecipe(itemId, recipes, recipesByOutput, machines, marked);
    if selected.Some? {
      var recipe := selected.value;
      PlanUnfolds(recipes, recipesByOutput, machines, itemId, amount, visiting);
      var calculation := Calculate(recipe, MachineFor(machines, recipe), amount, itemId);
      ChildrenFreshAlongPaths(
        recipes, recipesByOutput, machines, recipe, calculation.requiredCrafts, marked, |recipe.inputs|);
      assert AllFreshAlongPaths(node.inputs, visiting + {node.itemId});
    } else {
      assert node.Unresolved?;
    }
  }

  lemma {:induction false} ChildrenFreshAlongPaths(
    recipes: map<string, Recipe>, recipesByOutput: map<string, seq<string>>, machines: map<string, Machine>,
    recipe: Recipe, requiredCrafts: real, visiting: set<string>, n: nat)
    requires OutputsPositive(recipes, recipesByOutput) && recipe in recipes.Values
    requires requiredCrafts >= 0.0 && n <= |recipe.inputs|
    ensures AllFreshAlongPaths(Children(recipes, recipesByOutput, machines, recipe, requiredCrafts, visiting, n), visiting)
    decreases |Universe(recipes) - visiting|, 0, n
  {
    if n > 0 {
      ChildrenFreshAlongPaths(recipes, recipesByOutput, machines, recipe, requiredCrafts, visiting, n - 1);
      var (inputId, inputCount) := recipe.inputs[n - 1];
      if inputId !in visiting {
        InputInUniverse(recipes, recipe, n - 1);
        MarkingShrinks(Universe(recipes), visiting, inputId);
        var amount := SubAmount(inputCount, requiredCrafts);
        PlanFreshAlongPaths(recipes, recipesByOutput, machines, inputId, amount, visiting);
        var earlier := Children(recipes, recipesByOutput, machines, recipe, requiredCrafts, visiting, n - 1);
        var children := Children(recipes, recipesByOutput, machines, recipe, requiredCrafts, visiting, n);
        assert children == earlier + [Plan(recipes, recipesByOutput, machines, inputId, amount, visiting)];
        forall j | 0 <= j < |children|
          ensures FreshAlongPaths(children[j], visiting)
        {
          if j < |earlier| {
            assert children[j] == earlier[j];
            assert FreshAlongPaths(earlier[j], visiting);
          } else {
            assert children[j] == Plan(recipes, recipesByOutput, machines, inputId, amount, visiting);
          }
        }
      }
    }
  }

  /**
   * Every node of a planned tree has its load in [0, 1], so the plan's
   * utilization percentage is the rounded product of its loads.
   */
  lemma {:induction false} PlanLoadsInRange(
    recipes: map<string, Recipe>, recipesByOutput: map<string, seq<string>>, machines: map<string, Machine>,
    itemId: string, amount: nat, visiting: set<string>)
    requires OutputsPositive(recipes, recipesByOutput)
    ensures LoadsInRange(Nodes(Plan(recipes, recipesByOutput, machines, itemId, amount, visiting)))
    decreases |Universe(recipes) - (visiting + {itemId})|, 2
  {
    var node := Plan(recipes, recipesByOutput, machines, itemId, amount, visiting);
    var selected := SelectBestRecipe(itemId, recipes, recipesByOutput, machines, visiting + {itemId});
    ResolvedFields(recipes, recipesByOutput, machines, itemId, amount, visiting);
    if selected.Some? {
      var recipe := selected.value;
      PlanUnfolds(recipes, recipesByOutput, machines, itemId, amount, visiting);
      var calculation := Calculate(recipe, MachineFor(machines, recipe), amount, itemId);
      ChildrenLoadsInRange(
        recipes, recipesByOutput, machines, recipe, calculation.requiredCrafts, visiting + {itemId}, |recipe.inputs|);
      assert 0.0 <= node.load <= 1.0;
      assert Nodes(node) == [node] + NodesOf(node.inputs);
    } else {
      assert Nodes(node) == [node];
    }
  }

  /** The utilization of a planned tree is its product of loads, in [0, 1], as a rounded percentage. */
  lemma PlanUtilization(
    recipes: map<string, Recipe>, recipesByOutput: map<string, seq<string>>, machines: map<string, Machine>,
    itemId: string, amount: nat, visiting: set<string>)
    requires OutputsPositive(recipes, recipesByOutput)
    ensures var n := Plan(recipes, recipesByOutput, machines, itemId, amount, visiting);
            && 0.0 <= TotalUtilization(n) <= 1.0
            && Utilization(n) as real - 0.5 <= 100.0 * TotalUtilization(n) < Utilization(n) as real + 0.5
  {
    PlanLoadsInRange(recipes, recipesByOutput, machines, itemId, amount, visiting);
    TotalUtilizationInUnitInterval(Plan(recipes, recipesByOutput, machines, itemId, amount, visiting));
  }

  lemma {:induction false} ChildrenLoadsInRange(
    recipes: map<string, Recipe>, recipesByOutput: map<string, seq<string>>, machines: map<string, Machine>,
    recipe: Recipe, requiredCrafts: real, visiting: set<string>, n: nat)
    requires OutputsPositive(recipes, recipesByOutput) && recipe in recipes.Values
    requires requiredCrafts >= 0.0 && n <= |recipe.inputs|
    ensures LoadsInRange(NodesOf(Children(recipes, recipesByOutput, machines, recipe, requiredCrafts, visiting, n)))
    decreases |Universe(recipes) - visiting|, 0, n
  {
    if n > 0 {
      ChildrenLoadsInRange(recipes, recipesByOutput, machines, recipe, requiredCrafts, visiting, n - 1);
      var (inputId, inputCount) := recipe.inputs[n - 1];
      if inputId !in visiting {
        InputInUniverse(recipes, recipe, n - 1);
        MarkingShrinks(Universe(recipes), visiting, inputId);
        var child := Plan(recipes, recipesByOutput, machines, inputId, SubAmount(inputCount, requiredCrafts), visiting);
        PlanLoadsInRange(recipes, recipesByOutput, machines, inputId, SubAmount(inputCount, requiredCrafts), visiting);
        var earlier := Children(recipes, recipesByOutput, machines, recipe, requiredCrafts, visiting, n - 1);
        var children := earlier + [child];
        assert children[..|children| - 1] == earlier;
        assert NodesOf(children) == NodesOf(earlier) + Nodes(child);
      }
    }
  }

  /** A recipe whose inputs are all being visited gets no children: the cycle is cut there. */
  lemma {:induction false} VisitedInputsGiveNoChildren(
    recipes: map<string, Recipe>, recipesByOutput: map<string, seq<string>>, machines: map<string, Machine>,
    recipe: Recipe, requiredCrafts: real, visiting: set<string>, n: nat)
    requires OutputsPositive(recipes, recipesByOutput) && recipe in recipes.Values
    requires requiredCrafts >= 0.0 && n <= |recipe.inputs|
    requires forall i :: 0 <= i < n ==> recipe.inputs[i].0 in visiting
    ensures Children(recipes, recipesByOutput, machines, recipe, requiredCrafts, visiting, n) == []
  {
    if n > 0 {
      VisitedInputsGiveNoChildren(recipes, recipesByOutput, machines, recipe, requiredCrafts, visiting, n - 1);
    }
  }

  /** A recipe with one unmarked input gets exactly one child: the plan for that input. */
  lemma ChildOfSingleInput(
    recipes: map<string, Recipe>, recipesByOutput: map<string, seq<string>>, machines: map<string, Machine>,
    recipe: Recipe, requiredCrafts: real, visiting: set<string>)
    requires OutputsPositive(recipes, recipesByOutput) && recipe in recipes.Values
    requires requiredCrafts >= 0.0 && |recipe.inputs| == 1 && recipe.inputs[0].0 !in visiting
    ensures Children(recipes, recipesByOutput, machines, recipe, requiredCrafts, visiting, 1)
            == [Plan(recipes, recipesByOutput, machines, recipe.inputs[0].0,
                     SubAmount(recipe.inputs[0].1, requiredCrafts), visiting)]
  {
  }

  // A catalogue of two recipes that need each other.

  function CycleA(): Recipe { Recipe("a", "m", 0, None, [("b", 1)], map["a" := 1], false) }

  function CycleB(): Recipe { Recipe("b", "m", 0, None, [("a", 1)], map["b" := 1], false) }

  function CycleRecipes(): map<string, Recipe> { map["a@m[b:1]" := CycleA(), "b@m[a:1]" := CycleB()] }

  function CycleIndex(): map<string, seq<string>> { map["a" := ["a@m[b:1]"], "b" := ["b@m[a:1]"]] }

  /** Both recipes of the cycle are catalogued, and each yields one item per craft. */
  lemma CycleCatalogue()
    ensures OutputsPositive(CycleRecipes(), CycleIndex())
    ensures CycleA() in CycleRecipes().Values && CycleB() in CycleRecipes().Values
  {
    assert CycleRecipes()["a@m[b:1]"] == CycleA() && CycleRecipes()["b@m[a:1]"] == CycleB();
  }

  /** Each item of the cycle has its recipe chosen, cyclic or not. */
  lemma CycleSelections()
    ensures SelectBestRecipe("a", CycleRecipes(), CycleIndex(), map[], {"a"}) == Some(CycleA())
    ensures SelectBestRecipe("b", CycleRecipes(), CycleIndex(), map[], {"a"} + {"b"}) == Some(CycleB())
  {
    assert CycleRecipes()["a@m[b:1]"] == CycleA() && CycleRecipes()["b@m[a:1]"] == CycleB();
  }

  /** Under `a`, the node for `b` is resolved and has no children: its input `a` is being visited. */
  lemma CycleInnerNode(amount: nat)
    ensures var n := Plan(CycleRecipes(), CycleIndex(), map[], "b", amount, {"a"});
            n.Resolved? && n.itemId == "b" && n.inputs == []
  {
    CycleSelections();
    CycleCatalogue();
    PlanUnfolds(CycleRecipes(), CycleIndex(), map[], "b", amount, {"a"});
    PlanRoot(CycleRecipes(), CycleIndex(), map[], "b", amount, {"a"});
    var crafts := Calculate(CycleB(), MachineFor(map[], CycleB()), amount, "b").requiredCrafts;
    VisitedInputsGiveNoChildren(CycleRecipes(), CycleIndex(), map[], CycleB(), crafts, {"a"} + {"b"}, 1);
  }

  /**
   * Planning `a` resolves `b` under it, and `b`'s input `a` is skipped
   * rather than expanded again.
   */
  lemma CycleIsCut()
    ensures var n := Plan(CycleRecipes(), CycleIndex(), map[], "a", 1, {});
            && n.Resolved? && n.machineId == ManualMachine && |n.inputs| == 1
            && n.inputs[0].Resolved? && n.inputs[0].itemId == "b" && n.inputs[0].inputs == []
  {
    var recipes, index := CycleRecipes(), CycleIndex();
    CycleSelections();
    CycleCatalogue();
    var none: set<string> := {};
    assert none + {"a"} == {"a"};
    PlanUnfolds(recipes, index, map[], "a", 1, {});
    var crafts := Calculate(CycleA(), MachineFor(map[], CycleA()), 1, "a").requiredCrafts;
    ChildOfSingleInput(recipes, index, map[], CycleA(), crafts, {"a"});
    CycleInnerNode(SubAmount(1, crafts));
  }
}
