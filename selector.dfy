/**
 * Recipe selection (core/src/planner/recipe_selector.rs): among the recipes
 * listed for an item, `Iterator::max_by` under a five-key comparator picks
 * one.
 */
module Selector {
  import opened Wrappers
  import opened Strings
  import opened Recipes

  /** `std::cmp::Ordering`. */
  datatype Ordering = Less | Equal | Greater {
    function Reverse(): Ordering
    {
      match this
      case Less => Greater
      case Equal => Equal
      case Greater => Less
    }

    /** `Ordering::then_with`: the first non-equal comparison decides. */
    function Then(next: Ordering): Ordering
    {
      if this == Equal then next else this
    }
  }

  /** `bool::cmp`: `false < true`. */
  function CompareBool(a: bool, b: bool): Ordering
  {
    if a == b then Equal else if b then Less else Greater
  }

  function CompareNat(a: nat, b: nat): Ordering
  {
    if a < b then Less else if a == b then Equal else Greater
  }

  function CompareString(a: string, b: string): Ordering
  {
    if a == b then Equal else if LexLess(a, b) then Less else Greater
  }

  /** `has_cyclic_inputs`: some input of the recipe is an item being resolved. */
  predicate HasCyclicInputs(recipe: Recipe, visiting: set<string>): (cyclic: bool)
    ensures |recipe.inputs| == 0 || visiting == {} ==> !cyclic
  {
    exists i :: 0 <= i < |recipe.inputs| && recipe.inputs[i].0 in visiting
  }

  /** Tier of the recipe's machine; 0 when the machine is unknown. */
  function MachineTier(machines: map<string, Machine>, recipe: Recipe): nat
  {
    if recipe.producedBy in machines then machines[recipe.producedBy].tier else 0
  }

  /** Power of the recipe's machine; 0 when the machine is unknown. */
  function MachinePower(machines: map<string, Machine>, recipe: Recipe): nat
  {
    if recipe.producedBy in machines then machines[recipe.producedBy].power else 0
  }

  /**
   * The comparator given to `max_by`, greatest first preferred: acyclic,
   * then source, then higher tier, then lower power, then id.
   */
  function Compare(a: Recipe, b: Recipe, machines: map<string, Machine>, visiting: set<string>): (o: Ordering)
    ensures o == Equal <==> Tied(a, b, machines, visiting) && a.id == b.id
  {
    CompareBool(HasCyclicInputs(b, visiting), HasCyclicInputs(a, visiting))
      .Then(CompareBool(a.isSource, b.isSource))
      .Then(CompareNat(MachineTier(machines, a), MachineTier(machines, b)))
      .Then(CompareNat(MachinePower(machines, b), MachinePower(machines, a)))
      .Then(CompareString(a.id, b.id))
  }

  /**
   * The first key on which two recipes differ decides: acyclic beats
   * cyclic, source beats non-source, the higher tier and then the lower
   * power win; with those four tied, the ids compare in ascending order.
   */
  lemma CompareFirstDifference(a: Recipe, b: Recipe, machines: map<string, Machine>, visiting: set<string>)
    ensures HasCyclicInputs(a, visiting) != HasCyclicInputs(b, visiting) ==>
              Compare(a, b, machines, visiting) == if HasCyclicInputs(a, visiting) then Less else Greater
    ensures HasCyclicInputs(a, visiting) == HasCyclicInputs(b, visiting) && a.isSource != b.isSource ==>
              Compare(a, b, machines, visiting) == if a.isSource then Greater else Less
    ensures && HasCyclicInputs(a, visiting) == HasCyclicInputs(b, visiting) && a.isSource == b.isSource
            && MachineTier(machines, a) != MachineTier(machines, b) ==>
              Compare(a, b, machines, visiting)
              == if MachineTier(machines, a) > MachineTier(machines, b) then Greater else Less
    ensures && HasCyclicInputs(a, visiting) == HasCyclicInputs(b, visiting) && a.isSource == b.isSource
            && MachineTier(machines, a) == MachineTier(machines, b)
            && MachinePower(machines, a) != MachinePower(machines, b) ==>
              Compare(a, b, machines, visiting)
              == if MachinePower(machines, a) < MachinePower(machines, b) then Greater else Less
    ensures Tied(a, b, machines, visiting) && a.id != b.id ==>
              Compare(a, b, machines, visiting) == if LexLess(b.id, a.id) then Greater else Less
  {
    LexLessAsymmetric(a.id, b.id);
    LexLessTotal(a.id, b.id);
  }

  lemma CompareReverse(a: Recipe, b: Recipe, machines: map<string, Machine>, visiting: set<string>)
    ensures Compare(b, a, machines, visiting) == Compare(a, b, machines, visiting).Reverse()
  {
    LexLessAsymmetric(a.id, b.id);
    LexLessTotal(a.id, b.id);
  }

  /** The comparator is a total preorder: "not less than" is transitive. */
  lemma CompareTransitive(a: Recipe, b: Recipe, c: Recipe, machines: map<string, Machine>, visiting: set<string>)
    requires Compare(a, b, machines, visiting) != Less && Compare(b, c, machines, visiting) != Less
    ensures Compare(a, c, machines, visiting) != Less
    ensures Compare(a, b, machines, visiting) == Greater || Compare(b, c, machines, visiting) == Greater ==>
              Compare(a, c, machines, visiting) == Greater
  {
    LexLessTotal(a.id, b.id);
    LexLessTotal(b.id, c.id);
    LexLessTotal(a.id, c.id);
    if LexLess(b.id, a.id) && LexLess(c.id, b.id) {
      LexLessTransitive(c.id, b.id, a.id);
    }
    LexLessAsymmetric(a.id, c.id);
    LexLessIrreflexive(a.id);
  }

  /** `filter_map(|id| recipes.get(id))`: the listed recipes that exist, in list order. */
  function Candidates(ids: seq<string>, recipes: map<string, Recipe>): (cs: seq<Recipe>)
    ensures forall c :: c in cs ==> exists k :: k in ids && k in recipes && recipes[k] == c
    ensures forall k :: k in ids && k in recipes ==> recipes[k] in cs
    ensures |cs| == 0 <==> forall k :: k in ids ==> k !in recipes
  {
    if |ids| == 0 then []
    else (if ids[0] in recipes then [recipes[ids[0]]] else []) + Candidates(ids[1..], recipes)
  }

  /** Filtering a concatenation filters each part, in order. */
  lemma {:induction false} CandidatesAppend(a: seq<string>, b: seq<string>, recipes: map<string, Recipe>)
    ensures Candidates(a + b, recipes) == Candidates(a, recipes) + Candidates(b, recipes)
    decreases |a|
  {
    if |a| == 0 {
      assert a + b == b;
    } else {
      assert (a + b)[0] == a[0] && (a + b)[1..] == a[1..] + b;
      CandidatesAppend(a[1..], b, recipes);
    }
  }

  /** A stored id's recipe sits in the candidates right after those of the ids listed before it. */
  lemma CandidatePosition(ids: seq<string>, recipes: map<string, Recipe>, j: nat)
    requires j < |ids| && ids[j] in recipes
    ensures var p := |Candidates(ids[..j], recipes)|;
            p < |Candidates(ids, recipes)| && Candidates(ids, recipes)[p] == recipes[ids[j]]
  {
    assert ids == ids[..j] + ids[j..];
    CandidatesAppend(ids[..j], ids[j..], recipes);
    assert ids[j..][0] == ids[j];
  }

  /**
   * `max_by`: folds left to right, keeping the running maximum only while
   * it compares Greater, so the last of several equal maxima is returned.
   */
  function MaxByIndex(cs: seq<Recipe>, machines: map<string, Machine>, visiting: set<string>): (m: nat)
    requires |cs| > 0
    ensures m < |cs|
    ensures forall j :: 0 <= j < |cs| ==> Compare(cs[m], cs[j], machines, visiting) != Less
    ensures forall j :: m < j < |cs| ==> Compare(cs[m], cs[j], machines, visiting) == Greater
  {
    if |cs| == 1 then 0
    else
      var n := |cs| - 1;
      var i := MaxByIndex(cs[..n], machines, visiting);
      if Compare(cs[i], cs[n], machines, visiting) == Greater then
        i
      else
        CompareReverse(cs[i], cs[n], machines, visiting);
        forall j | 0 <= j < n
          ensures Compare(cs[n], cs[j], machines, visiting) != Less
        {
          assert cs[..n][j] == cs[j];
          CompareTransitive(cs[n], cs[i], cs[j], machines, visiting);
        }
        n
  }

  /** `select_best_recipe`. */
  function SelectBestRecipe(
    itemId: string,
    recipes: map<string, Recipe>,
    recipesByOutput: map<string, seq<string>>,
    machines: map<string, Machine>,
    visiting: set<string>): (r: Option<Recipe>)
    ensures r.None? <==>
              itemId !in recipesByOutput || forall k :: k in recipesByOutput[itemId] ==> k !in recipes
    ensures r.Some? ==>
              exists k :: k in recipesByOutput[itemId] && k in recipes && recipes[k] == r.value
    ensures r.Some? ==>
              forall k :: k in recipesByOutput[itemId] && k in recipes ==>
                Compare(r.value, recipes[k], machines, visiting) != Less
  {
    if itemId !in recipesByOutput then None
    else
      var cs := Candidates(recipesByOutput[itemId], recipes);
      if |cs| == 0 then None
      else
        var m := MaxByIndex(cs, machines, visiting);
        assert cs[m] in cs;
        Some(cs[m])
  }

  /** Equal cyclic status, source flag, machine tier and machine power. */
  predicate Tied(a: Recipe, b: Recipe, machines: map<string, Machine>, visiting: set<string>)
  {
    && HasCyclicInputs(a, visiting) == HasCyclicInputs(b, visiting)
    && a.isSource == b.isSource
    && MachineTier(machines, a) == MachineTier(machines, b)
    && MachinePower(machines, a) == MachinePower(machines, b)
  }

  /** A recipe with no input being resolved beats every recipe with one. */
  lemma SelectPrefersAcyclic(
    itemId: string, recipes: map<string, Recipe>, recipesByOutput: map<string, seq<string>>,
    machines: map<string, Machine>, visiting: set<string>, k: string)
    requires itemId in recipesByOutput && k in recipesByOutput[itemId] && k in recipes
    requires !HasCyclicInputs(recipes[k], visiting)
    ensures var r := SelectBestRecipe(itemId, recipes, recipesByOutput, machines, visiting);
            r.Some? && !HasCyclicInputs(r.value, visiting)
  {
  }

  /** With equal cyclic status, a source recipe beats a non-source one. */
  lemma SelectPrefersSource(
    itemId: string, recipes: map<string, Recipe>, recipesByOutput: map<string, seq<string>>,
    machines: map<string, Machine>, visiting: set<string>, k: string)
    requires itemId in recipesByOutput && k in recipesByOutput[itemId] && k in recipes
    requires recipes[k].isSource
    ensures var r := SelectBestRecipe(itemId, recipes, recipesByOutput, machines, visiting);
            r.Some? && (HasCyclicInputs(r.value, visiting) == HasCyclicInputs(recipes[k], visiting) ==> r.value.isSource)
  {
  }

  /** With equal cyclic status and source flag, the higher machine tier wins. */
  lemma SelectPrefersHigherTier(
    itemId: string, recipes: map<string, Recipe>, recipesByOutput: map<string, seq<string>>,
    machines: map<string, Machine>, visiting: set<string>, k: string)
    requires itemId in recipesByOutput && k in recipesByOutput[itemId] && k in recipes
    ensures var r := SelectBestRecipe(itemId, recipes, recipesByOutput, machines, visiting);
            r.Some? &&
            (HasCyclicInputs(r.value, visiting) == HasCyclicInputs(recipes[k], visiting) &&
             r.value.isSource == recipes[k].isSource ==>
               MachineTier(machines, r.value) >= MachineTier(machines, recipes[k]))
  {
  }

  /** With equal cyclic status, source flag and tier, the lower machine power wins. */
  lemma SelectPrefersLowerPower(
    itemId: string, recipes: map<string, Recipe>, recipesByOutput: map<string, seq<string>>,
    machines: map<string, Machine>, visiting: set<string>, k: string)
    requires itemId in recipesByOutput && k in recipesByOutput[itemId] && k in recipes
    ensures var r := SelectBestRecipe(itemId, recipes, recipesByOutput, machines, visiting);
            r.Some? &&
            (HasCyclicInputs(r.value, visiting) == HasCyclicInputs(recipes[k], visiting) &&
             r.value.isSource == recipes[k].isSource &&
             MachineTier(machines, r.value) == MachineTier(machines, recipes[k]) ==>
               MachinePower(machines, r.value) <= MachinePower(machines, recipes[k]))
  {
  }

  /**
   * Among candidates that all make the same item, the id comparison is
   * always Equal, so a candidate tied with the chosen one on the other four
   * keys never comes after it: ties go to the last in list order.
   */
  lemma TiesGoToLastCandidate(cs: seq<Recipe>, machines: map<string, Machine>, visiting: set<string>, j: nat)
    requires |cs| > 0 && j < |cs|
    requires forall c :: c in cs ==> c.id == cs[0].id
    requires Tied(cs[j], cs[MaxByIndex(cs, machines, visiting)], machines, visiting)
    ensures j <= MaxByIndex(cs, machines, visiting)
  {
    var m := MaxByIndex(cs, machines, visiting);
    assert cs[m] in cs && cs[j] in cs;
  }

  /**
   * The tie rule in terms of the item's list: when every listed recipe makes
   * the item, the chosen recipe is a candidate at or after the position of
   * any listed recipe tied with it on the first four keys.
   */
  lemma SelectTiesGoToLastListed(
    itemId: string, recipes: map<string, Recipe>, recipesByOutput: map<string, seq<string>>,
    machines: map<string, Machine>, visiting: set<string>, j: nat)
    requires itemId in recipesByOutput && j < |recipesByOutput[itemId]| && recipesByOutput[itemId][j] in recipes
    requires forall k :: k in recipesByOutput[itemId] && k in recipes ==> recipes[k].id == itemId
    requires Tied(recipes[recipesByOutput[itemId][j]],
                  SelectBestRecipe(itemId, recipes, recipesByOutput, machines, visiting).value, machines, visiting)
    ensures var ids := recipesByOutput[itemId];
            var cs := Candidates(ids, recipes);
            exists m :: |Candidates(ids[..j], recipes)| <= m < |cs|
                        && cs[m] == SelectBestRecipe(itemId, recipes, recipesByOutput, machines, visiting).value
  {
    var ids := recipesByOutput[itemId];
    var cs := Candidates(ids, recipes);
    CandidatePosition(ids, recipes, j);
    var m := MaxByIndex(cs, machines, visiting);
    forall c | c in cs
      ensures c.id == cs[0].id
    {
      assert cs[0] in cs;
    }
    TiesGoToLastCandidate(cs, machines, visiting, |Candidates(ids[..j], recipes)|);
  }
}
