# Endfield production planner: a verified model of the planning core

The planner answers the question "what does it take to make N of this item
per minute?". From a catalogue of recipes and machines it picks one recipe
per item. It works out how many machines that recipe needs, how busy they
are and how much power they draw. It expands the recipe's inputs into a
tree, recursively, and adds the tree up: total power, machines per kind,
raw materials per item, and an overall utilization figure. Around this
engine sit the catalogue loader, which normalises and indexes the recipe
records, and a small locale layer for display names.

This project models that core in Dafny and proves what it promises:

- `strings.dfy`: Rust's byte-wise string order, decimal formatting, `join` and ASCII lower-casing.
- `recipe.dfy`: the recipe record, `normalize`, and the recipe's unique key.
- `calculator.dfy`: machine count, load and power for one recipe.
- `selector.dfy`: the five-key comparator and `max_by`.
- `production.dfy`: the production tree and its aggregations.
- `resolver.dfy`: the depth-first resolver with its `visiting` set.
- `loader.dfy`: catalogue indexing.
- `i18n.dfy` and `localization.dfy`: locale codes and text lookup.

Modelling choices:

- Integers the source keeps in `u32` are unbounded `nat`s. The one place
  where the source saturates on purpose, power usage, is modelled
  explicitly at `2^32 - 1`.
- The source's `f64` quantities (`required_crafts`, `load`) are exact
  rationals (`real`).
- A recipe's `inputs` hash map is a sequence of (item, count) pairs. That
  its items are distinct is assumed, not enforced: only
  `Recipes.UniqueIdIgnoresInputOrder` requires it (`DistinctKeys`), and the
  resolver accepts a sequence with a repeated item. One such sequence
  stands for one iteration order of the map. Two sequences that hold the
  same pairs stand for the same map.
- The resolver's `&mut HashSet` is passed in and handed back. The tree the
  methods build is stated as the function `Resolver.Plan`.

Where the code and its own comments disagree, the model follows the code:

- The selector's doc comment (core/src/planner/recipe_selector.rs:15-18)
  lists three rules. The comparator applies five: acyclic first, then
  source recipes, then higher tier, then lower power, then id.
- The final id comparison is ascending under `max_by`, so it would pick the
  larger id, not the alphabetically first. For item ids without `@` it never
  decides anything. Every candidate for an item then carries that item's
  id, since the loader files recipes under their own `id`
  (`Loader.ListedRecipesMakeTheItem`). True ties therefore go to the last
  candidate in list order (`Selector.SelectTiesGoToLastListed`). An id with
  an `@` can make two records for different items share a key, and then
  the id comparison can decide.
- `get_reading`'s comment says it falls back to the localized name. The
  code falls back to the item id (`I18n.ReadingFallsBackToId`).
- `build_resolved_node` (core/src/planner/dependency_resolver.rs:99-107)
  constructs `Resolved` without the `is_source` field that the node type
  declares (core/src/models/production.rs:14). The model sets it from the
  selected recipe's `is_source`.
- `total_power_exclude_source` reads only the root's `is_source` flag.
  Source nodes further down are still counted, whereas
  `total_machines_exclude_source` skips source nodes at every depth.

## Model

| member | source | states |
|---|---|---|
| Strings.LexLessTransitive | core/src/models/recipe.rs:51-52 | the byte-wise string order used to sort input keys is transitive |
| Strings.LexLessTotal | core/src/models/recipe.rs:51-52 | any two distinct keys are ordered one way or the other, so sorting by key is well defined |
| Strings.NatToDecimal | core/src/models/recipe.rs:56 | the decimal text of a count is non-empty, all digits, without leading zeros |
| Strings.DecimalRoundTrip | core/src/models/recipe.rs:56 | reading back the decimal text of a count gives the count |
| Recipes.Normalize | core/src/models/recipe.rs:40-48 | the `out` shorthand lands under the recipe's id; a `"this"` entry moves to the recipe's id, is removed, and overrides the shorthand; every other output key and every other field is unchanged; with neither, outputs are untouched; no `"this"` key remains unless `"this"` is the recipe's own id |
| Recipes.NormalizeShorthandExample | core/src/models/recipe.rs:69-85 | `carbon` with `out = 2` ends with outputs exactly `{carbon: 2}` |
| Recipes.NormalizeSelfReferenceExample | core/src/models/recipe.rs:88-107 | `{"this": 1}` on `origocrust` becomes exactly `{origocrust: 1}` |
| Recipes.SortByKey | core/src/models/recipe.rs:51-52 | sorting the inputs keeps exactly the same (item, count) pairs |
| Recipes.SortIsStrict | core/src/models/recipe.rs:51-52 | with distinct input items, the sorted inputs are strictly increasing by item |
| Recipes.StrictlySortedUnique | core/src/models/recipe.rs:51-52 | two strictly sorted lists of the same pairs are equal, so the sorted order is unique |
| Recipes.UniqueId | core/src/models/recipe.rs:50-61 | the key starts with the recipe's id followed by `@`; empty inputs give `id@by[]` |
| Recipes.UniqueIdIgnoresInputOrder | core/src/models/recipe.rs:50-61 | recipes with the same id, machine and input pairs get the same key, whatever the inputs' order and whatever their time, outputs or source flag |
| Recipes.UniqueIdDeterminesItem | core/src/models/recipe.rs:60 | when ids contain no `@`, equal keys imply the same item id |
| Recipes.NormalizeKeepsUniqueId | core/src/models/recipe.rs:40-61 | normalising a recipe does not change its key |
| Recipes.UniqueIdExample | core/src/models/recipe.rs:110-148 | both insertion orders of `origocrust:5` and `amethyst_fiber:5` give `amethyst_component@gearing_unit[amethyst_fiber:5,origocrust:5]` |
| Calculator.Ceil | core/src/planner/calculator.rs:38 | the machine count is the least integer not below the required machine time |
| Calculator.RequiredMachineTime | core/src/planner/calculator.rs:33-37 | the machine time `time * crafts / 60` is non-negative, and zero exactly when the time or the target is zero |
| Calculator.Calculate | core/src/planner/calculator.rs:26-54 | `required_crafts * output_per_craft == target`; the count is the machine time rounded up, and 0 exactly when time or target is 0, with load 1 then; otherwise `0 < load <= 1` and `load * count` is the machine time; power is `power * count` saturated at `u32::MAX`, and 0 without a machine |
| Calculator.CalculateExample | core/src/planner/calculator.rs:26-54 | a 2-second recipe for 31 items per minute on a 5-power machine needs 2 machines at load 31/60 drawing 10 |
| Selector.HasCyclicInputs | core/src/planner/recipe_selector.rs:6-11 | cyclic when some input is in the visiting set (`any`); a recipe without inputs, or an empty visiting set, is never cyclic |
| Selector.Compare | core/src/planner/recipe_selector.rs:32-51 | the comparator answers Equal exactly when the two recipes agree on cyclic status, source flag, tier, power and id |
| Selector.CompareFirstDifference | core/src/planner/recipe_selector.rs:45-50 | the first key on which two recipes differ decides: acyclic beats cyclic, source beats non-source, the higher tier wins, then the lower power; with those four tied, the larger id in byte order compares Greater |
| Selector.CompareReverse | core/src/planner/recipe_selector.rs:32-51 | swapping the two recipes reverses the comparator's answer |
| Selector.CompareTransitive | core/src/planner/recipe_selector.rs:32-51 | the comparator is a total preorder: not-less chains compose, and a strict step stays strict |
| Selector.Candidates | core/src/planner/recipe_selector.rs:29-31 | the candidates are exactly the recipes stored under the listed ids; none exactly when no listed id is stored |
| Selector.CandidatesAppend | core/src/planner/recipe_selector.rs:29-31 | `filter_map` over a concatenation is the concatenation of the filtered parts, so list order is kept |
| Selector.CandidatePosition | core/src/planner/recipe_selector.rs:29-31 | a stored id's recipe is the candidate right after those of the ids listed before it |
| Selector.MaxByIndex | core/src/planner/recipe_selector.rs:32-51 | `max_by` picks a candidate no other candidate beats, and every later candidate is strictly worse, so the last of equal maxima wins |
| Selector.SelectBestRecipe | core/src/planner/recipe_selector.rs:21-53 | `None` exactly when the item has no list or none of its ids is stored; otherwise a stored recipe listed for the item that no listed recipe beats |
| Selector.SelectPrefersAcyclic | core/src/planner/recipe_selector.rs:45-46 | if some candidate has no input being resolved, the chosen one has none either |
| Selector.SelectPrefersSource | core/src/planner/recipe_selector.rs:47 | with equal cyclic status, a source candidate forces a source choice |
| Selector.SelectPrefersHigherTier | core/src/planner/recipe_selector.rs:36-48 | with equal cyclic status and source flag, the chosen machine tier is at least any candidate's; a missing machine is tier 0 |
| Selector.SelectPrefersLowerPower | core/src/planner/recipe_selector.rs:39-49 | with equal cyclic status, flag and tier, the chosen machine power is at most any candidate's; a missing machine draws 0 |
| Selector.TiesGoToLastCandidate | core/src/planner/recipe_selector.rs:32-51 | among candidates for one item, any candidate tied with the chosen one on the first four keys comes no later in the list |
| Selector.SelectTiesGoToLastListed | core/src/planner/recipe_selector.rs:28-52 | when every listed recipe makes the item, the chosen recipe sits among the candidates at or after the position of any listed recipe tied with it on the first four keys |
| Production.IsLeaf | core/src/models/production.rs:23-28 | a node is a leaf exactly when it is resolved and is its tree's only node |
| Production.TotalPower | core/src/models/production.rs:52-61 | an unresolved node draws 0; a resolved one at least its own `power_usage` |
| Production.TotalPowerIsSumOverNodes | core/src/models/production.rs:52-61 | `total_power` is the sum of `power_usage` over every resolved node; unresolved nodes add nothing |
| Production.TotalPowerExcludeSource | core/src/models/production.rs:63-75 | 0 when the root is unresolved or a source; otherwise the power of every resolved node, source descendants included |
| Production.TotalUtilization | core/src/models/production.rs:36-50 | an unresolved node gives 0 and a leaf its own load |
| Production.UnresolvedForcesZeroUtilization | core/src/models/production.rs:36-50 | any unresolved node in the tree makes the multiplicative utilization 0 |
| Production.TotalUtilizationInUnitInterval | core/src/models/production.rs:36-50 | with every load in [0, 1], the product of loads stays in [0, 1] |
| Production.Round | core/src/models/production.rs:33 | `round` gives the nearest integer, halves away from zero |
| Production.Utilization | core/src/models/production.rs:30-34 | the percentage is at most 100 and is 0 when an unresolved node is reachable; it is `100 * total_utilization` rounded when that lies in [0, 100.5), which holds whenever all loads are in [0, 1]; it is clamped to 100 above and to 0 below |
| Production.CollectTotalsRecursive | core/src/models/production.rs:126-139 | the new totals are the old ones with the value of each node of the subtree added in pre-order, the node first and then each child's subtree in turn (`Added` over `Nodes`) |
| Production.AddedAppend | core/src/models/production.rs:134-137 | adding one list of nodes and then another is adding their concatenation, so walking the children one after the other adds the whole pre-order |
| Production.AddedAccumulates | core/src/models/production.rs:130-131 | after adding a list of nodes, each key's total is its old total plus what those nodes yield under it, and the keys are the old keys plus those some node yields |
| Production.CollectTotals | core/src/models/production.rs:117-124 | a key is present exactly when some node yields it, and its total is the sum over all nodes |
| Production.TotalSourceMaterials | core/src/models/production.rs:77-90 | keys are exactly the items of resolved leaves and unresolved nodes; totals sum their amounts; internal nodes do not count |
| Production.TotalMachines | core/src/models/production.rs:92-101 | keys are exactly the non-empty machine ids of resolved nodes; totals sum their machine counts |
| Production.TotalMachinesExcludeSource | core/src/models/production.rs:103-115 | as `total_machines`, but no source node at any depth contributes |
| Resolver.SubAmount | core/src/planner/dependency_resolver.rs:86 | a child asks for `input_count * required_crafts` rounded up |
| Resolver.Resolve | core/src/planner/dependency_resolver.rs:21-58 | builds exactly the tree `Plan`, and on return the visiting set is the entry set without the item, so it is unchanged when the item was not in it |
| Resolver.BuildResolvedNode | core/src/planner/dependency_resolver.rs:61-108 | builds exactly the node `BuildNode`, and the visiting set is back as it was after every child |
| Resolver.PlanProduction | core/src/planner/mod.rs:16-32 | the entry point builds the same tree as `resolve` and leaves a visiting set without the item unchanged |
| Resolver.PlanRoot | core/src/planner/dependency_resolver.rs:21-107 | the root of a plan carries the requested item and amount |
| Resolver.UnresolvedIffNoRecipe | core/src/planner/dependency_resolver.rs:32-51 | the result is `Unresolved{item, amount}` exactly when the catalogue has no stored recipe listed for the item, whatever is being visited |
| Resolver.ResolvedFields | core/src/planner/dependency_resolver.rs:30-107 | a resolved node uses the recipe selected with the item marked: its machine's id or `"manual"`, the count, load and power of `calculate` for the requested amount, and the recipe's source flag |
| Resolver.ChildrenMatchUnmarkedInputs | core/src/planner/dependency_resolver.rs:77-97 | the children are one per input not being visited, in input order, each for that input with amount `ceil(count * required_crafts)` |
| Resolver.NodeChildrenMatchUnmarkedInputs | core/src/planner/dependency_resolver.rs:77-97 | a resolved node's children match the selected recipe's inputs that are not in `visiting ∪ {item}` |
| Resolver.PlanFreshAlongPaths | core/src/planner/dependency_resolver.rs:30-84 | from an item not being visited, no item repeats along any root-to-leaf path and none is in the initial visiting set |
| Resolver.PlanLoadsInRange | core/src/planner/dependency_resolver.rs:75-107 | every node of a planned tree carries the load of `calculate`, which lies in [0, 1] |
| Resolver.PlanUtilization | core/src/models/production.rs:30-50 | for every planned tree the utilization product lies in [0, 1] and the percentage is exactly its rounded value |
| Resolver.VisitedInputsGiveNoChildren | core/src/planner/dependency_resolver.rs:80-84 | a recipe whose inputs are all being visited gets no children |
| Resolver.CycleIsCut | core/src/planner/dependency_resolver.rs:82-84 | with `a` needing `b` and `b` needing `a`, planning `a` gives `a` over a childless `b` |
| Loader.New | core/src/config/loader.rs:23-57 | a recipe parse error is reported first as `recipes.toml: …`, then a machine parse error as `machines.toml: …`; otherwise the tables are the indexes of the normalised records |
| Loader.IndexRecipeRecords | core/src/config/loader.rs:29-44 | the loop builds exactly the recipe table and the per-item lists of the normalised records |
| Loader.IndexMachineRecords | core/src/config/loader.rs:46-50 | the machine table is built keyed by each record's own id |
| Loader.StoredUnderUniqueId | core/src/config/loader.rs:32-43 | every stored recipe is one of the normalised records, stored under its own key |
| Loader.LastRecordWins | core/src/config/loader.rs:43 | when records share a key, the table keeps the later one |
| Loader.ListsFollowRecords | core/src/config/loader.rs:36-41 | an item's list holds the key of every record making it, in record order, duplicates included |
| Loader.KeysAreRecordItems | core/src/config/loader.rs:36-41 | an item has a list only when some record makes it, and that list is non-empty |
| Loader.RecordItemsAreKeys | core/src/config/loader.rs:36-41 | every record's item has a list |
| Loader.ListedIdsAreStored | core/src/config/loader.rs:38-43 | every key listed under an item is in the recipe table |
| Loader.ListedRecipesMakeTheItem | core/src/config/loader.rs:36-43 | when item ids contain no `@`, every recipe listed under an item has that item as its id |
| Loader.MachineTableKeepsLast | core/src/config/loader.rs:46-50 | a machine id maps to the last record with that id |
| Loader.MachineTableKeys | core/src/config/loader.rs:46-50 | every key of the machine table is the id of a machine record, and maps to a record with that id |
| I18n.Locale.Code | core/src/i18n/loader.rs:16-21 | a locale's code has two letters and is already lower case |
| I18n.CodeRoundTrip | core/src/i18n/loader.rs:16-30 | reading a locale's code gives the locale back |
| I18n.CodeInjective | core/src/i18n/loader.rs:16-21 | distinct locales have distinct codes |
| I18n.FromCodeIgnoresCase | core/src/i18n/loader.rs:25 | codes that differ only in ASCII letter case name the same locale |
| I18n.FromCode | core/src/i18n/loader.rs:24-30 | `en`/`english` give English, `ja`/`jp`/`japanese` give Japanese, after lower-casing; anything else gives none |
| I18n.FromCodeUpperCase | core/src/i18n/loader.rs:25-27 | `EN` gives English and `JP` gives Japanese |
| I18n.FromCodeUnknown | core/src/i18n/loader.rs:28 | `fr` and the empty code give no locale |
| I18n.Lookup | core/src/i18n/loader.rs:87-117 | a lookup gives the table's entry when there is one, and the key itself otherwise |
| I18n.Empty | core/src/i18n/loader.rs:76-83 | every getter of the empty localizer returns its argument |
| I18n.GetItem | core/src/i18n/loader.rs:87-92 | the item's translated name when there is one, and the item id otherwise |
| I18n.GetReading | core/src/i18n/loader.rs:97-102 | the item's reading when there is one, and the item id otherwise |
| I18n.GetMachine | core/src/i18n/loader.rs:106-111 | the machine's translated name when there is one, and the machine id otherwise |
| I18n.GetUi | core/src/i18n/loader.rs:115-117 | the UI string when there is one, and the key otherwise |
| I18n.GettersReadOwnTable | core/src/i18n/loader.rs:87-117 | each getter depends on its own table only |
| I18n.ReadingFallsBackToId | core/src/i18n/loader.rs:94-102 | without a reading, an item's reading is its id even when it has a translated name |
| Localization.GetLocalizedName | web/src/utils/localization.rs:6-16 | a machine id gets its machine name and any other id its item name, each falling back to the id itself |
| Localization.TableChosenByMachineIds | web/src/utils/localization.rs:6-16 | a machine id is looked up only among machines, even if the items table has it; any other id only among items |
| Localization.EmptyLocalizerGivesId | web/src/utils/localization.rs:6-16 | with the empty localizer the name is the id |
| Localization.MachineNameWins | web/src/utils/localization.rs:11-12 | an id that is both a machine and an item gets its machine name |

## Left out

- TOML parsing (`toml::from_str`) is a foreign library. `Loader.New` starts
  from each file's parse result: either the records or the error text. The
  locale file's parse, `Localizer::new`, is not modelled for the same reason.
- Rounding artefacts of `f64` are not modelled. `required_crafts`, `load`
  and the utilization product are exact rationals.
- Calculator.Calculate: requires `output_per_craft >= 1`. An explicit 0 in
  `outputs` makes the source divide by zero in `f64`.
- Resolver.Resolve: requires every stored recipe listed for an item to
  yield at least one of that item per craft (`OutputsPositive`), so that
  each `calculate` call meets that precondition. By-products may be 0.
- Calculator.Calculate: the count is not saturated. The source's
  `as u32` casts of the machine count would saturate at `u32::MAX`.
- Resolver.SubAmount: the child amount is not saturated, for the same
  reason.
- Production.TotalPowerIsSumOverNodes: sums are unbounded, so the overflow
  of the source's `u32` sums in `total_power` and `collect_totals` is not
  modelled.
- Loader.ListedRecipesMakeTheItem: needs item ids without `@`. With an `@`
  in an id, two recipes for different items can share a key, and the later
  one replaces the other in the recipe table.
- Loader.ListsFollowRecords: does not state that the list lengths add up to
  the number of records. That follows from each record adding exactly one
  entry, but it is not proved.
- Recipes.Normalize: a function that returns the updated record. The source
  updates the record in place, inside the loader's loop, and nothing else
  observes the change.
- Resolver.ChildrenMatchUnmarkedInputs: children follow the input
  sequence's order, which stands for the unspecified iteration order of the
  source's hash map.
- The web front end's components (`app.rs`, `tree_view.rs`, `main.rs`) are
  reactive UI code. The URL helpers (`url.rs`) call the browser's History
  API.
- Tree printing (`core/src/output/display.rs`) only prints.
- The command-line entry points only read files and print.
- The legacy root crate under `src/` does not agree with itself and is not
  part of this model.
