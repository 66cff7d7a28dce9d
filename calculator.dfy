/**
 * The quantity calculator (core/src/planner/calculator.rs): machines, load
 * and power needed to make `targetAmount` of an item per planning window.
 * The source computes in f64; here the quantities are exact rationals.
 */
module Calculator {
  import opened Wrappers
  import opened Recipes

  /** Rates are per minute and cycle times in seconds (core/src/constants.rs). */
  const ProductionTimeWindow: real := 60.0

  /** `u32::MAX`, where power usage saturates. */
  const U32Max: nat := 0xFFFF_FFFF

  datatype ProductionCalculation = ProductionCalculation(
    requiredCrafts: real,
    machineCount: nat,
    load: real,
    powerUsage: nat)

  /** Smallest integer not below `x` (`f64::ceil`), for non-negative `x`. */
  function Ceil(x: real): (n: nat)
    requires x >= 0.0
    ensures x <= n as real < x + 1.0
  {
    var f := x.Floor;
    if f as real == x then f else f + 1
  }

  /** How many of `itemId` one craft of `recipe` yields; 1 when not listed. */
  function OutputPerCraft(recipe: Recipe, itemId: string): nat
  {
    if itemId in recipe.outputs then recipe.outputs[itemId] else 1
  }

  /** Continuous machine time needed: `time * crafts / 60`. */
  function RequiredMachineTime(recipe: Recipe, targetAmount: nat, itemId: string): (t: real)
    requires OutputPerCraft(recipe, itemId) >= 1
    ensures t >= 0.0
    ensures t == 0.0 <==> recipe.time == 0 || targetAmount == 0
  {
    var crafts := targetAmount as real / OutputPerCraft(recipe, itemId) as real;
    ProductLemma(recipe.time as real, crafts);
    recipe.time as real * crafts / ProductionTimeWindow
  }

  lemma ProductLemma(a: real, b: real)
    requires a >= 0.0 && b >= 0.0
    ensures a * b >= 0.0
    ensures a * b == 0.0 <==> a == 0.0 || b == 0.0
  {
  }

  /** `calculate`. */
  function Calculate(recipe: Recipe, machine: Option<Machine>, targetAmount: nat, itemId: string)
    : (c: ProductionCalculation)
    requires OutputPerCraft(recipe, itemId) >= 1
    ensures c.requiredCrafts * OutputPerCraft(recipe, itemId) as real == targetAmount as real
    ensures c.requiredCrafts >= 0.0
    // the machine count is the required machine time rounded up
    ensures var t := RequiredMachineTime(recipe, targetAmount, itemId);
            t <= c.machineCount as real < t + 1.0
    ensures c.machineCount == 0 <==> recipe.time == 0 || targetAmount == 0
    ensures c.machineCount == 0 ==> c.load == 1.0
    ensures c.machineCount > 0 ==>
              0.0 < c.load <= 1.0 &&
              c.load * c.machineCount as real == RequiredMachineTime(recipe, targetAmount, itemId)
    // power draw of all machines, saturated at u32::MAX; no machine draws nothing
    ensures c.powerUsage <= U32Max
    ensures machine.None? ==> c.powerUsage == 0
    ensures machine.Some? && machine.value.power * c.machineCount <= U32Max ==>
              c.powerUsage == machine.value.power * c.machineCount
    ensures machine.Some? && machine.value.power * c.machineCount > U32Max ==> c.powerUsage == U32Max
  {
    var power := if machine.Some? then machine.value.power else 0;
    var outputPerCraft := OutputPerCraft(recipe, itemId);
    var requiredCrafts := Crafts(targetAmount, outputPerCraft);
    var requiredMachines := RequiredMachineTime(recipe, targetAmount, itemId);
    var machineCount := Ceil(requiredMachines);
    var load := Load(requiredMachines, machineCount);
    var powerUsage := SaturatingPower(power, machineCount);
    ProductionCalculation(requiredCrafts, machineCount, load, powerUsage)
  }

  /** `target_amount / output_per_craft`. */
  function Crafts(targetAmount: nat, outputPerCraft: nat): (crafts: real)
    requires outputPerCraft >= 1
    ensures crafts * outputPerCraft as real == targetAmount as real
    ensures crafts >= 0.0
  {
    QuotientTimesDivisor(targetAmount as real, outputPerCraft as real);
    targetAmount as real / outputPerCraft as real
  }

  /** Share of the allocated machines' time that is used; 1.0 by convention when none is allocated. */
  function Load(requiredMachines: real, machineCount: nat): (load: real)
    requires 0.0 <= requiredMachines <= machineCount as real
    requires machineCount > 0 ==> requiredMachines > 0.0
    ensures machineCount == 0 ==> load == 1.0
    ensures machineCount > 0 ==> 0.0 < load <= 1.0 && load * machineCount as real == requiredMachines
  {
    if machineCount > 0 then
      LoadBounds(requiredMachines, machineCount as real);
      requiredMachines / machineCount as real
    else 1.0
  }

  /** `min(power * machine_count, u32::MAX)` computed in 64 bits. */
  function SaturatingPower(power: nat, machineCount: nat): (p: nat)
    ensures p <= U32Max
    ensures power * machineCount <= U32Max ==> p == power * machineCount
    ensures power * machineCount > U32Max ==> p == U32Max
  {
    if power * machineCount <= U32Max then power * machineCount else U32Max
  }

  lemma QuotientTimesDivisor(a: real, b: real)
    requires b > 0.0
    ensures (a / b) * b == a
  {
  }

  /** A positive demand spread over at least as many machines loads each by a fraction in (0, 1]. */
  lemma LoadBounds(t: real, n: real)
    requires 0.0 < t <= n
    ensures 0.0 < t / n <= 1.0
    ensures (t / n) * n == t
  {
  }

  /** Two seconds per craft, 31 per minute on a 5-power machine: 2 machines at 31/60 load, power 10. */
  lemma CalculateExample()
    ensures var c := Calculate(Recipe("x", "m", 2, None, [], map["x" := 1], false),
                               Some(Machine("m", 1, 5)), 31, "x");
            c.machineCount == 2 && c.powerUsage == 10 && c.load == 31.0 / 60.0
  {
  }
}
