/**
 * The recipe record (core/src/models/recipe.rs) and the machine record
 * (core/src/models/machine.rs).
 *
 * A recipe's `inputs` is a hash map in the source; its iteration order is
 * unspecified. Here it is a sequence of (item, count) pairs with distinct
 * items, so one value of the sequence stands for one iteration order, and
 * two sequences holding the same pairs stand for the same map.
 */
module Recipes {
  import opened Wrappers
  import opened Strings

  /** The placeholder that `outputs` may use for the recipe's own item. */
  const SelfReference: string := "this"

  datatype Machine = Machine(id: string, tier: nat, power: nat)

  datatype Recipe = Recipe(
    id: string,
    producedBy: string,
    time: nat,
    out: Option<nat>,
    inputs: seq<(string, nat)>,
    outputs: map<string, nat>,
    isSource: bool)

  /** The input list is a map: no item appears twice. */
  predicate DistinctKeys(inputs: seq<(string, nat)>)
  {
    forall i, j :: 0 <= i < j < |inputs| ==> inputs[i].0 != inputs[j].0
  }

  /**
   * `normalize`: the `out` shorthand is written into `outputs` under the
   * recipe's id, then a `"this"` entry, if any, is moved to the recipe's id.
   */
  function Normalize(r: Recipe): (n: Recipe)
    ensures n.id == r.id && n.producedBy == r.producedBy && n.time == r.time && n.out == r.out
    ensures n.inputs == r.inputs && n.isSource == r.isSource
    // the shorthand count lands under the recipe's id unless "this" overrides it
    ensures r.out.Some? && SelfReference !in r.outputs ==> r.id in n.outputs && n.outputs[r.id] == r.out.value
    // a "this" entry moves to the recipe's id and wins over the shorthand
    ensures SelfReference in r.outputs && r.id != SelfReference ==>
              SelfReference !in n.outputs && r.id in n.outputs && n.outputs[r.id] == r.outputs[SelfReference]
    // no other output key is touched
    ensures forall k :: k != r.id && k != SelfReference ==>
              (k in n.outputs <==> k in r.outputs) && (k in n.outputs ==> n.outputs[k] == r.outputs[k])
    ensures r.out.None? && SelfReference !in r.outputs ==> n.outputs == r.outputs
    // nothing is left under "this" unless "this" is the recipe's own id
    ensures r.id != SelfReference ==> SelfReference !in n.outputs
  {
    var withOut := if r.out.Some? then r.outputs[r.id := r.out.value] else r.outputs;
    var outputs :=
      if SelfReference in withOut then (withOut - {SelfReference})[r.id := withOut[SelfReference]]
      else withOut;
    r.(outputs := outputs)
  }

  /** The `key:value` text of one input. */
  function InputEntry(p: (string, nat)): string
  {
    p.0 + ":" + NatToDecimal(p.1)
  }

  function InputEntries(s: seq<(string, nat)>): (r: seq<string>)
    ensures |r| == |s|
  {
    if |s| == 0 then [] else [InputEntry(s[0])] + InputEntries(s[1..])
  }

  /** Inserts `p` before the first entry whose key is not smaller than its own. */
  function InsertByKey(p: (string, nat), s: seq<(string, nat)>): (r: seq<(string, nat)>)
    ensures multiset(r) == multiset(s) + multiset{p}
  {
    if |s| == 0 || !LexLess(s[0].0, p.0) then [p] + s
    else
      assert s == [s[0]] + s[1..];
      [s[0]] + InsertByKey(p, s[1..])
  }

  /** The inputs sorted by item id (`sort_by_key`). */
  function SortByKey(s: seq<(string, nat)>): (r: seq<(string, nat)>)
    ensures multiset(r) == multiset(s)
  {
    if |s| == 0 then []
    else
      assert s == [s[0]] + s[1..];
      InsertByKey(s[0], SortByKey(s[1..]))
  }

  predicate StrictlySortedByKey(s: seq<(string, nat)>)
  {
    forall i, j :: 0 <= i < j < |s| ==> LexLess(s[i].0, s[j].0)
  }

  /**
   * `compute_unique_id`: `id@by[k1:v1,k2:v2,...]` with the inputs sorted by
   * item id.
   */
  function UniqueId(r: Recipe): (uid: string)
    ensures |uid| > |r.id| && uid[..|r.id|] == r.id && uid[|r.id|] == '@'
    ensures r.inputs == [] ==> uid == r.id + "@" + r.producedBy + "[]"
  {
    r.id + "@" + r.producedBy + "[" + Join(",", InputEntries(SortByKey(r.inputs))) + "]"
  }

  lemma {:induction false} InsertKeepsStrictOrder(p: (string, nat), s: seq<(string, nat)>)
    requires StrictlySortedByKey(s)
    requires forall i :: 0 <= i < |s| ==> s[i].0 != p.0
    ensures StrictlySortedByKey(InsertByKey(p, s))
  {
    if |s| == 0 {
    } else if !LexLess(s[0].0, p.0) {
      LexLessTotal(s[0].0, p.0);
      forall j | 0 < j < |s| ensures LexLess(p.0, s[j].0) {
        LexLessTransitive(p.0, s[0].0, s[j].0);
      }
    } else {
      InsertKeepsStrictOrder(p, s[1..]);
      var rest := InsertByKey(p, s[1..]);
      forall j | 0 <= j < |rest| ensures LexLess(s[0].0, rest[j].0) {
        assert rest[j] in multiset(rest);
        if rest[j] != p {
          assert rest[j] in multiset(s[1..]);
          var k :| 0 <= k < |s[1..]| && s[1..][k] == rest[j];
          assert LexLess(s[0].0, s[k + 1].0);
        }
      }
    }
  }

  /** Sorting inputs with distinct keys gives a strictly increasing list. */
  lemma {:induction false} SortIsStrict(s: seq<(string, nat)>)
    requires DistinctKeys(s)
    ensures StrictlySortedByKey(SortByKey(s))
  {
    if |s| > 0 {
      SortIsStrict(s[1..]);
      var t := SortByKey(s[1..]);
      forall i | 0 <= i < |t| ensures t[i].0 != s[0].0 {
        assert t[i] in multiset(s[1..]);
        var k :| 0 <= k < |s[1..]| && s[1..][k] == t[i];
        assert s[k + 1] == t[i];
      }
      InsertKeepsStrictOrder(s[0], t);
    }
  }

  /** Two strictly increasing lists holding the same pairs start with the same pair. */
  lemma SortedHeadsAgree(a: seq<(string, nat)>, b: seq<(string, nat)>)
    requires StrictlySortedByKey(a) && StrictlySortedByKey(b)
    requires multiset(a) == multiset(b) && |a| > 0 && |b| > 0
    ensures a[0] == b[0]
  {
    assert a[0] in multiset(b) && b[0] in multiset(a);
    var k :| 0 <= k < |b| && b[k] == a[0];
    var m :| 0 <= m < |a| && a[m] == b[0];
    if k > 0 && m > 0 {
      LexLessAsymmetric(a[0].0, b[0].0);
      assert false;
    } else if k > 0 {
      LexLessIrreflexive(b[0].0);
      assert false;
    } else if m > 0 {
      LexLessIrreflexive(a[0].0);
      assert false;
    }
  }

  /** Removing the first pair of a list removes it from the list's multiset. */
  lemma MultisetOfTail(a: seq<(string, nat)>)
    requires |a| > 0
    ensures multiset(a[1..]) == multiset(a) - multiset{a[0]}
  {
    assert a == [a[0]] + a[1..];
  }

  /** Two strictly increasing lists holding the same pairs are the same list. */
  lemma {:induction false} StrictlySortedUnique(a: seq<(string, nat)>, b: seq<(string, nat)>)
    requires StrictlySortedByKey(a) && StrictlySortedByKey(b)
    requires multiset(a) == multiset(b)
    ensures a == b
  {
    if |a| == 0 {
      assert |multiset(b)| == 0;
    } else {
      assert |b| > 0 by { assert |multiset(b)| == |a|; }
      SortedHeadsAgree(a, b);
      MultisetOfTail(a);
      MultisetOfTail(b);
      StrictlySortedUnique(a[1..], b[1..]);
      assert a == [a[0]] + a[1..] && b == [b[0]] + b[1..];
    }
  }

  /**
   * The unique id does not depend on the order in which the inputs were
   * inserted, nor on `time`, `out`, `outputs` or `is_source`.
   */
  lemma UniqueIdIgnoresInputOrder(r1: Recipe, r2: Recipe)
    requires r1.id == r2.id && r1.producedBy == r2.producedBy
    requires DistinctKeys(r1.inputs) && DistinctKeys(r2.inputs)
    requires multiset(r1.inputs) == multiset(r2.inputs)
    ensures UniqueId(r1) == UniqueId(r2)
  {
    SortIsStrict(r1.inputs);
    SortIsStrict(r2.inputs);
    StrictlySortedUnique(SortByKey(r1.inputs), SortByKey(r2.inputs));
  }

  /** Recipes whose ids hold no `@` and that share a unique id produce the same item. */
  lemma UniqueIdDeterminesItem(r1: Recipe, r2: Recipe)
    requires '@' !in r1.id && '@' !in r2.id
    requires UniqueId(r1) == UniqueId(r2)
    ensures r1.id == r2.id
  {
    var u := UniqueId(r1);
    var a, b := r1.id, r2.id;
    assert u[..|a|] == a && u[|a|] == '@';
    assert u[..|b|] == b && u[|b|] == '@';
  }

  /** The unique id of a normalised recipe is that of the record as written. */
  lemma NormalizeKeepsUniqueId(r: Recipe)
    ensures UniqueId(Normalize(r)) == UniqueId(r)
  {
  }

  /** The `out` shorthand alone becomes the only output entry. */
  lemma NormalizeShorthandExample()
    ensures Normalize(Recipe("carbon", "refining_unit", 2, Some(2), [], map[], false)).outputs == map["carbon" := 2]
  {
  }

  /** A `"this"` entry is renamed to the recipe's id. */
  lemma NormalizeSelfReferenceExample()
    ensures Normalize(Recipe("origocrust", "refining_unit", 2, None, [], map["this" := 1], false)).outputs
            == map["origocrust" := 1]
  {
  }

  lemma SortExample()
    ensures SortByKey([("origocrust", 5), ("amethyst_fiber", 5)]) == [("amethyst_fiber", 5), ("origocrust", 5)]
    ensures SortByKey([("amethyst_fiber", 5), ("origocrust", 5)]) == [("amethyst_fiber", 5), ("origocrust", 5)]
  {
    var o, f := ("origocrust", 5), ("amethyst_fiber", 5);
    assert LexLess(f.0, o.0) && !LexLess(o.0, f.0);
    assert SortByKey([o]) == [o] && SortByKey([f]) == [f];
    assert SortByKey([o, f]) == InsertByKey(o, [f]) == [f, o];
    assert SortByKey([f, o]) == InsertByKey(f, [o]) == [f, o];
  }

  lemma EntriesExample()
    ensures InputEntries([("amethyst_fiber", 5), ("origocrust", 5)]) == ["amethyst_fiber:5", "origocrust:5"]
  {
    var o, f := ("origocrust", 5), ("amethyst_fiber", 5);
    assert NatToDecimal(5) == "5";
    assert InputEntry(f) == "amethyst_fiber:5" && InputEntry(o) == "origocrust:5";
    assert [f, o][1..] == [o];
    assert InputEntries([o]) == ["origocrust:5"];
  }

  lemma JoinExample()
    ensures Join(",", ["amethyst_fiber:5", "origocrust:5"]) == "amethyst_fiber:5,origocrust:5"
  {
    assert ["amethyst_fiber:5", "origocrust:5"][1..] == ["origocrust:5"];
  }

  /** Both insertion orders of two inputs give the same, sorted, key. */
  lemma UniqueIdExample()
    ensures UniqueId(Recipe("amethyst_component", "gearing_unit", 10, None,
                            [("origocrust", 5), ("amethyst_fiber", 5)], map[], false))
            == "amethyst_component" + "@" + "gearing_unit" + "[" + "amethyst_fiber:5,origocrust:5" + "]"
    ensures UniqueId(Recipe("amethyst_component", "gearing_unit", 10, None,
                            [("amethyst_fiber", 5), ("origocrust", 5)], map[], false))
            == "amethyst_component" + "@" + "gearing_unit" + "[" + "amethyst_fiber:5,origocrust:5" + "]"
  {
    var o, f := ("origocrust", 5), ("amethyst_fiber", 5);
    var text := "amethyst_fiber:5,origocrust:5";
    SortExample();
    EntriesExample();
    JoinExample();
    assert Join(",", InputEntries(SortByKey([o, f]))) == text;
    assert Join(",", InputEntries(SortByKey([f, o]))) == text;
  }
}
