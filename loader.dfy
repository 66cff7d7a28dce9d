/**
 * Catalogue loading (core/src/config/loader.rs): the parsed recipe and
 * machine records are indexed for the planner.
 *
 * The two TOML texts are not parsed here: each arrives already parsed, as
 * either the list of records or the parser's error message.
 */
module Loader {
  import opened Wrappers
  import opened Recipes

  datatype ProductionError = ParseError(message: string)

  datatype GameData = GameData(
    recipes: map<string, Recipe>,
    recipesByOutput: map<string, seq<string>>,
    machines: map<string, Machine>)

  /** The list kept for `key`, empty when there is none yet (`entry().or_default()`). */
  function ListFor(m: map<string, seq<string>>, key: string): seq<string>
  {
    if key in m then m[key] else []
  }

  // ---------------------------------------------------------------------
  // The three tables after the first records have been indexed
  // ---------------------------------------------------------------------

  /** The records as `normalize` leaves them, in record order. */
  function Normalized(records: seq<Recipe>): (ns: seq<Recipe>)
    ensures |ns| == |records|
    ensures forall i :: 0 <= i < |records| ==> ns[i] == Normalize(records[i]) && ns[i].id == records[i].id
  {
    seq(|records|, i requires 0 <= i < |records| => Normalize(records[i]))
  }

  /** Each recipe stored under its unique id; a later recipe with the same unique id replaces it. */
  function IndexRecipes(recipes: seq<Recipe>): map<string, Recipe>
  {
    if |recipes| == 0 then map[]
    else
      var r := recipes[|recipes| - 1];
      IndexRecipes(recipes[..|recipes| - 1])[UniqueId(r) := r]
  }

  /** Each recipe's unique id appended to the list of the item it makes, in order. */
  function IndexByOutput(recipes: seq<Recipe>): map<string, seq<string>>
  {
    if |recipes| == 0 then map[]
    else
      var r := recipes[|recipes| - 1];
      var earlier := IndexByOutput(recipes[..|recipes| - 1]);
      earlier[r.id := ListFor(earlier, r.id) + [UniqueId(r)]]
  }

  /** Each machine under its own id; a later machine with the same id replaces it. */
  function MachineTable(machines: seq<Machine>): map<string, Machine>
  {
    if |machines| == 0 then map[]
    else MachineTable(machines[..|machines| - 1])[machines[|machines| - 1].id := machines[|machines| - 1]]
  }

  /**
   * `GameData::new`: a parse failure of the recipe text, then of the machine
   * text, is reported with the file it came from; otherwise each record is
   * normalised and indexed in turn.
   */
  method New(recipeConfig: Result<seq<Recipe>, string>, machineConfig: Result<seq<Machine>, string>)
    returns (r: Result<GameData, ProductionError>)
    ensures recipeConfig.Failure? ==> r == Failure(ParseError("recipes.toml: " + recipeConfig.error))
    ensures recipeConfig.Success? && machineConfig.Failure? ==>
              r == Failure(ParseError("machines.toml: " + machineConfig.error))
    ensures recipeConfig.Success? && machineConfig.Success? ==>
              r == Success(GameData(
                     IndexRecipes(Normalized(recipeConfig.value)),
                     IndexByOutput(Normalized(recipeConfig.value)),
                     MachineTable(machineConfig.value)))
  {
    if recipeConfig.Failure? {
      return Failure(ParseError("recipes.toml: " + recipeConfig.error));
    }
    if machineConfig.Failure? {
      return Failure(ParseError("machines.toml: " + machineConfig.error));
    }
    var recipes, recipesByOutput := IndexRecipeRecords(recipeConfig.value);
    var machines := IndexMachineRecords(machineConfig.value);
    return Success(GameData(recipes, recipesByOutput, machines));
  }

  /** The `for mut r in recipe_config.recipes` loop of `GameData::new`. */
  method IndexRecipeRecords(records: seq<Recipe>)
    returns (recipes: map<string, Recipe>, recipesByOutput: map<string, seq<string>>)
    ensures recipes == IndexRecipes(Normalized(records))
    ensures recipesByOutput == IndexByOutput(Normalized(records))
  {
    ghost var normalized := Normalized(records);
    recipes := map[];
    recipesByOutput := map[];
    var i := 0;
    while i < |records|
      invariant 0 <= i <= |records|
      invariant recipes == IndexRecipes(normalized[..i])
      invariant recipesByOutput == IndexByOutput(normalized[..i])
    {
      IndexStep(normalized, i);
      var recipe := Normalize(records[i]);
      var uniqueId := UniqueId(recipe);
      var outputItem := recipe.id;
      recipesByOutput := recipesByOutput[outputItem := ListFor(recipesByOutput, outputItem) + [uniqueId]];
      recipes := recipes[uniqueId := recipe];
      i := i + 1;
    }
    assert normalized[..|records|] == normalized;
  }

  /** Indexing one more recipe adds it to the table and appends its key to its item's list. */
  lemma IndexStep(recipes: seq<Recipe>, i: nat)
    requires i < |recipes|
    ensures var r := recipes[i];
            && IndexRecipes(recipes[..i + 1]) == IndexRecipes(recipes[..i])[UniqueId(r) := r]
            && IndexByOutput(recipes[..i + 1])
               == IndexByOutput(recipes[..i])[r.id := ListFor(IndexByOutput(recipes[..i]), r.id) + [UniqueId(r)]]
  {
    assert recipes[..i + 1][..i] == recipes[..i];
  }

  /** The machine table built by `GameData::new`, keyed by each record's own id. */
  method IndexMachineRecords(records: seq<Machine>) returns (machines: map<string, Machine>)
    ensures machines == MachineTable(records)
  {
    machines := map[];
    var j := 0;
    while j < |records|
      invariant 0 <= j <= |records|
      invariant machines == MachineTable(records[..j])
    {
      assert records[..j + 1][..j] == records[..j];
      machines := machines[records[j].id := records[j]];
      j := j + 1;
    }
    assert records[..|records|] == records;
  }

  // ---------------------------------------------------------------------
  // Properties of the indexes, over the normalised recipes in record order
  // ---------------------------------------------------------------------

  /** Every stored recipe is some record, normalised, and is stored under its own unique id. */
  lemma {:induction false} StoredUnderUniqueId(records: seq<Recipe>)
    ensures forall k :: k in IndexRecipes(records) ==>
              UniqueId(IndexRecipes(records)[k]) == k &&
              exists i :: 0 <= i < |records| && IndexRecipes(records)[k] == records[i]
  {
    if |records| > 0 {
      var earlier := records[..|records| - 1];
      StoredUnderUniqueId(earlier);
      forall k | k in IndexRecipes(records)
        ensures exists i :: 0 <= i < |records| && IndexRecipes(records)[k] == records[i]
      {
        if k in IndexRecipes(earlier) && k != UniqueId(records[|records| - 1]) {
          var i :| 0 <= i < |earlier| && IndexRecipes(earlier)[k] == earlier[i];
          assert earlier[i] == records[i];
        }
      }
    }
  }

  /**
   * A record that no later record shares a unique id with is the one stored
   * under that id: duplicates keep the later record.
   */
  lemma {:induction false} LastRecordWins(records: seq<Recipe>, i: nat)
    requires i < |records|
    requires forall j :: i < j < |records| ==> UniqueId(records[j]) != UniqueId(records[i])
    ensures UniqueId(records[i]) in IndexRecipes(records)
    ensures IndexRecipes(records)[UniqueId(records[i])] == records[i]
  {
    if i < |records| - 1 {
      var earlier := records[..|records| - 1];
      assert earlier[i] == records[i];
      forall j | i < j < |earlier|
        ensures UniqueId(earlier[j]) != UniqueId(earlier[i])
      {
        assert earlier[j] == records[j];
      }
      LastRecordWins(earlier, i);
    }
  }

  /** The unique ids recorded for `item`, in record order: one per record that makes it. */
  ghost function IdsFor(records: seq<Recipe>, item: string): seq<string>
  {
    if |records| == 0 then []
    else
      var r := records[|records| - 1];
      IdsFor(records[..|records| - 1], item) + (if r.id == item then [UniqueId(r)] else [])
  }

  /**
   * The list kept for an item holds the unique id of every record making
   * it, in record order and with repeats.
   */
  lemma {:induction false} ListsFollowRecords(records: seq<Recipe>, item: string)
    ensures ListFor(IndexByOutput(records), item) == IdsFor(records, item)
  {
    if |records| > 0 {
      ListsFollowRecords(records[..|records| - 1], item);
    }
  }

  /** Only items that some record makes get a list, and every list is non-empty. */
  lemma {:induction false} KeysAreRecordItems(records: seq<Recipe>, item: string)
    requires item in IndexByOutput(records)
    ensures exists i :: 0 <= i < |records| && records[i].id == item
    ensures |IndexByOutput(records)[item]| > 0
  {
    var last := records[|records| - 1];
    var earlier := records[..|records| - 1];
    if item != last.id {
      KeysAreRecordItems(earlier, item);
      var i :| 0 <= i < |earlier| && earlier[i].id == item;
      assert records[i] == earlier[i];
    }
  }

  /** Every item that some record makes gets a list. */
  lemma {:induction false} RecordItemsAreKeys(records: seq<Recipe>, i: nat)
    requires i < |records|
    ensures records[i].id in IndexByOutput(records)
  {
    if i < |records| - 1 {
      var earlier := records[..|records| - 1];
      assert earlier[i] == records[i];
      RecordItemsAreKeys(earlier, i);
    }
  }

  /** Every unique id listed under an item is a key of the recipe table. */
  lemma {:induction false} ListedIdsAreStored(records: seq<Recipe>)
    ensures forall item, k :: item in IndexByOutput(records) && k in IndexByOutput(records)[item] ==>
              k in IndexRecipes(records)
  {
    if |records| > 0 {
      ListedIdsAreStored(records[..|records| - 1]);
    }
  }

  /** An item's id never contains the separator `@` that unique ids use. */
  ghost predicate IdsWithoutSeparator(records: seq<Recipe>)
  {
    forall i :: 0 <= i < |records| ==> '@' !in records[i].id
  }

  /**
   * Every recipe listed under an item makes that item. This needs ids free
   * of `@`: otherwise two recipes for different items can share a unique id
   * and the later one overwrites the other.
   */
  lemma {:induction false} ListedRecipesMakeTheItem(records: seq<Recipe>)
    requires IdsWithoutSeparator(records)
    ensures forall item, k :: item in IndexByOutput(records) && k in IndexByOutput(records)[item] ==>
              k in IndexRecipes(records) && IndexRecipes(records)[k].id == item
  {
    ListedIdsAreStored(records);
    if |records| > 0 {
      var earlier := records[..|records| - 1];
      assert IdsWithoutSeparator(earlier) by {
        forall i | 0 <= i < |earlier| ensures '@' !in earlier[i].id {
          assert earlier[i] == records[i];
        }
      }
      ListedRecipesMakeTheItem(earlier);
      StoredUnderUniqueId(earlier);
      var n := records[|records| - 1];
      assert '@' !in n.id;
      forall item, k | item in IndexByOutput(records) && k in IndexByOutput(records)[item]
        ensures IndexRecipes(records)[k].id == item
      {
        if k == UniqueId(n) && item in IndexByOutput(earlier) && k in IndexByOutput(earlier)[item] {
          // the recipe stored under k before made item, and shares its unique id with n
          var previous := IndexRecipes(earlier)[k];
          var i :| 0 <= i < |earlier| && previous == earlier[i];
          UniqueIdDeterminesItem(previous, n);
        }
      }
    }
  }

  /** A machine id is a key exactly when some machine record has it, and the last such record is kept. */
  lemma {:induction false} MachineTableKeepsLast(machines: seq<Machine>, i: nat)
    requires i < |machines|
    requires forall j :: i < j < |machines| ==> machines[j].id != machines[i].id
    ensures machines[i].id in MachineTable(machines)
    ensures MachineTable(machines)[machines[i].id] == machines[i]
  {
    if i < |machines| - 1 {
      var earlier := machines[..|machines| - 1];
      assert earlier[i] == machines[i];
      forall j | i < j < |earlier| ensures earlier[j].id != earlier[i].id {
        assert earlier[j] == machines[j];
      }
      MachineTableKeepsLast(earlier, i);
    }
  }

  /** Only ids of machine records become keys, each mapped to a record with that id. */
  lemma {:induction false} MachineTableKeys(machines: seq<Machine>)
    ensures forall k :: k in MachineTable(machines) ==>
              MachineTable(machines)[k].id == k && exists i :: 0 <= i < |machines| && machines[i].id == k
  {
    if |machines| > 0 {
      var earlier := machines[..|machines| - 1];
      MachineTableKeys(earlier);
      forall k | k in MachineTable(machines)
        ensures exists i :: 0 <= i < |machines| && machines[i].id == k
      {
        if k != machines[|machines| - 1].id {
          assert k in MachineTable(earlier);
          var i :| 0 <= i < |earlier| && earlier[i].id == k;
          assert machines[i] == earlier[i];
        }
      }
    }
  }
}
