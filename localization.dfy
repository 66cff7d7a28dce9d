/** Display names in the web front end (web/src/utils/localization.rs). */
module Localization {
  import opened I18n

  /** `get_localized_name`: machine ids are looked up as machines, everything else as items. */
  function GetLocalizedName(itemId: string, localizer: Localizer, machineIds: set<string>): (name: string)
    ensures itemId in machineIds ==>
              name == if itemId in localizer.machines then localizer.machines[itemId] else itemId
    ensures itemId !in machineIds ==>
              name == if itemId in localizer.items then localizer.items[itemId] else itemId
  {
    if itemId in machineIds then GetMachine(localizer, itemId) else GetItem(localizer, itemId)
  }

  /**
   * A machine id is never looked up among the items, even when the items
   * table has an entry for it; any other id never among the machines.
   */
  lemma TableChosenByMachineIds(itemId: string, localizer: Localizer, machineIds: set<string>)
    ensures itemId in machineIds ==>
              GetLocalizedName(itemId, localizer, machineIds)
              == GetLocalizedName(itemId, localizer.(items := map[]), machineIds)
              == GetMachine(localizer, itemId)
    ensures itemId !in machineIds ==>
              GetLocalizedName(itemId, localizer, machineIds)
              == GetLocalizedName(itemId, localizer.(machines := map[]), machineIds)
              == GetItem(localizer, itemId)
  {
  }

  /** With the empty localizer every name is the id itself. */
  lemma EmptyLocalizerGivesId(itemId: string, machineIds: set<string>)
    ensures GetLocalizedName(itemId, Empty(), machineIds) == itemId
  {
  }

  /** A machine that is also listed as an item keeps its machine name. */
  lemma MachineNameWins(itemId: string, localizer: Localizer, machineIds: set<string>)
    requires itemId in machineIds && itemId in localizer.machines && itemId in localizer.items
    ensures GetLocalizedName(itemId, localizer, machineIds) == localizer.machines[itemId]
  {
  }
}
