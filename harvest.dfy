/** Records returned by the time-tracking service, reduced to the fields the flows read. */
module Harvest {

  import opened Wrappers

  /** `worker.user` of a people-list item. */
  datatype HarvestUser = HarvestUser(id: int, email: string, isActive: bool, isContractor: bool)

  /** `task.day_entry` of a time-entry report item; hours are exact reals. */
  datatype DayEntry = DayEntry(hours: real)

  /**
   * `item.project` of a project-list item. `hintLatestRecordAt` is the
   * timestamp of the project's latest time record; `None` when the service
   * reports none (a `null` the date library cannot read).
   */
  datatype Project = Project(id: int, name: string, hintLatestRecordAt: Option<int>)
}
