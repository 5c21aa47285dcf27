/**
 * The fields of a task record that the task list and its name column read.
 * The schema module that declares the whole record is not part of this model.
 */
module Tasks {
  import opened Wrappers

  datatype Task = Task(
    id: string,
    name: string,
    /** `None` stands for a missing (null or undefined) category. */
    category: Option<string>,
    repeatGoalEnabled: bool,
    /** What `Number(daysRepeat)` gives: `None` when that is NaN. */
    daysRepeat: Option<int>,
    remindByEmail: bool)

  /** JavaScript truthiness of an optional string: null, undefined and "" are falsy. */
  predicate Truthy(s: Option<string>) {
    s.Some? && s.value != ""
  }
}
