/**
 * The decision logic of the task table: the category filter applied to every
 * row, the list of categories offered by the category selector, and the
 * message shown when no row is left to display.
 */
module TasksTable {
  import opened Wrappers
  import opened Tasks

  /** The selector entry that switches the category filter off. */
  const AllCategories: string := "All"

  const NoResultsMessage: string := "No results."
  const NoTasksMessage: string := "No tasks added yet."

  /** A missing task array is treated as an empty one (`tasks ??= []`). */
  function TasksOrEmpty(tasks: Option<seq<Task>>): (r: seq<Task>)
    ensures tasks.None? ==> r == []
    ensures tasks.Some? ==> r == tasks.value
  {
    tasks.GetOr([])
  }

  /**
   * The table's global filter: an unset, empty or "All" filter value lets
   * every row through; any other value keeps exactly the rows whose category
   * is that value.
   */
  function GlobalFilter(row: Task, filterValue: Option<string>): (keep: bool)
    ensures !Truthy(filterValue) ==> keep
    ensures filterValue == Some(AllCategories) ==> keep
    ensures Truthy(filterValue) && filterValue != Some(AllCategories) ==>
              (keep <==> row.category == filterValue)
  {
    if !Truthy(filterValue) || filterValue.value == AllCategories then true
    else row.category == filterValue
  }

  /** The rows the global filter keeps, in table order. */
  function FilterRows(tasks: seq<Task>, filterValue: Option<string>): (rows: seq<Task>)
    ensures |rows| <= |tasks|
    ensures forall t :: t in rows ==> t in tasks && GlobalFilter(t, filterValue)
    ensures forall t :: t in tasks && GlobalFilter(t, filterValue) ==> t in rows
  {
    if tasks == [] then []
    else
      (if GlobalFilter(tasks[0], filterValue) then [tasks[0]] else [])
      + FilterRows(tasks[1..], filterValue)
  }

  /** Some task carries exactly the category `c`. */
  ghost predicate HasCategory(tasks: seq<Task>, c: string) {
    exists i :: 0 <= i < |tasks| && tasks[i].category == Some(c)
  }

  predicate NoDuplicates(s: seq<string>) {
    forall i, j :: 0 <= i < j < |s| ==> s[i] != s[j]
  }

  lemma HasCategoryOfSnoc(tasks: seq<Task>, c: string)
    requires tasks != []
    ensures HasCategory(tasks, c) <==>
              HasCategory(tasks[..|tasks| - 1], c) || tasks[|tasks| - 1].category == Some(c)
  {
  }

  /**
   * The categories offered by the selector: the truthy task categories,
   * each once, in the order in which they first occur (the insertion order
   * of a JavaScript `Set`).
   */
  function Categories(tasks: seq<Task>): (r: seq<string>)
    ensures NoDuplicates(r)
    ensures forall c :: c in r <==> c != "" && HasCategory(tasks, c)
    decreases |tasks|
  {
    if tasks == [] then []
    else
      var rest := Categories(tasks[..|tasks| - 1]);
      var c := tasks[|tasks| - 1].category;
      var r := if Truthy(c) && c.value !in rest then rest + [c.value] else rest;
      assert forall x :: HasCategory(tasks, x) <==>
               HasCategory(tasks[..|tasks| - 1], x) || c == Some(x) by {
        forall x { HasCategoryOfSnoc(tasks, x); }
      }
      r
  }

  /** Adding tasks at the end only ever appends to the category list. */
  lemma {:induction false} CategoriesOfPrefix(tasks: seq<Task>, n: nat)
    requires n <= |tasks|
    ensures Categories(tasks[..n]) <= Categories(tasks)
    decreases |tasks|
  {
    if n < |tasks| {
      var init := tasks[..|tasks| - 1];
      assert init[..n] == tasks[..n];
      CategoriesOfPrefix(init, n);
    } else {
      assert tasks[..n] == tasks;
    }
  }

  /**
   * A category that occurs before the first occurrence of another one comes
   * before it in the category list.
   */
  lemma {:induction false} CategoriesInFirstOccurrenceOrder(tasks: seq<Task>, i: nat, j: nat)
    requires i < j < |tasks|
    requires Truthy(tasks[i].category) && Truthy(tasks[j].category)
    requires !HasCategory(tasks[..j], tasks[j].category.value)
    ensures forall a, b ::
              (0 <= a < |Categories(tasks)| && 0 <= b < |Categories(tasks)| &&
               Categories(tasks)[a] == tasks[i].category.value &&
               Categories(tasks)[b] == tasks[j].category.value) ==> a < b
  {
    var ci, cj := tasks[i].category.value, tasks[j].category.value;
    var before := Categories(tasks[..j]);
    var upTo := Categories(tasks[..j + 1]);
    assert tasks[..j + 1][..j] == tasks[..j];
    assert upTo == before + [cj];
    assert tasks[..j][i] == tasks[i];
    assert ci in before;
    var a' :| 0 <= a' < |before| && before[a'] == ci;
    CategoriesOfPrefix(tasks, j + 1);
    var r := Categories(tasks);
    assert r[a'] == ci && r[|before|] == cj;
  }

  /** A missing task array yields an empty category list and no rows. */
  lemma MissingTasksAreEmpty(filterValue: Option<string>)
    ensures Categories(TasksOrEmpty(None)) == []
    ensures FilterRows(TasksOrEmpty(None), filterValue) == []
  {
  }

  /** Without an effective filter value the table keeps every row, in order. */
  lemma {:induction false} UnfilteredKeepsEveryRow(tasks: seq<Task>, filterValue: Option<string>)
    requires !Truthy(filterValue) || filterValue == Some(AllCategories)
    ensures FilterRows(tasks, filterValue) == tasks
  {
    if tasks != [] {
      UnfilteredKeepsEveryRow(tasks[1..], filterValue);
    }
  }

  /** Filtering by a category value keeps exactly the rows of that category, in order. */
  lemma {:induction false} CategoryFilterKeepsMatchingRows(tasks: seq<Task>, c: string)
    requires c != "" && c != AllCategories
    ensures FilterRows(tasks, Some(c)) == SelectCategory(tasks, c)
  {
    if tasks != [] {
      CategoryFilterKeepsMatchingRows(tasks[1..], c);
    }
  }

  /** The tasks whose category is exactly `c`, in order. */
  function SelectCategory(tasks: seq<Task>, c: string): (rows: seq<Task>)
    ensures forall t :: t in rows <==> t in tasks && t.category == Some(c)
  {
    if tasks == [] then []
    else if tasks[0].category == Some(c) then [tasks[0]] + SelectCategory(tasks[1..], c)
    else SelectCategory(tasks[1..], c)
  }

  /**
   * Every category the selector offers leaves at least one row; any other
   * effective filter value leaves none.
   */
  lemma {:induction false} ListedCategoryHasRows(tasks: seq<Task>, c: string)
    ensures c in Categories(tasks) ==> |FilterRows(tasks, Some(c))| > 0
    ensures c != "" && c != AllCategories ==>
              (|FilterRows(tasks, Some(c))| > 0 <==> c in Categories(tasks))
  {
    var rows := FilterRows(tasks, Some(c));
    if c in Categories(tasks) {
      var i :| 0 <= i < |tasks| && tasks[i].category == Some(c);
      assert GlobalFilter(tasks[i], Some(c));
      assert tasks[i] in rows;
    }
    if c != "" && c != AllCategories && rows != [] {
      assert rows[0] in rows;
      var i :| 0 <= i < |tasks| && tasks[i] == rows[0];
      assert HasCategory(tasks, c);
    }
  }

  /**
   * What the table body shows instead of rows: nothing while some row is
   * shown, otherwise "No results." when there are tasks and
   * "No tasks added yet." when there are none.
   */
  function EmptyStateMessage(tasks: seq<Task>, shownRows: nat): (message: Option<string>)
    ensures shownRows > 0 <==> message.None?
    ensures message == Some(NoTasksMessage) <==> shownRows == 0 && tasks == []
    ensures message == Some(NoResultsMessage) <==> shownRows == 0 && tasks != []
  {
    if shownRows > 0 then None
    else if |tasks| > 0 then Some(NoResultsMessage)
    else Some(NoTasksMessage)
  }

  /**
   * With only the category filter applied, "No tasks added yet." appears
   * exactly when there are no tasks, and a listed category or an unset
   * filter never produces "No results.".
   */
  lemma {:induction false} EmptyStateUnderCategoryFilter(tasks: seq<Task>, filterValue: Option<string>)
    ensures (EmptyStateMessage(tasks, |FilterRows(tasks, filterValue)|) == Some(NoTasksMessage))
              <==> tasks == []
    ensures (!Truthy(filterValue) || filterValue == Some(AllCategories) ||
             filterValue.value in Categories(tasks)) ==>
              EmptyStateMessage(tasks, |FilterRows(tasks, filterValue)|) != Some(NoResultsMessage)
  {
    if !Truthy(filterValue) || filterValue == Some(AllCategories) {
      UnfilteredKeepsEveryRow(tasks, filterValue);
    } else {
      ListedCategoryHasRows(tasks, filterValue.value);
    }
  }
}
