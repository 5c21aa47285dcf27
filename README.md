# Task tracker front-end: table filter, goal label and form label, in Dafny

This project models the small pieces of decision logic in the browser
front-end of a habit/task tracker:

- **The task table** (`tasks-table.tsx`). A missing task array counts as
  empty. The global category filter keeps every row when the filter value is
  unset, empty or `"All"`, and otherwise keeps the rows whose category is
  exactly that value. The category selector offers the distinct non-empty
  task categories in order of first occurrence, as a JavaScript `Set` does.
  When no row is shown, the table body says `"No results."` if there are
  tasks and `"No tasks added yet."` if there are none.
- **The task's name column** (`task-column.tsx`). A task has an active repeat
  goal when `Number(daysRepeat)` is positive and its goal flag is set. An
  email reminder is shown only when the user's global setting, the active
  goal and the task's own opt-in all hold; a missing user or settings object
  switches it off. The goal label is `"every 1 day"`, `"every N days"` or
  `"no goal"`.
- **The form input field** (`input-field.tsx`). Without a supplied label the
  label is derived from the field name: a name shorter than two characters
  is kept as it is, and any other name gets its first character upper-cased
  and the rest lower-cased. Unset props default to `type = "text"`,
  `disabled = false` and `hidden = false`. `min` and `max` exist only on a
  number input.

All three source files are pure, so the model is made of datatypes,
functions and lemmas. JavaScript's `null`/`undefined` is `Option.None`, and
truthiness of an optional string is `Tasks.Truthy`. Every operation has a
partner that an all-inputs lemma connects it to:

- the category list has a membership characterisation, a prefix law and an
  order lemma;
- the category filter is tied to the category list: every listed category
  leaves some row, and any other value leaves none;
- the goal label has a parser that reads the number of days back from it;
- the decimal rendering has a digit-value function that inverts it;
- the derived form label has idempotence, fixed-point and case-insensitivity
  lemmas;
- the typed props union has a check over untyped props, with a round trip
  in both directions.

Files: `wrappers.dfy` (Option), `tasks.dfy` (the task fields the core reads),
`tasks_table.dfy`, `task_column.dfy`, `input_field.dfy`.

## Model

| member | source | states |
|---|---|---|
| TasksTable.TasksOrEmpty | frontend/src/components/tasks/tasks-table.tsx:100 | a missing task array becomes the empty array; a present one is kept |
| TasksTable.GlobalFilter | frontend/src/components/tasks/tasks-table.tsx:119-122 | an unset, empty or `"All"` filter value accepts every row whatever its category; any other value accepts a row iff its category equals that value exactly, so a row with a missing or empty category is rejected |
| TasksTable.FilterRows | frontend/src/components/tasks/tasks-table.tsx:112-122 | the rows kept are exactly the rows of the table that the global filter accepts, and never more than the table has |
| TasksTable.UnfilteredKeepsEveryRow | frontend/src/components/tasks/tasks-table.tsx:120 | with an unset, empty or `"All"` filter value the filtered rows are the whole table, in order |
| TasksTable.SelectCategory | frontend/src/components/tasks/tasks-table.tsx:121 | reference definition: the tasks whose category is exactly `c`, in order |
| TasksTable.CategoryFilterKeepsMatchingRows | frontend/src/components/tasks/tasks-table.tsx:121 | filtering by a value other than `""` and `"All"` gives exactly the tasks of that category, in table order |
| TasksTable.Categories | frontend/src/components/tasks/tasks-table.tsx:125-129 | the category list has no duplicates, and a string is in it iff it is non-empty and some task has exactly that category (so it holds no missing or empty category and misses no truthy one) |
| TasksTable.CategoriesOfPrefix | frontend/src/components/tasks/tasks-table.tsx:125-129 | the category list of a prefix of the tasks is a prefix of the category list of all tasks (`Set` insertion order) |
| TasksTable.CategoriesInFirstOccurrenceOrder | frontend/src/components/tasks/tasks-table.tsx:126-127 | a category occurring before the first occurrence of another category stands before it in the list |
| TasksTable.MissingTasksAreEmpty | frontend/src/components/tasks/tasks-table.tsx:100-129 | a missing task array yields an empty category list and no rows |
| TasksTable.ListedCategoryHasRows | frontend/src/components/tasks/tasks-table.tsx:119-129 | selecting any category the selector offers leaves at least one row; any other value except `""` and `"All"` leaves none |
| TasksTable.EmptyStateMessage | frontend/src/components/tasks/tasks-table.tsx:208-234 | no message while a row is shown; otherwise `"No tasks added yet."` iff there are no tasks and `"No results."` iff there are some |
| TasksTable.EmptyStateUnderCategoryFilter | frontend/src/components/tasks/tasks-table.tsx:208-234 | under the category filter alone, `"No tasks added yet."` appears iff the task list is empty, and an unset, `"All"` or listed filter value never gives `"No results."` |
| TaskColumn.RepeatGoalEnabled | frontend/src/components/tasks/task-column.tsx:10-11 | an active goal needs a numeric `daysRepeat` greater than 0 and the task's goal flag; a zero, negative or non-numeric `daysRepeat` gives no active goal whatever the flag |
| TaskColumn.GlobalRemindByEmailEnabled | frontend/src/components/tasks/task-column.tsx:9 | the global reminder flag holds iff the user exists, has settings and has reminders enabled; a missing user or settings object gives false |
| TaskColumn.WillSendEmailReminder | frontend/src/components/tasks/task-column.tsx:13-14 | a reminder is shown iff the global setting, the active goal and the task's `remindByEmail` all hold, so never without an active goal or without a user with settings |
| TaskColumn.Decimal | frontend/src/components/tasks/task-column.tsx:28 | a number renders as a non-empty string of decimal digits with no leading zero, one digit exactly for numbers below ten |
| TaskColumn.DigitsValueOfDecimal | frontend/src/components/tasks/task-column.tsx:28 | reading the rendered digits back gives the number |
| TaskColumn.GoalLabel | frontend/src/components/tasks/task-column.tsx:27-29 | an active goal's label starts with `"every "`; an inactive goal's label is `"no goal"` |
| TaskColumn.GoalLabelRoundTrip | frontend/src/components/tasks/task-column.tsx:10-29 | the label gives back exactly the goal's number of days when the goal is active, and nothing when it is not |
| TaskColumn.GoalLabelDeterminesDays | frontend/src/components/tasks/task-column.tsx:28 | two active goals with the same label have the same number of days |
| TaskColumn.NoGoalLabelIffInactive | frontend/src/components/tasks/task-column.tsx:10-11 | the label is `"no goal"` iff `daysRepeat` is non-numeric, zero or negative, or the goal flag is off (so the goal is active iff `daysRepeat` is a positive number and the flag is set) |
| TaskColumn.GoalLabelPlural | frontend/src/components/tasks/task-column.tsx:28 | with an active goal the label is `"every 1 day"` iff N = 1, and `"every N days"` for every other N |
| TaskColumn.GoalLabelExamples | frontend/src/components/tasks/task-column.tsx:27-29 | 3 days gives `"every 3 days"`, 14 gives `"every 14 days"`, 0 gives `"no goal"` |
| TaskColumn.TaskColumnDisplay | frontend/src/components/tasks/task-column.tsx:7-36 | the cell shows the task's name; the goal line is muted iff it reads `"no goal"`; the goal line is the goal label of the task, which encodes the active goal's days; the envelope is shown exactly when an email reminder will be sent, so only with an active goal, the task's opt-in and the global setting |
| InputField.ToUpperChar | frontend/src/components/form/input-field.tsx:42 | upper-casing yields no small ASCII letter, shifts a small letter to its capital and keeps every other character |
| InputField.ToLowerChar | frontend/src/components/form/input-field.tsx:42 | lower-casing yields no ASCII capital, shifts a capital to its small letter and keeps every other character |
| InputField.ToLower | frontend/src/components/form/input-field.tsx:42 | lower-casing a string keeps its length and lower-cases each character in place |
| InputField.DefaultLabel | frontend/src/components/form/input-field.tsx:42 | the derived label has the name's length; a name shorter than 2 is kept; otherwise the first character is upper-cased and every later one lower-cased |
| InputField.FieldLabel | frontend/src/components/form/input-field.tsx:41-42 | a supplied label, even an empty one, is kept unchanged; without one the label is the name's derived label (the name itself when it is shorter than 2) |
| InputField.DefaultLabelIdempotent | frontend/src/components/form/input-field.tsx:42 | deriving the label again from a derived label gives the same label |
| InputField.DefaultLabelFixedPoint | frontend/src/components/form/input-field.tsx:42 | a name is its own derived label iff it is shorter than 2, or its first character is not a small letter and no later character is a capital |
| InputField.DefaultLabelIgnoringCase | frontend/src/components/form/input-field.tsx:42 | the derived label differs from the name in letter case only |
| InputField.DefaultLabelExamples | frontend/src/pages/auth/register.tsx:38-39 | `name` gives `Name`, `email` gives `Email`, `x` and the empty name are kept |
| InputField.RenderField | frontend/src/components/form/input-field.tsx:31-66 | the rendered field keeps the name and gets the label above; a supplied `disabled`, `hidden`, `type`, `min` or `max` reaches the input unchanged, and unset `disabled`/`hidden` are false and an unset type is `"text"`; `min`/`max` are present only on a `"number"` input, and the type is `"number"` iff the props took the number shape |
| InputField.CheckTypeProps | frontend/src/components/form/input-field.tsx:18-29 | an untyped props object is admitted iff it has no `min` and no `max`, or its type is `"number"` |
| InputField.Loosen | frontend/src/components/form/input-field.tsx:18-29 | a typed props value has `min` or `max` only with type `"number"` |
| InputField.CheckTypePropsSound | frontend/src/components/form/input-field.tsx:18-29 | an admitted object is exactly the untyped form of the shape it is admitted as |
| InputField.CheckTypePropsComplete | frontend/src/components/form/input-field.tsx:18-29 | every typed shape is admitted back as itself |

## Left out

- The task status column (`getTaskStatusLabels`, `sortTaskStatusColumn`, imported at `frontend/src/components/tasks/tasks-table.tsx:20` and used at lines 78-82 and 95): `lib/task-status` lies outside the modelled files, and its date arithmetic reads the wall clock and uses locale date formatting. So the status texts, lateness and the status sort order are not modelled.
- The table library's engine: sorting, the name-column text filter (lines 137-144), row selection and the column definitions. `TasksTable.FilterRows` stands for the filtered row model under the global filter alone, keeping table order. `TasksTable.EmptyStateMessage` therefore takes the number of rows shown as a parameter.
- React state and rendering are left out: `useState`, `useNavigate`, JSX layout, `flexRender` and CSS classes. The rendering modelled is what the name cell shows: the task's name, the goal label, the muted style of the goal line and the envelope icon (`TaskColumn.TaskColumnDisplay`). The `useAuth` hook becomes the `user` parameter of the name column.
- `TaskColumn` models `Number(daysRepeat)` as an integer or NaN. Fractional numbers are left out, such as `"2.5"` giving `"every 2.5 days"`. So is `Infinity` (from `Number("Infinity")` or `1e400`), which is greater than 0 and renders `"every Infinity days"`. JavaScript's exponent notation for numbers of 10^21 and above is also left out.
- `InputField`: case mapping is ASCII only. JavaScript's `toUpperCase`/`toLowerCase` map all of Unicode, where `ß` upper-cases to `SS` and so changes the length. Strings are sequences of Unicode scalar values. JavaScript's `length` and `name[0]` count UTF-16 code units, which differ for characters outside the Basic Multilingual Plane.
- `InputField`: `min` and `max` are modelled as reals. NaN and the infinities are left out. The `form` prop and the react-hook-form wiring are left out.
- The other files are left out because they are styled wrappers, markup or library configuration. These are the UI primitives (`table`, `toggle-group`, `avatar`, `checkbox`, `input`, `textarea`), the home page, the footer (which reads the wall clock), the register page (cited only for its field names), the navigation, the toast wrapper and the settings schema.
