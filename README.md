# Database step of the create-dataset wizard

This project models `CreateDatasetDbQueryComponent`, the "database" step of the
data-preparation create-dataset wizard. In this step the user picks a database
from a searchable list that can be driven by the keyboard. The user then either
picks one of its tables (table mode) or types a SQL query (query mode), and sees
a preview grid. The wizard may advance to the naming step only while
`clickable` is set. Drawing a preview sets it, but a few other paths also leave
it set (see the next section). When the user comes back to the step, the choice recorded
on the draft dataset (`selectedInfo`) is restored.

The project has five modules:

- `Strings` (`strings.dfy`): the two string operations the list filters use,
  `toLowerCase` and `indexOf`.
- `SelectList` (`select_list.dfy`): the select lists. Each list is a backing
  list of `{ idx, name, selected }` entries. A filtered view of it is the
  sequence of positions of the visible entries. A flag written through the view
  therefore lands in the backing list, as it does in the component, where the
  filtered array shares its objects with the backing array. This module also
  holds the arrow-key logic as a specification function (`Arrow`) with an
  imperative counterpart (`MoveFlag`), and `initSelectedCommand` as a
  specification function (`Unflagged`) with a loop (`ClearSelected`).
- `Preview` (`preview.dfy`): `_getRows` and `_getHeaders`, which shape a lookup
  result for the preview grid.
- `DbQueryStep` (`db_query_step.dfy`): the component as a class with the
  component's own fields. The draft `DatasetJdbc` it fills in is a second
  class. Every handler is a method whose frame names only fields it may
  write, and whose ensures states the new value of each of them. The completion of each network lookup (`.then` / `.catch`) is a
  method of its own that takes the lookup's result as a parameter.
- `DbQueryScenarios` (`scenarios.dfy`): clients that walk user stories through
  the step using only the contracts:
  - choosing a database with DOWN, DOWN and Enter;
  - previewing a table, then switching to query mode;
  - a rejected query that is restored on re-entry.

## Behaviour that follows the code

Where the code and a plain reading of the step's design differ, the model
follows the code:

- `initTable` also clears the database name.
- Any editor text change blocks advancing (`EditorTextChange` ensures
  `!clickable`), even when the text is unchanged.
- Mouse-over flags the hovered entry without clearing the others, because
  `flag` is never set. Two entries can then be flagged (`HoverCanFlagTwo`), and
  the key handler acts on the first of them.
- `_getRows` looks only at the first row for an `id` column.
- The scroll offset is 25 units per entry.
- The document-wide Enter handler tests the table list twice. An open database
  list therefore does not stop `next()`.
- A query result without `errorMsg` unlocks advancing even when it has no rows.
  A table preview with no fields or no rows clears the grid but leaves
  `clickable` as it was.
- When a query was remembered, restoring sets `clickable` even if the query
  failed and there is no preview, and `rsType` stays `TABLE`. A failed query
  lookup (`.catch`) sets `clearGrid`, but a result carrying `errorMsg` does not.
- Lookups carry no generation token: whichever completion arrives is applied
  to the current state.

## Model

| member | source | states |
|---|---|---|
| Strings.IndexFrom | discovery-frontend/src/app/data-preparation/dataset/create-dataset/create-dataset-db-query.component.ts:96-99 | the result is -1 or a position at or after `from` where the needle occurs, and there is no occurrence between `from` and the result (none at all for -1) |
| Strings.Lower | discovery-frontend/src/app/data-preparation/dataset/create-dataset/create-dataset-db-query.component.ts:98 | lower-casing keeps the length, turns each upper-case ASCII letter A-Z into its lower-case letter a-z, leaves no upper-case ASCII letter, and keeps every other character in place |
| Strings.IndexOf | discovery-frontend/src/app/data-preparation/dataset/create-dataset/create-dataset-db-query.component.ts:96-99 | `indexOf` returns the first occurrence of the needle, or -1 when there is none |
| Strings.EmptyFoundFirst | discovery-frontend/src/app/data-preparation/dataset/create-dataset/create-dataset-db-query.component.ts:96-99 | the empty search text is found at position 0 of every name |
| Strings.IndexOfFinds | discovery-frontend/src/app/data-preparation/dataset/create-dataset/create-dataset-db-query.component.ts:96-99 | `indexOf(..) > -1` holds exactly when the needle occurs somewhere (both directions) |
| Strings.LowerIdempotent | discovery-frontend/src/app/data-preparation/dataset/create-dataset/create-dataset-db-query.component.ts:98 | lower-casing keeps the length and lower-casing twice is lower-casing once |
| SelectList.MakeItems | discovery-frontend/src/app/data-preparation/dataset/create-dataset/create-dataset-db-query.component.ts:617 | the entries pushed for the returned names are one per name, in order, with `idx` its position and not flagged |
| SelectList.Matches | discovery-frontend/src/app/data-preparation/dataset/create-dataset/create-dataset-db-query.component.ts:97-99 | an entry matches exactly when the lower-cased search text occurs somewhere in its lower-cased name |
| SelectList.AllPositions | discovery-frontend/src/app/data-preparation/dataset/create-dataset/create-dataset-db-query.component.ts:90-102 | the unfiltered list is a view that shows every entry |
| SelectList.AllPositionsShowsAll | discovery-frontend/src/app/data-preparation/dataset/create-dataset/create-dataset-db-query.component.ts:90-102 | every entry of the list is in the unfiltered view |
| SelectList.FilterPrefix | discovery-frontend/src/app/data-preparation/dataset/create-dataset/create-dataset-db-query.component.ts:95-99 | `filter` keeps list order, shows each entry at most once, and shows an entry exactly when its name contains the search text, ignoring case |
| SelectList.EmptySearchMatchesAll | discovery-frontend/src/app/data-preparation/dataset/create-dataset/create-dataset-db-query.component.ts:96-99 | every entry matches the empty search text |
| SelectList.FilteredView | discovery-frontend/src/app/data-preparation/dataset/create-dataset/create-dataset-db-query.component.ts:90-118 | the `filteredDbList` / `filteredSchemaList` getters are ordered, duplicate-free views that show an entry exactly when it matches the search text, and the whole list when the search text is empty |
| SelectList.FilteredViewIsMatchingSubsequence | discovery-frontend/src/app/data-preparation/dataset/create-dataset/create-dataset-db-query.component.ts:90-118 | the getter's result is unique: any ordered view that shows exactly the matching entries equals it |
| SelectList.EmptySearchShowsAll | discovery-frontend/src/app/data-preparation/dataset/create-dataset/create-dataset-db-query.component.ts:90-102 | for an empty search text, both the filter and the getter show the whole list in order, so the emptiness guard changes nothing |
| SelectList.MatchesIgnoresNameCase | discovery-frontend/src/app/data-preparation/dataset/create-dataset/create-dataset-db-query.component.ts:97-99 | lower-casing an entry's name first does not change which search texts it matches |
| SelectList.FilterIgnoresSearchCase | discovery-frontend/src/app/data-preparation/dataset/create-dataset/create-dataset-db-query.component.ts:96-99 | lower-casing the search text first does not change the filtered view |
| SelectList.FirstSelected | discovery-frontend/src/app/data-preparation/dataset/create-dataset/create-dataset-db-query.component.ts:452-456 | `findIndex` returns -1 or a flagged position of the view, and no earlier position (none at all for -1) is flagged |
| SelectList.Arrow | discovery-frontend/src/app/data-preparation/dataset/create-dataset/create-dataset-db-query.component.ts:458-506 | the arrow-key flag writes keep the list's length; their meaning is stated by the Arrow lemmas below |
| SelectList.MoveFlag | discovery-frontend/src/app/data-preparation/dataset/create-dataset/create-dataset-db-query.component.ts:447-506 | the key handler's statement-by-statement flag writes and scroll offset for UP and DOWN are exactly `Arrow` |
| SelectList.ArrowTarget | discovery-frontend/src/app/data-preparation/dataset/create-dataset/create-dataset-db-query.component.ts:458-506 | wherever the flag is, the position an arrow key moves it to is a position of the view |
| SelectList.ArrowFlags | discovery-frontend/src/app/data-preparation/dataset/create-dataset/create-dataset-db-query.component.ts:458-506 | on a view of two or more entries, and on a one-entry view for UP or for DOWN with nothing flagged, an entry is flagged afterwards exactly when it is the target, or it was flagged and is not the first flagged entry; so UP or DOWN with nothing flagged flags the last or first entry |
| SelectList.ArrowKeepsSingleSelection | discovery-frontend/src/app/data-preparation/dataset/create-dataset/create-dataset-db-query.component.ts:458-506 | on a view of two or more entries, with at most one flagged entry before, exactly the target is flagged afterwards |
| SelectList.ArrowScroll | discovery-frontend/src/app/data-preparation/dataset/create-dataset/create-dataset-db-query.component.ts:458-506 | the list scrolls to 25 times the target position, except for DOWN with nothing flagged, which does not scroll |
| SelectList.ArrowTouchesOnlyView | discovery-frontend/src/app/data-preparation/dataset/create-dataset/create-dataset-db-query.component.ts:442-506 | only flags change, and only for entries in the view; an empty view changes nothing and does not scroll |
| SelectList.LoneEntryArrows | discovery-frontend/src/app/data-preparation/dataset/create-dataset/create-dataset-db-query.component.ts:486-496 | on a one-entry view whose entry is flagged, DOWN sets and then clears the same flag and leaves nothing flagged, while UP keeps it flagged |
| SelectList.HoverCanFlagTwo | discovery-frontend/src/app/data-preparation/dataset/create-dataset/create-dataset-db-query.component.ts:555-557 | on any view with a flagged entry, mouse-over on a different entry of the view leaves two entries flagged |
| SelectList.Unflagged | discovery-frontend/src/app/data-preparation/dataset/create-dataset/create-dataset-db-query.component.ts:567-571 | after `initSelectedCommand(view)` no entry of the view is flagged, names and indices are kept, and entries outside the view are untouched |
| SelectList.UnflaggedIdempotent | discovery-frontend/src/app/data-preparation/dataset/create-dataset/create-dataset-db-query.component.ts:567-571 | clearing the flags of a view twice is clearing them once |
| SelectList.ClearSelected | discovery-frontend/src/app/data-preparation/dataset/create-dataset/create-dataset-db-query.component.ts:567-571 | the `forEach` loop over the view produces exactly `Unflagged` |
| Preview.GetRows | discovery-frontend/src/app/data-preparation/dataset/create-dataset/create-dataset-db-query.component.ts:716-725 | the row count is kept; rows are returned unchanged unless the first row lacks `id`, in which case every row gains `id` equal to its position, and no other column is lost or changed |
| Preview.GetRowsIdempotent | discovery-frontend/src/app/data-preparation/dataset/create-dataset/create-dataset-db-query.component.ts:716-725 | numbering the rows a second time changes nothing |
| Preview.ResolvedType | discovery-frontend/src/app/data-preparation/dataset/create-dataset/create-dataset-db-query.component.ts:739 | the icon type is the physical or the logical type, and is `UNKNOWN` only when both are |
| Preview.MakeHeader | discovery-frontend/src/app/data-preparation/dataset/create-dataset/create-dataset-db-query.component.ts:735-742 | a header is keyed by its field name, has minimum width 100, is at least 20 wide, and reaches its minimum exactly when the name has eight or more characters |
| Preview.GetHeaders | discovery-frontend/src/app/data-preparation/dataset/create-dataset/create-dataset-db-query.component.ts:734-755 | there is one header per field |
| Preview.HeaderColumns | discovery-frontend/src/app/data-preparation/dataset/create-dataset/create-dataset-db-query.component.ts:734-755 | header i is keyed by field i's name, is 10 per character plus 20 wide, has minimum width 100, and shows the logical type exactly when the physical type is `UNKNOWN` |
| Preview.HeaderWidthAboveMinimum | discovery-frontend/src/app/data-preparation/dataset/create-dataset/create-dataset-db-query.component.ts:744-745 | a column's own width reaches its minimum exactly when its name has at least eight characters |
| DbQueryStep.Restores | discovery-frontend/src/app/data-preparation/dataset/create-dataset/create-dataset-db-query.component.ts:622 | a fresh selection record never restores, a remembered query always does, and without rows only a query does |
| DbQueryStep.TableQuery | discovery-frontend/src/app/data-preparation/dataset/create-dataset/create-dataset-db-query.component.ts:228 | every table query starts with `SELECT * FROM ` |
| DbQueryStep.TableQueryParts | discovery-frontend/src/app/data-preparation/dataset/create-dataset/create-dataset-db-query.component.ts:228 | the recorded table query is `SELECT * FROM `, the database, a dot and the table, and each part can be read back from it |
| DbQueryStep.CreateDatasetDbQuery.constructor | discovery-frontend/src/app/data-preparation/dataset/create-dataset/create-dataset-db-query.component.ts:52-75 | the field initialisers: lists closed and empty, table mode, nothing clickable, empty search texts |
| DbQueryStep.CreateDatasetDbQuery.NgOnInit | discovery-frontend/src/app/data-preparation/dataset/create-dataset/create-dataset-db-query.component.ts:137-153 | a selection record is created only when there is none, the table, database and query are cleared, and the result type is TABLE |
| DbQueryStep.CreateDatasetDbQuery.Next | discovery-frontend/src/app/data-preparation/dataset/create-dataset/create-dataset-db-query.component.ts:163-175 | the step emits `DB` and then opens the naming popup exactly when `clickable`; otherwise it emits nothing |
| DbQueryStep.CreateDatasetDbQuery.OnEnterKeydownHandler | discovery-frontend/src/app/data-preparation/dataset/create-dataset/create-dataset-db-query.component.ts:576-583 | Enter advances exactly when the table list is closed and the step is clickable; other keys do nothing |
| DbQueryStep.CreateDatasetDbQuery.EditorTextChange | discovery-frontend/src/app/data-preparation/dataset/create-dataset/create-dataset-db-query.component.ts:410-418 | after an editor change the query is the editor text and advancing is blocked |
| DbQueryStep.CreateDatasetDbQuery.ShowDatabaseList | discovery-frontend/src/app/data-preparation/dataset/create-dataset/create-dataset-db-query.component.ts:270-277 | the database list is open, the table list closed, and the database search text empty |
| DbQueryStep.CreateDatasetDbQuery.ShowSchemaList | discovery-frontend/src/app/data-preparation/dataset/create-dataset/create-dataset-db-query.component.ts:280-287 | the table list is open, the database list closed, and the table search text empty |
| DbQueryStep.CreateDatasetDbQuery.InitTable | discovery-frontend/src/app/data-preparation/dataset/create-dataset/create-dataset-db-query.component.ts:292-297 | table, database and query are cleared |
| DbQueryStep.CreateDatasetDbQuery.InitQuery | discovery-frontend/src/app/data-preparation/dataset/create-dataset/create-dataset-db-query.component.ts:302-308 | table, query database and query are cleared and the query status is hidden |
| DbQueryStep.CreateDatasetDbQuery.SelectedMethod | discovery-frontend/src/app/data-preparation/dataset/create-dataset/create-dataset-db-query.component.ts:313-336 | choosing the current mode changes nothing; choosing another mode sets it and its result type, removes the grid, closes both lists, clears the table, the database, the query and the query status, blocks advancing, and resets the selection record |
| DbQueryStep.CreateDatasetDbQuery.InitSelectedCommand | discovery-frontend/src/app/data-preparation/dataset/create-dataset/create-dataset-db-query.component.ts:567-571 | the list becomes `Unflagged` through the view, and the other list is unchanged |
| DbQueryStep.CreateDatasetDbQuery.FilteredDbList | discovery-frontend/src/app/data-preparation/dataset/create-dataset/create-dataset-db-query.component.ts:90-103 | the database getter shows each entry at most once, in list order, and shows exactly the entries that match the database search text |
| DbQueryStep.CreateDatasetDbQuery.FilteredSchemaList | discovery-frontend/src/app/data-preparation/dataset/create-dataset/create-dataset-db-query.component.ts:105-118 | the table getter shows each entry at most once, in list order, and shows exactly the entries that match the table search text |
| DbQueryStep.CreateDatasetDbQuery.ListHover | discovery-frontend/src/app/data-preparation/dataset/create-dataset/create-dataset-db-query.component.ts:543-563 | mouse-over flags the hovered entry of the view and leaves the other flags as they were; mouse-out unflags the whole view; the other list is unchanged |
| DbQueryStep.CreateDatasetDbQuery.GetTables | discovery-frontend/src/app/data-preparation/dataset/create-dataset/create-dataset-db-query.component.ts:655-659 | before the lookup, the table list and the table name are cleared |
| DbQueryStep.CreateDatasetDbQuery.OnChangeDatabase | discovery-frontend/src/app/data-preparation/dataset/create-dataset/create-dataset-db-query.component.ts:203-216 | the database is recorded on the draft and its selection record, the table is forgotten, the list closes, the grid is removed, advancing is blocked, the table list is emptied, and the database view is unflagged |
| DbQueryStep.CreateDatasetDbQuery.OnChangeTable | discovery-frontend/src/app/data-preparation/dataset/create-dataset/create-dataset-db-query.component.ts:223-266 | the table and its `SELECT * FROM db.table` query are recorded, the table list closes, and the table view is unflagged |
| DbQueryStep.CreateDatasetDbQuery.OnTableDetail | discovery-frontend/src/app/data-preparation/dataset/create-dataset/create-dataset-db-query.component.ts:236-256 | only a result with fields and rows is stored (as `GetHeaders` / `GetRows`), drawn and unlocks advancing; otherwise the grid is cleared and `clickable` is kept |
| DbQueryStep.CreateDatasetDbQuery.OnTableDetailError | discovery-frontend/src/app/data-preparation/dataset/create-dataset/create-dataset-db-query.component.ts:257-264 | a failed preview lookup clears the grid |
| DbQueryStep.CreateDatasetDbQuery.RunJdbcQuery | discovery-frontend/src/app/data-preparation/dataset/create-dataset/create-dataset-db-query.component.ts:339-366 | without a query nothing changes; otherwise the error text and the grid are cleared and the query is remembered in the selection record |
| DbQueryStep.CreateDatasetDbQuery.OnQueryResult | discovery-frontend/src/app/data-preparation/dataset/create-dataset/create-dataset-db-query.component.ts:367-391 | the status is shown; success, `clickable` and the grid hold exactly when there is no `errorMsg`; an error shows its message; a success stores the headers and rows |
| DbQueryStep.CreateDatasetDbQuery.OnQueryError | discovery-frontend/src/app/data-preparation/dataset/create-dataset/create-dataset-db-query.component.ts:393-406 | a failed query lookup shows its details as a failure, clears the grid and blocks advancing |
| DbQueryStep.CreateDatasetDbQuery.OnTables | discovery-frontend/src/app/data-preparation/dataset/create-dataset/create-dataset-db-query.component.ts:662-679 | tables are appended in order as fresh unflagged entries and a remembered table is restored; no tables empty the list, forget the table and mark the list empty |
| DbQueryStep.CreateDatasetDbQuery.OnTablesError | discovery-frontend/src/app/data-preparation/dataset/create-dataset/create-dataset-db-query.component.ts:680-681 | a failed table lookup empties the table list |
| DbQueryStep.CreateDatasetDbQuery.PushDatabases | discovery-frontend/src/app/data-preparation/dataset/create-dataset/create-dataset-db-query.component.ts:616-618 | the loop appends one unflagged entry per database name, numbered by position, after the entries already there |
| DbQueryStep.CreateDatasetDbQuery.OnDatabases | discovery-frontend/src/app/data-preparation/dataset/create-dataset/create-dataset-db-query.component.ts:613-641 | databases are appended in order; a remembered preview or query restores the mode, the database or the query, and the grid, and unlocks advancing; otherwise the database list opens and the draft is untouched |
| DbQueryStep.CreateDatasetDbQuery.DrawGrid | discovery-frontend/src/app/data-preparation/dataset/create-dataset/create-dataset-db-query.component.ts:696-707 | the grid is drawn and advancing is unlocked |
| DbQueryStep.CreateDatasetDbQuery.OpenList | discovery-frontend/src/app/data-preparation/dataset/create-dataset/create-dataset-db-query.component.ts:431-440 | UP or DOWN opens the list it is about and leaves the other list's visibility as it was |
| DbQueryStep.CreateDatasetDbQuery.ArrowKey | discovery-frontend/src/app/data-preparation/dataset/create-dataset/create-dataset-db-query.component.ts:431-506 | the list is open, the list and the scroll offset are exactly `Arrow` on the view as it was when the key was pressed (nothing moves on an empty view), and the other list is unchanged |
| DbQueryStep.CreateDatasetDbQuery.EnterPressed | discovery-frontend/src/app/data-preparation/dataset/create-dataset/create-dataset-db-query.component.ts:442-445 | Enter on an empty view changes nothing; otherwise it has the effect of `CommitSelected` |
| DbQueryStep.CreateDatasetDbQuery.CommitSelected | discovery-frontend/src/app/data-preparation/dataset/create-dataset/create-dataset-db-query.component.ts:509-533 | with nothing flagged, Enter changes nothing; otherwise the first flagged entry of the view is committed as the database or the table, and the view is unflagged |
| DbQueryStep.CreateDatasetDbQuery.NavigateWithKeyboardShortList | discovery-frontend/src/app/data-preparation/dataset/create-dataset/create-dataset-db-query.component.ts:426-534 | UP and DOWN open the list and move the flag as `Arrow` says; Enter commits the first flagged entry; other keys change nothing |

## Left out

- Network lookups, loading indicators and error alerts: each lookup's completion is a method that takes the lookup's result, and the alerts of the `.catch` branches are not modelled. The `getDatabases` failure only shows an alert, so it has no method.
- `prev()` and `close()` only send popup notifications and clear a service field. They are not part of this model.
- The normalisation of the data connection in `getDatabases`, the connection parameters sent with each lookup, `dsType`, `importType` and the editor `options` are not part of this model. They do not affect the step's state machine.
- DOM effects are not modelled: `stopPropagation`, the focus moved by `setTimeout`, jQuery `scrollTop` (the scroll offset is returned instead), and change detection.
- The grid component is not part of this model. `DbQueryStep.CreateDatasetDbQuery.DrawGrid` draws at once instead of after 400 ms, and `gridShown` records only whether a drawing is in place. The header markup, icon class, behaviour flags and the grid options are not modelled.
- Strings.Lower, Strings.LowerIdempotent, SelectList.Matches, SelectList.MatchesIgnoresNameCase, SelectList.FilterPrefix, SelectList.FilteredView, DbQueryStep.CreateDatasetDbQuery.FilteredDbList and DbQueryStep.CreateDatasetDbQuery.FilteredSchemaList: lower-casing maps only the ASCII letters A-Z, not all of Unicode as JavaScript's `toLowerCase` does, so "ignoring case" holds for ASCII letters only.
- SelectList.FilteredView, DbQueryStep.CreateDatasetDbQuery.FilteredDbList and DbQueryStep.CreateDatasetDbQuery.FilteredSchemaList: the getters filter only when `StringUtil.isNotEmpty` holds of the search text. That helper is not part of this model; it is taken to mean "not the empty string", with no trimming. If it trims, a search text of only spaces shows the whole list in the source but filters on the spaces here.
- Preview.MakeHeader, Preview.HeaderColumns and Preview.HeaderWidthAboveMinimum: a name's length is its number of characters (Unicode scalar values), while `field.name.length` counts UTF-16 code units. The two differ for characters outside the Basic Multilingual Plane: a one-emoji name is 30 wide here and 40 wide in the source.
- Preview.GetRows: the rows are returned as new values, while the source writes `id` into the row objects in place; the aliasing of row objects is not modelled. Cells are integers, strings or null only.
- DbQueryStep.CreateDatasetDbQuery.RunJdbcQuery: a `null` or `undefined` query is modelled as the empty string.
- DbQueryStep.CreateDatasetDbQuery.OnTables and DbQueryStep.CreateDatasetDbQuery.OnDatabases: a missing result object is `None`; a result whose table or database array itself is missing is not modelled.
- DbQueryStep.CreateDatasetDbQuery.NavigateWithKeyboardShortList: the list's key handler and the document-wide Enter handler are separate methods here. When Enter commits an entry, `onChangeDatabase` and `onChangeTable` stop the event's propagation (`create-dataset-db-query.component.ts` lines 207 and 225), so a caller invokes `OnEnterKeydownHandler` after it only for an Enter that commits nothing. Which element the list handler is bound to is set by the template, which is not part of this model.
- `new SelectedInfo()` is taken to leave every field unset, because the `SelectedInfo` domain class is not part of this model.
- The `SlickGridHeader` builder and the `DatasetJdbc` domain type are not part of this model. Only the header fields and draft fields that this step sets are kept.
