/** The "database" step of the create-dataset wizard: the user picks a
    database, then either a table of it or a free-form query, previews the
    resulting rows, and may advance only while `clickable` is set. The step is
    a state machine over the component's fields and over the draft dataset
    (`DatasetJdbc`) the wizard hands it. Network lookups are issued by the
    foreign connection services; each of their completions is a method of its
    own here that takes the lookup's result. */
module DbQueryStep {
  import opened Wrappers
  import opened SelectList
  import opened Preview

  /** How the dataset reads its source: a whole table or a query. */
  datatype RsType = Table | Sql

  /** Which of the two select lists an event is about ('db' or 'schema'). */
  datatype ListKind = Db | Schema

  function Other(kind: ListKind): ListKind
  {
    if kind == Db then Schema else Db
  }

  /** The two mouse events a list entry reports. */
  datatype MouseEvent = MouseOver | MouseOut

  /** What the step tells the wizard: a `typeEmitter` value or a popup
      notification. */
  datatype Emission = TypeEmitted(kind: string) | PopupNotified(name: string)

  /** What `next()` emits, in order. */
  const NextEmissions := [TypeEmitted("DB"), PopupNotified("create-dataset-name")]

  /** What was chosen, kept so that the step can be restored when the user
      comes back to it. An empty string or `None` stands for a field that is
      not set. */
  datatype SelectedInfo = SelectedInfo(
    database: string,
    table: string,
    query: string,
    headers: Option<seq<Header>>,
    rows: Option<seq<Row>>)

  /** `new SelectedInfo()`: nothing chosen. */
  const FreshSelectedInfo := SelectedInfo("", "", "", None, None)

  /** Whether `getDatabases` restores an earlier choice instead of opening
      the database list: a drawn preview, or a query that was run. */
  predicate Restores(info: SelectedInfo): (b: bool)
    ensures info == FreshSelectedInfo ==> !b
    ensures info.query != "" ==> b
    ensures info.rows.None? && info.query == "" ==> !b
  {
    (info.rows.Some? && info.headers.Some?) || info.query != ""
  }

  /** A preview lookup that completed: its fields, its rows and, for a query
      the back end could not run, the `errorMsg` it carries. */
  datatype Detail = Detail(fields: seq<Field>, data: seq<Row>, errorMsg: Option<string>)

  const SelectAllFrom := "SELECT * FROM "

  /** The query `onChangeTable` records for a table of a database. */
  function TableQuery(database: string, table: string): (q: string)
    ensures |q| > |SelectAllFrom| && q[..|SelectAllFrom|] == SelectAllFrom
  {
    SelectAllFrom + database + "." + table
  }

  /** The table query reads back as its prefix, the database, a dot and the
      table, so the database and table can be recovered from it. */
  lemma TableQueryParts(database: string, table: string)
    ensures var q := TableQuery(database, table);
            var n := |SelectAllFrom|;
            && |q| == n + |database| + 1 + |table|
            && q[..n] == SelectAllFrom
            && q[n..n + |database|] == database
            && q[n + |database|] == '.'
            && q[n + |database| + 1..] == table
  {
    var q := TableQuery(database, table);
    var n := |SelectAllFrom|;
    assert q == ((SelectAllFrom + database) + ".") + table;
    assert (SelectAllFrom + database)[n..] == database;
  }

  /** The draft dataset the wizard owns and this step fills in. */
  class DatasetJdbc {
    var databaseName: string
    var tableName: string
    var queryStmt: string
    var rsType: RsType
    var selectedInfo: Option<SelectedInfo>

    /** A draft as the wizard hands it over, possibly with an earlier choice. */
    constructor (selectedInfo: Option<SelectedInfo>)
      ensures this.selectedInfo == selectedInfo
      ensures databaseName == "" && tableName == "" && queryStmt == "" && rsType == Table
    {
      this.selectedInfo := selectedInfo;
      databaseName, tableName, queryStmt, rsType := "", "", "", Table;
    }
  }

  /** `CreateDatasetDbQueryComponent`. */
  class CreateDatasetDbQuery {
    const datasetJdbc: DatasetJdbc

    var isDatabaseListShow: bool
    var isSchemaListShow: bool
    var tableOrQuery: string
    var isQuerySuccess: bool
    var showQueryStatus: bool
    var queryErrorMsg: string
    var databaseList: seq<Item>
    var schemaList: seq<Item>
    var clickable: bool
    var selectedDatabaseQuery: string
    var dbSearchText: string
    var schemaSearchText: string
    var flag: bool
    var clearGrid: bool
    var isTableEmpty: bool
    /** Everything the step has emitted so far. */
    var emitted: seq<Emission>
    /** Whether the preview grid currently holds a drawing (`create`) or not
        (`destroy`). */
    var gridShown: bool

    /** The field initialisers. */
    constructor (datasetJdbc: DatasetJdbc)
      ensures this.datasetJdbc == datasetJdbc
      ensures !isDatabaseListShow && !isSchemaListShow && tableOrQuery == "table"
      ensures !isQuerySuccess && !showQueryStatus && queryErrorMsg == ""
      ensures databaseList == [] && schemaList == [] && !clickable
      ensures selectedDatabaseQuery == "" && dbSearchText == "" && schemaSearchText == ""
      ensures !flag && !clearGrid && !isTableEmpty && emitted == [] && !gridShown
    {
      this.datasetJdbc := datasetJdbc;
      isDatabaseListShow, isSchemaListShow, tableOrQuery := false, false, "table";
      isQuerySuccess, showQueryStatus, queryErrorMsg := false, false, "";
      databaseList, schemaList, clickable := [], [], false;
      selectedDatabaseQuery, dbSearchText, schemaSearchText := "", "", "";
      flag, clearGrid, isTableEmpty, emitted, gridShown := false, false, false, [], false;
    }

    /** Once initialised, the draft has a selection record; and nothing in
        the step ever sets `flag`. */
    ghost predicate Valid()
      reads this, datasetJdbc
    {
      datasetJdbc.selectedInfo.Some? && !flag
    }

    function Info(): SelectedInfo
      reads datasetJdbc
      requires datasetJdbc.selectedInfo.Some?
    {
      datasetJdbc.selectedInfo.value
    }

    function List(kind: ListKind): seq<Item>
      reads this`databaseList, this`schemaList
    {
      if kind == Db then databaseList else schemaList
    }

    function ListShown(kind: ListKind): bool
      reads this`isDatabaseListShow, this`isSchemaListShow
    {
      if kind == Db then isDatabaseListShow else isSchemaListShow
    }

    /** The `filteredDbList` getter. */
    function FilteredDbList(): (r: seq<nat>)
      reads this`databaseList, this`dbSearchText
      ensures IsView(r, |databaseList|)
      ensures forall i {:trigger Matches(databaseList[i], dbSearchText)} :: 0 <= i < |databaseList| ==>
                (i in r <==> Matches(databaseList[i], dbSearchText))
    {
      FilteredView(databaseList, dbSearchText)
    }

    /** The `filteredSchemaList` getter. */
    function FilteredSchemaList(): (r: seq<nat>)
      reads this`schemaList, this`schemaSearchText
      ensures IsView(r, |schemaList|)
      ensures forall i {:trigger Matches(schemaList[i], schemaSearchText)} :: 0 <= i < |schemaList| ==>
                (i in r <==> Matches(schemaList[i], schemaSearchText))
    {
      FilteredView(schemaList, schemaSearchText)
    }

    /** The filtered view of a list, as the template passes it to the list
        handlers. */
    function View(kind: ListKind): seq<nat>
      reads this`databaseList, this`dbSearchText, this`schemaList, this`schemaSearchText
    {
      if kind == Db then FilteredDbList() else FilteredSchemaList()
    }

    /** `ngOnInit`, apart from the database lookup it starts (whose
        completion is `OnDatabases`). */
    method NgOnInit()
      requires !flag
      modifies datasetJdbc
      ensures Valid()
      ensures datasetJdbc.selectedInfo ==
                if old(datasetJdbc.selectedInfo).None? then Some(FreshSelectedInfo)
                else old(datasetJdbc.selectedInfo)
      ensures datasetJdbc.tableName == "" && datasetJdbc.databaseName == ""
      ensures datasetJdbc.queryStmt == "" && datasetJdbc.rsType == Table
    {
      if datasetJdbc.selectedInfo.None? {
        datasetJdbc.selectedInfo := Some(FreshSelectedInfo);
      }
      datasetJdbc.tableName := "";
      datasetJdbc.databaseName := "";
      datasetJdbc.queryStmt := "";
      datasetJdbc.rsType := Table;
    }

    /** `next()`: advances to the naming step only while `clickable`. */
    method Next()
      modifies this`emitted
      ensures emitted == old(emitted) + (if clickable then NextEmissions else [])
    {
      if !clickable {
        return;
      }
      emitted := emitted + [TypeEmitted("DB")];
      emitted := emitted + [PopupNotified("create-dataset-name")];
    }

    /** The document-wide Enter handler: `next()` unless the table list is
        open. The open database list does not stop it: the guard tests the
        table list twice. */
    method OnEnterKeydownHandler(keyCode: int)
      modifies this`emitted
      ensures emitted == old(emitted) +
                if keyCode == EnterKey && !isSchemaListShow && clickable then NextEmissions else []
    {
      if keyCode == EnterKey {
        if !isSchemaListShow && !isSchemaListShow {
          Next();
        }
      }
    }

    /** `editorTextChange`: any editor event blocks advancing and stores the
        editor's text as the query. */
    method EditorTextChange(param: string)
      modifies this`clickable, datasetJdbc`queryStmt
      ensures !clickable
      ensures datasetJdbc.queryStmt == param
    {
      if clickable {
        clickable := !clickable;
      }
      if param != datasetJdbc.queryStmt {
        datasetJdbc.queryStmt := param;
      }
    }

    /** `showDatabaseList`: opens the database list with an empty search. */
    method ShowDatabaseList()
      modifies this`isDatabaseListShow, this`isSchemaListShow, this`dbSearchText
      ensures isDatabaseListShow && !isSchemaListShow && dbSearchText == ""
    {
      isDatabaseListShow := true;
      isSchemaListShow := false;
      dbSearchText := "";
    }

    /** `showSchemaList`: opens the table list with an empty search. */
    method ShowSchemaList()
      modifies this`isDatabaseListShow, this`isSchemaListShow, this`schemaSearchText
      ensures isSchemaListShow && !isDatabaseListShow && schemaSearchText == ""
    {
      isSchemaListShow := true;
      isDatabaseListShow := false;
      schemaSearchText := "";
    }

    /** `initTable`: clears the table, the database and the query. */
    method InitTable()
      modifies datasetJdbc`tableName, datasetJdbc`databaseName, datasetJdbc`queryStmt
      ensures datasetJdbc.tableName == "" && datasetJdbc.databaseName == "" && datasetJdbc.queryStmt == ""
    {
      datasetJdbc.tableName := "";
      datasetJdbc.databaseName := "";
      datasetJdbc.queryStmt := "";
    }

    /** `initQuery`: clears the table, the query's database, the query and
        the query status banner. */
    method InitQuery()
      modifies datasetJdbc`tableName, this`selectedDatabaseQuery, datasetJdbc`queryStmt, this`showQueryStatus
      ensures datasetJdbc.tableName == "" && selectedDatabaseQuery == "" && datasetJdbc.queryStmt == ""
      ensures !showQueryStatus
    {
      datasetJdbc.tableName := "";
      selectedDatabaseQuery := "";
      datasetJdbc.queryStmt := "";
      showQueryStatus := false;
    }

    /** `selectedMethod`: choosing the current mode again changes nothing;
        choosing the other mode resets the whole step. */
    method SelectedMethod(mode: string)
      requires Valid()
      modifies this`tableOrQuery, this`gridShown, this`clickable, this`isDatabaseListShow,
               this`isSchemaListShow, this`selectedDatabaseQuery, this`showQueryStatus,
               datasetJdbc`rsType, datasetJdbc`tableName, datasetJdbc`databaseName,
               datasetJdbc`queryStmt, datasetJdbc`selectedInfo
      ensures Valid()
      ensures old(tableOrQuery) == mode ==> unchanged(this, datasetJdbc)
      ensures old(tableOrQuery) != mode ==>
                && tableOrQuery == mode
                && datasetJdbc.rsType == (if mode == "table" then Table else Sql)
                && datasetJdbc.tableName == "" && datasetJdbc.databaseName == ""
                && datasetJdbc.queryStmt == "" && selectedDatabaseQuery == ""
                && !showQueryStatus && !clickable && !gridShown
                && !isDatabaseListShow && !isSchemaListShow
                && datasetJdbc.selectedInfo == Some(FreshSelectedInfo)
    {
      if tableOrQuery != mode {
        if mode == "table" {
          datasetJdbc.rsType := Table;
        } else {
          datasetJdbc.rsType := Sql;
        }
        tableOrQuery := mode;
        gridShown := false;
        clickable := false;
        isDatabaseListShow := false;
        isSchemaListShow := false;
        InitTable();
        InitQuery();
        datasetJdbc.selectedInfo := Some(FreshSelectedInfo);
      }
    }

    /** Writes a whole list. */
    method SetList(kind: ListKind, items: seq<Item>)
      modifies this`databaseList, this`schemaList
      ensures List(kind) == items
      ensures List(Other(kind)) == old(List(Other(kind)))
    {
      if kind == Db {
        databaseList := items;
      } else {
        schemaList := items;
      }
    }

    /** `initSelectedCommand(view)`: unflags every entry of the view. */
    method InitSelectedCommand(kind: ListKind, view: seq<nat>)
      requires InRange(view, |List(kind)|)
      modifies this`databaseList, this`schemaList
      ensures List(kind) == Unflagged(old(List(kind)), view)
      ensures List(Other(kind)) == old(List(Other(kind)))
    {
      var cleared := ClearSelected(List(kind), view);
      SetList(kind, cleared);
    }

    /** `listHover`: mouse-over flags the hovered entry of the view (and
        leaves the other flags alone); mouse-out unflags the whole view. */
    method ListHover(event: MouseEvent, kind: ListKind, index: nat)
      requires Valid()
      requires index < |View(kind)|
      modifies this`databaseList, this`schemaList
      ensures Valid()
      ensures List(kind) ==
                if event == MouseOver then SetFlag(old(List(kind)), old(View(kind))[index], true)
                else Unflagged(old(List(kind)), old(View(kind)))
      ensures List(Other(kind)) == old(List(Other(kind)))
    {
      var tempList := View(kind);
      if !flag {
        if event == MouseOver {
          SetList(kind, SetFlag(List(kind), tempList[index], true));
        } else {
          InitSelectedCommand(kind, tempList);
        }
      }
    }

    /** The effect of committing database `name` (`onChangeDatabase`), on
        everything the list handler may change. */
    twostate predicate DatabaseCommitted(name: string)
      reads this, datasetJdbc
    {
      && !isDatabaseListShow && isSchemaListShow == old(isSchemaListShow)
      && !gridShown && !clickable
      && databaseList == Unflagged(old(databaseList), old(FilteredDbList()))
      && schemaList == []
      && datasetJdbc.databaseName == name
      && datasetJdbc.tableName == ""
      && datasetJdbc.queryStmt == old(datasetJdbc.queryStmt)
      && old(datasetJdbc.selectedInfo).Some?
      && datasetJdbc.selectedInfo == Some(old(datasetJdbc.selectedInfo).value.(database := name, table := ""))
    }

    /** The effect of committing table `name` (`onChangeTable`), on
        everything the list handler may change. */
    twostate predicate TableCommitted(name: string)
      reads this, datasetJdbc
    {
      && !isSchemaListShow && isDatabaseListShow == old(isDatabaseListShow)
      && gridShown == old(gridShown) && clickable == old(clickable)
      && databaseList == old(databaseList)
      && schemaList == Unflagged(old(schemaList), old(FilteredSchemaList()))
      && datasetJdbc.databaseName == old(datasetJdbc.databaseName)
      && datasetJdbc.queryStmt == TableQuery(old(datasetJdbc.databaseName), name)
      && datasetJdbc.tableName == name
      && old(datasetJdbc.selectedInfo).Some?
      && datasetJdbc.selectedInfo == Some(old(datasetJdbc.selectedInfo).value.(table := name))
    }

    /** The synchronous part of `getTables`: the table list and the table
        name are cleared before the lookup is issued. */
    method GetTables(schema: string)
      modifies this`schemaList, datasetJdbc`tableName
      ensures schemaList == [] && datasetJdbc.tableName == ""
    {
      schemaList := [];
      datasetJdbc.tableName := "";
    }

    /** `onChangeDatabase`: records the database, forgets the table, blocks
        advancing and reloads the table list. */
    method OnChangeDatabase(database: Item)
      requires Valid()
      modifies this`isDatabaseListShow, this`gridShown, this`clickable, this`schemaList,
               this`databaseList, datasetJdbc`databaseName, datasetJdbc`tableName,
               datasetJdbc`selectedInfo
      ensures Valid()
      ensures DatabaseCommitted(database.name)
    {
      ghost var view := FilteredDbList();
      isDatabaseListShow := false;
      gridShown := false;
      datasetJdbc.databaseName := database.name;
      datasetJdbc.selectedInfo := Some(Info().(database := database.name));
      datasetJdbc.selectedInfo := Some(Info().(table := ""));
      clickable := false;
      GetTables(database.name);
      assert databaseList == old(databaseList) && dbSearchText == old(dbSearchText);
      assert FilteredDbList() == view;
      InitSelectedCommand(Db, FilteredDbList());
    }

    /** `onChangeTable`: records the table and its `SELECT *` query; the
        preview lookup's completion is `OnTableDetail`. */
    method OnChangeTable(data: Item)
      requires Valid()
      modifies this`isSchemaListShow, this`schemaList, this`databaseList,
               datasetJdbc`queryStmt, datasetJdbc`tableName, datasetJdbc`selectedInfo
      ensures Valid()
      ensures TableCommitted(data.name)
    {
      isSchemaListShow := false;
      datasetJdbc.queryStmt := TableQuery(datasetJdbc.databaseName, data.name);
      datasetJdbc.tableName := data.name;
      datasetJdbc.selectedInfo := Some(Info().(table := data.name));
      InitSelectedCommand(Schema, FilteredSchemaList());
    }

    /** `_drawGrid`, with the grid drawn at once: it also unlocks advancing. */
    method DrawGrid()
      modifies this`gridShown, this`clickable
      ensures gridShown && clickable
    {
      gridShown := true;
      clickable := true;
    }

    /** The completion of the table preview lookup. Only a result with both
        fields and rows is drawn and unlocks advancing; an empty result clears
        the grid and leaves `clickable` as it was. */
    method OnTableDetail(result: Detail)
      requires Valid()
      modifies this`clearGrid, this`gridShown, this`clickable, datasetJdbc`selectedInfo
      ensures Valid()
      ensures var ready := |result.fields| > 0 && |result.data| > 0;
              && clearGrid == !ready
              && gridShown == ready
              && clickable == (ready || old(clickable))
              && datasetJdbc.selectedInfo ==
                   if ready then Some(old(Info()).(headers := Some(GetHeaders(result.fields)),
                                                   rows := Some(GetRows(result.data))))
                   else old(datasetJdbc.selectedInfo)
    {
      if |result.fields| > 0 && |result.data| > 0 {
        var headers := GetHeaders(result.fields);
        var rows := GetRows(result.data);
        datasetJdbc.selectedInfo := Some(Info().(headers := Some(headers)));
        datasetJdbc.selectedInfo := Some(Info().(rows := Some(rows)));
        clearGrid := false;
        DrawGrid();
        clickable := true;
      } else {
        clearGrid := true;
        gridShown := false;
      }
    }

    /** The failure of the table preview lookup: the grid is cleared. */
    method OnTableDetailError()
      modifies this`clearGrid, this`gridShown
      ensures clearGrid && !gridShown
    {
      clearGrid := true;
      gridShown := false;
    }

    /** `runJdbcQuery`, up to issuing the lookup: nothing happens without a
        query; otherwise the error text and the grid are cleared and the
        query is remembered. Its completions are `OnQueryResult` and
        `OnQueryError`. */
    method RunJdbcQuery()
      requires Valid()
      modifies this`queryErrorMsg, this`gridShown, datasetJdbc`selectedInfo
      ensures Valid()
      ensures old(datasetJdbc.queryStmt) == "" ==> unchanged(this, datasetJdbc)
      ensures old(datasetJdbc.queryStmt) != "" ==>
                && queryErrorMsg == "" && !gridShown
                && datasetJdbc.selectedInfo == Some(old(Info()).(query := datasetJdbc.queryStmt))
    {
      if datasetJdbc.queryStmt == "" {
        return;
      }
      queryErrorMsg := "";
      gridShown := false;
      datasetJdbc.selectedInfo := Some(Info().(query := datasetJdbc.queryStmt));
    }

    /** The completion of the query preview lookup. A result carrying
        `errorMsg` shows that message as a failure and blocks advancing;
        any other result is drawn, reported as a success and unlocks
        advancing, whatever its number of rows. */
    method OnQueryResult(result: Detail)
      requires Valid()
      modifies this`showQueryStatus, this`isQuerySuccess, this`queryErrorMsg, this`clickable,
               this`gridShown, this`clearGrid, datasetJdbc`selectedInfo
      ensures Valid()
      ensures showQueryStatus
      ensures isQuerySuccess == result.errorMsg.None?
      ensures clickable == result.errorMsg.None?
      ensures gridShown == result.errorMsg.None?
      ensures result.errorMsg.Some? ==>
                && queryErrorMsg == result.errorMsg.value
                && clearGrid == old(clearGrid)
                && datasetJdbc.selectedInfo == old(datasetJdbc.selectedInfo)
      ensures result.errorMsg.None? ==>
                && queryErrorMsg == old(queryErrorMsg)
                && !clearGrid
                && datasetJdbc.selectedInfo ==
                     Some(old(Info()).(headers := Some(GetHeaders(result.fields)),
                                       rows := Some(GetRows(result.data))))
    {
      if result.errorMsg.Some? {
        showQueryStatus := true;
        isQuerySuccess := false;
        queryErrorMsg := result.errorMsg.value;
        clickable := false;
        gridShown := false;
        return;
      }
      showQueryStatus := true;
      isQuerySuccess := true;
      var headers := GetHeaders(result.fields);
      var rows := GetRows(result.data);
      datasetJdbc.selectedInfo := Some(Info().(headers := Some(headers)));
      datasetJdbc.selectedInfo := Some(Info().(rows := Some(rows)));
      clearGrid := false;
      DrawGrid();
      clickable := true;
    }

    /** The failure of the query preview lookup: the failure's `details` are
        shown as the query's error and advancing is blocked. */
    method OnQueryError(details: string)
      modifies this`gridShown, this`clearGrid, this`showQueryStatus, this`isQuerySuccess,
               this`queryErrorMsg, this`clickable
      ensures !gridShown && clearGrid && showQueryStatus && !isQuerySuccess
      ensures queryErrorMsg == details && !clickable
    {
      gridShown := false;
      clearGrid := true;
      showQueryStatus := true;
      isQuerySuccess := false;
      queryErrorMsg := details;
      clickable := false;
    }

    /** The completion of the table-list lookup (`data` is `None` when the
        lookup returned no data object). The tables are appended to the
        table list and an earlier table choice is restored; no tables empty
        the list and forget the table. */
    method OnTables(data: Option<seq<string>>)
      requires Valid()
      modifies this`schemaList, this`isTableEmpty, datasetJdbc`tableName, datasetJdbc`selectedInfo
      ensures Valid()
      ensures var loaded := data.Some? && |data.value| > 0;
              && isTableEmpty == !loaded
              && (loaded ==>
                    && schemaList == old(schemaList) + MakeItems(data.value)
                    && datasetJdbc.tableName ==
                         (if old(Info()).table != "" then old(Info()).table else old(datasetJdbc.tableName))
                    && datasetJdbc.selectedInfo == old(datasetJdbc.selectedInfo))
              && (!loaded ==>
                    && schemaList == []
                    && datasetJdbc.tableName == ""
                    && datasetJdbc.selectedInfo == Some(old(Info()).(table := "")))
    {
      if data.Some? && |data.value| > 0 {
        var tables := data.value;
        var index := 0;
        while index < |tables|
          modifies this`schemaList
          invariant 0 <= index <= |tables|
          invariant schemaList == old(schemaList) + MakeItems(tables)[..index]
        {
          schemaList := schemaList + [Item(index, tables[index], false)];
          index := index + 1;
        }
        assert MakeItems(tables)[..|tables|] == MakeItems(tables);
        if Info().table != "" {
          datasetJdbc.tableName := Info().table;
        }
        isTableEmpty := false;
      } else {
        schemaList := [];
        datasetJdbc.tableName := "";
        datasetJdbc.selectedInfo := Some(Info().(table := ""));
        isTableEmpty := true;
      }
    }

    /** The failure of the table-list lookup: the table list is emptied. */
    method OnTablesError()
      modifies this`schemaList
      ensures schemaList == []
    {
      schemaList := [];
    }

    /** Appends one fresh, unflagged entry per database name, in order. */
    method PushDatabases(databases: seq<string>)
      modifies this`databaseList
      ensures databaseList == old(databaseList) + MakeItems(databases)
    {
      var idx := 0;
      while idx < |databases|
        invariant 0 <= idx <= |databases|
        invariant databaseList == old(databaseList) + MakeItems(databases)[..idx]
      {
        databaseList := databaseList + [Item(idx, databases[idx], false)];
        idx := idx + 1;
      }
      assert MakeItems(databases)[..|databases|] == MakeItems(databases);
    }

    /** The completion of the database-list lookup (`data` is `None` when
        the lookup returned no database list). The databases are appended to
        the database list; an earlier choice is then restored (mode, table
        or query, grid) or, without one, the database list is opened. */
    method OnDatabases(data: Option<seq<string>>)
      requires Valid()
      modifies this`databaseList, this`tableOrQuery, this`clearGrid, this`schemaList,
               this`gridShown, this`clickable, this`isDatabaseListShow, this`isSchemaListShow,
               this`dbSearchText, datasetJdbc`tableName, datasetJdbc`databaseName,
               datasetJdbc`queryStmt
      ensures Valid()
      ensures databaseList == old(databaseList) + if data.Some? then MakeItems(data.value) else []
      ensures var info := old(Info());
              Restores(info) ==>
                && tableOrQuery == (if info.query != "" then "query" else "table")
                && gridShown && clickable
                && isDatabaseListShow == old(isDatabaseListShow)
                && isSchemaListShow == old(isSchemaListShow)
                && dbSearchText == old(dbSearchText)
                && (info.query == "" ==>
                      && datasetJdbc.databaseName == info.database
                      && datasetJdbc.tableName == ""
                      && datasetJdbc.queryStmt == old(datasetJdbc.queryStmt)
                      && !clearGrid && schemaList == [])
                && (info.query != "" ==>
                      && datasetJdbc.queryStmt == info.query
                      && datasetJdbc.databaseName == old(datasetJdbc.databaseName)
                      && datasetJdbc.tableName == old(datasetJdbc.tableName)
                      && clearGrid == old(clearGrid) && schemaList == old(schemaList))
      ensures var info := old(Info());
              !Restores(info) ==>
                && isDatabaseListShow && !isSchemaListShow && dbSearchText == ""
                && tableOrQuery == old(tableOrQuery)
                && gridShown == old(gridShown) && clickable == old(clickable)
                && clearGrid == old(clearGrid) && schemaList == old(schemaList)
                && unchanged(datasetJdbc)
    {
      if data.Some? {
        PushDatabases(data.value);
      }
      var info := Info();
      if Restores(info) {
        tableOrQuery := if info.query != "" then "query" else "table";
        if tableOrQuery == "table" {
          datasetJdbc.tableName := info.table;
          datasetJdbc.databaseName := info.database;
          clearGrid := false;
          GetTables(datasetJdbc.databaseName);
        } else {
          datasetJdbc.queryStmt := info.query;
        }
        DrawGrid();
      } else {
        ShowDatabaseList();
      }
    }

    /** The effect of UP (`up`) or DOWN on the list of `kind`: the list is
        open, and it and the scroll offset are as `Arrow` says on its view;
        the other list is untouched. */
    twostate predicate ArrowMoved(kind: ListKind, up: bool, new scroll: Option<int>)
      reads this
    {
      var m := Arrow(old(List(kind)), old(View(kind)), up);
      && scroll == m.scroll
      && List(kind) == m.items
      && List(Other(kind)) == old(List(Other(kind)))
      && ListShown(kind)
      && ListShown(Other(kind)) == old(ListShown(Other(kind)))
    }

    /** The effect of Enter on the list of `kind`: nothing when no entry of
        its view is flagged; otherwise the first flagged entry is committed
        as the database or the table. */
    twostate predicate EnterApplied(kind: ListKind)
      reads this, datasetJdbc
    {
      var items := old(List(kind));
      var view := old(View(kind));
      var idx := FirstSelected(items, view);
      && (idx == -1 ==> unchanged(this, datasetJdbc))
      && (idx != -1 && kind == Db ==> DatabaseCommitted(items[view[idx]].name))
      && (idx != -1 && kind == Schema ==> TableCommitted(items[view[idx]].name))
    }

    /** Opens the list of `kind` if it is closed. */
    method OpenList(kind: ListKind)
      modifies this`isDatabaseListShow, this`isSchemaListShow
      ensures ListShown(kind) && ListShown(Other(kind)) == old(ListShown(Other(kind)))
    {
      if kind == Db {
        if !isDatabaseListShow {
          isDatabaseListShow := true;
        }
      } else {
        if !isSchemaListShow {
          isSchemaListShow := true;
        }
      }
    }

    /** The UP / DOWN part of the list handler: opens the list of `kind`
        and, unless its view (as it was when the key was pressed) is empty,
        moves the flag through that view. */
    method ArrowKey(kind: ListKind, up: bool) returns (scroll: Option<int>)
      modifies this`isDatabaseListShow, this`isSchemaListShow, this`databaseList, this`schemaList
      ensures ArrowMoved(kind, up, scroll)
    {
      var items, view := List(kind), View(kind);
      OpenList(kind);
      if |view| == 0 {
        return None;
      }
      var moved;
      moved, scroll := MoveFlag(items, view, up);
      SetList(kind, moved);
    }

    /** The Enter part of the list handler: commits the first flagged entry
        of the view as the database or the table, then unflags the view. */
    method CommitSelected(kind: ListKind)
      requires Valid()
      modifies this`isDatabaseListShow, this`isSchemaListShow, this`databaseList, this`schemaList,
               this`gridShown, this`clickable, datasetJdbc`databaseName, datasetJdbc`tableName,
               datasetJdbc`queryStmt, datasetJdbc`selectedInfo
      ensures Valid()
      ensures EnterApplied(kind)
    {
      var currentList := View(kind);
      var items := List(kind);
      var idx := FirstSelected(items, currentList);
      if idx == -1 {
        return;
      }
      UnflaggedIdempotent(items, currentList);
      if kind == Db {
        OnChangeDatabase(items[currentList[idx]]);
        assert databaseList == Unflagged(items, currentList);
      } else {
        OnChangeTable(items[currentList[idx]]);
        assert schemaList == Unflagged(items, currentList);
      }
      InitSelectedCommand(kind, currentList);
    }

    /** The Enter part of the list handler: nothing on an empty view,
        otherwise `CommitSelected`. */
    method EnterPressed(kind: ListKind)
      requires Valid()
      modifies this`isDatabaseListShow, this`isSchemaListShow, this`databaseList, this`schemaList,
               this`gridShown, this`clickable, datasetJdbc`databaseName, datasetJdbc`tableName,
               datasetJdbc`queryStmt, datasetJdbc`selectedInfo
      ensures Valid()
      ensures EnterApplied(kind)
    {
      if |View(kind)| == 0 {
        assert FirstSelected(List(kind), View(kind)) == -1;
        return;
      }
      CommitSelected(kind);
    }

    /** `navigateWithKeyboardShortList(event, View(kind), kind)`. UP and DOWN
        open the list and move the flag through the view as `Arrow` says;
        Enter commits the first flagged entry of the view (and does nothing
        when none is flagged, in particular on an empty view); other keys do
        nothing. */
    method NavigateWithKeyboardShortList(keyCode: int, kind: ListKind) returns (scroll: Option<int>)
      requires Valid()
      modifies this`isDatabaseListShow, this`isSchemaListShow, this`databaseList, this`schemaList,
               this`gridShown, this`clickable, datasetJdbc`databaseName, datasetJdbc`tableName,
               datasetJdbc`queryStmt, datasetJdbc`selectedInfo
      ensures Valid()
      ensures keyCode == UpKey || keyCode == DownKey ==>
                && ArrowMoved(kind, keyCode == UpKey, scroll)
                && gridShown == old(gridShown) && clickable == old(clickable)
                && unchanged(datasetJdbc)
      ensures keyCode == EnterKey ==> scroll == None && EnterApplied(kind)
      ensures keyCode != UpKey && keyCode != DownKey && keyCode != EnterKey ==>
                scroll == None && unchanged(this, datasetJdbc)
    {
      scroll := None;
      if keyCode == UpKey || keyCode == DownKey {
        scroll := ArrowKey(kind, keyCode == UpKey);
      } else if keyCode == EnterKey {
        EnterPressed(kind);
      }
    }
  }
}
