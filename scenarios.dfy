/** Clients of the database step that use nothing but its contracts: each
    walks one user story through the step and checks what it ends in. Each
    story is cut into short methods that hand the step on to the next one. */
module DbQueryScenarios {
  import opened Wrappers
  import opened SelectList
  import opened Preview
  import opened DbQueryStep

  /** Databases A and B load into a fresh step; with nothing to restore,
      the database list opens. */
  method DatabasesLoad()
  {
    var draft := new DatasetJdbc(None);
    var step := new CreateDatasetDbQuery(draft);
    step.NgOnInit();
    step.OnDatabases(Some(["A", "B"]));
    assert step.databaseList == [Item(0, "A", false), Item(1, "B", false)];
    assert step.isDatabaseListShow && step.dbSearchText == "";
    FirstDownFlagsFirst(step);
  }

  /** DOWN on the database list with nothing flagged flags its first entry
      and does not scroll. */
  method FirstDownFlagsFirst(step: CreateDatasetDbQuery)
    requires step.Valid()
    requires step.databaseList == [Item(0, "A", false), Item(1, "B", false)] && step.dbSearchText == ""
    modifies step, step.datasetJdbc
  {
    EmptySearchShowsAll(step.databaseList);
    assert step.View(Db) == [0, 1];
    var scroll := step.NavigateWithKeyboardShortList(DownKey, Db);
    assert scroll == None && step.isDatabaseListShow;
    assert step.databaseList == [Item(0, "A", true), Item(1, "B", false)];
    SecondDownMovesFlag(step);
  }

  /** DOWN again moves the flag from A to B and scrolls by one entry. */
  method SecondDownMovesFlag(step: CreateDatasetDbQuery)
    requires step.Valid()
    requires step.databaseList == [Item(0, "A", true), Item(1, "B", false)] && step.dbSearchText == ""
    modifies step, step.datasetJdbc
  {
    EmptySearchShowsAll(step.databaseList);
    assert step.View(Db) == [0, 1];
    assert FirstSelected(step.databaseList, [0, 1]) == 0;
    var scroll := step.NavigateWithKeyboardShortList(DownKey, Db);
    assert scroll == Some(ScrollUnit);
    assert step.databaseList == [Item(0, "A", false), Item(1, "B", true)];
    EnterCommitsFlaggedDatabase(step);
  }

  /** Enter on a database list whose second entry B is flagged: B becomes
      the draft's database, its flag is cleared, the list closes, and the
      table list and preview are emptied. */
  method EnterCommitsFlaggedDatabase(step: CreateDatasetDbQuery)
    requires step.Valid()
    requires step.databaseList == [Item(0, "A", false), Item(1, "B", true)] && step.dbSearchText == ""
    modifies step, step.datasetJdbc
  {
    EmptySearchShowsAll(step.databaseList);
    assert step.View(Db) == [0, 1];
    assert FirstSelected(step.databaseList, [0, 1]) == 1;
    var scroll := step.NavigateWithKeyboardShortList(EnterKey, Db);
    assert scroll == None;
    assert step.datasetJdbc.databaseName == "B" && step.datasetJdbc.tableName == "";
    assert step.schemaList == [] && !step.clickable && !step.gridShown && !step.isDatabaseListShow;
    assert step.databaseList == [Item(0, "A", false), Item(1, "B", false)];
  }

  /** Database B is chosen and its one table T loads. */
  method TablesLoad()
  {
    var draft := new DatasetJdbc(None);
    var step := new CreateDatasetDbQuery(draft);
    step.NgOnInit();
    step.OnChangeDatabase(Item(1, "B", false));
    step.OnTables(Some(["T"]));
    assert step.schemaList == [Item(0, "T", false)] && !step.isTableEmpty;
    assert draft.databaseName == "B" && step.tableOrQuery == "table";
    TablePreviewUnlocksNext(step);
  }

  /** Table T of database B is chosen and previews two fields and three
      rows, which are numbered 0, 1 and 2; the step may then advance. */
  method TablePreviewUnlocksNext(step: CreateDatasetDbQuery)
    requires step.Valid()
    requires step.schemaList == [Item(0, "T", false)] && step.datasetJdbc.databaseName == "B"
    requires step.tableOrQuery == "table"
    modifies step, step.datasetJdbc
  {
    step.OnChangeTable(step.schemaList[0]);
    assert step.datasetJdbc.queryStmt == "SELECT * FROM B.T" && step.datasetJdbc.tableName == "T";
    var fields := [Field("name", "STRING", "STRING"), Field("age", "UNKNOWN", "INTEGER")];
    var rows: seq<Row> := [map["name" := Str("x")], map["name" := Str("y")], map["name" := Str("z")]];
    step.OnTableDetail(Detail(fields, rows, None));
    assert step.clickable && step.gridShown && !step.clearGrid;
    var shown := step.datasetJdbc.selectedInfo.value.rows.value;
    assert |shown| == 3 && shown[0]["id"] == Num(0) && shown[1]["id"] == Num(1) && shown[2]["id"] == Num(2);
    SwitchToQueryResets(step);
  }

  /** A step that may advance does so; switching it to query mode then
      forgets the table, hides the grid and blocks advancing. */
  method SwitchToQueryResets(step: CreateDatasetDbQuery)
    requires step.Valid() && step.clickable && step.tableOrQuery == "table"
    modifies step, step.datasetJdbc
  {
    step.Next();
    assert step.emitted == old(step.emitted) + NextEmissions;
    step.SelectedMethod("query");
    assert !step.clickable && !step.gridShown;
    assert step.datasetJdbc.queryStmt == "" && step.datasetJdbc.tableName == "";
    assert step.datasetJdbc.databaseName == "" && step.datasetJdbc.rsType == Sql;
    step.Next();
    assert step.emitted == old(step.emitted) + NextEmissions;
  }

  /** A query the back end rejects shows its message and blocks advancing;
      the query stays remembered on the draft. */
  method RejectedQuery()
  {
    var draft := new DatasetJdbc(None);
    var step := new CreateDatasetDbQuery(draft);
    step.NgOnInit();
    step.SelectedMethod("query");
    step.EditorTextChange("SELEC 1");
    step.RunJdbcQuery();
    assert draft.selectedInfo == Some(FreshSelectedInfo.(query := "SELEC 1"));
    step.OnQueryResult(Detail([], [], Some("syntax error")));
    assert step.showQueryStatus && !step.isQuerySuccess && !step.clickable;
    assert step.queryErrorMsg == "syntax error";
    step.Next();
    assert step.emitted == [];
    ReopenRestoresQuery(draft);
  }

  /** When the step is opened again on a draft that remembers a query, the
      query is restored in query mode and advancing is unlocked although
      no preview exists; the result type stays TABLE. */
  method ReopenRestoresQuery(draft: DatasetJdbc)
    requires draft.selectedInfo == Some(FreshSelectedInfo.(query := "SELEC 1"))
    modifies draft
  {
    var again := new CreateDatasetDbQuery(draft);
    again.NgOnInit();
    again.OnDatabases(Some([]));
    assert again.tableOrQuery == "query" && draft.queryStmt == "SELEC 1";
    assert again.clickable && draft.selectedInfo.value.rows.None?;
    assert draft.rsType == Table;
  }
}
