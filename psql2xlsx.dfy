/** The body of the program's `main()`: validate the configuration, then for
    each page build the connection string, take the rows the database returns
    for the page's query, write them to a worksheet named after the page and
    set its column widths. `main()` returns True, after closing the
    workbook, only when every page got through; that return value is what
    `Run` models. The configuration file arrives already parsed, the database is
    the function `db` from the number of the connection, a connection string
    and a query to the result it returns (the program opens one connection
    per page, so page `i` talks to connection `i` and two pages with the same
    query may see different rows), and whether the directory part of the output path exists, is a
    directory and may be written is the flag `outputDirWritable`. */
module Psql2Xlsx {
  import opened Cells
  import opened Worksheet
  import opened Config

  /** One section of the parsed configuration file. */
  datatype Section = Section(name: string, options: map<string, string>)

  /** What the database returns for a query: the column names of the cursor
      description and the fetched rows. */
  datatype QueryResult = QueryResult(columns: seq<string>, rows: seq<seq<Value>>)

  /** One worksheet of the output: its name, the writes it received and the
      widths set for columns 0, 1, 2, ... */
  datatype Sheet = Sheet(name: string, writes: seq<CellWrite>, widths: seq<nat>)

  /** The saved workbook. */
  datatype Workbook = Workbook(file: string, fontName: Setting, fontSize: Setting, sheets: seq<Sheet>)

  /** The reasons `main()` returns False. */
  datatype ConfigError =
    | MissingDefaultSection
    | NothingToDo
    | NoOutputFile
    | OutputDirRejected
    | NoFontName
    | NoFontSize
    | PageNameNotSimple(page: string)
    | NoQuery(page: string)

  datatype Result<T, E> = Success(value: T) | Failure(error: E)

  const DefaultName: string := "default"

  predicate HasDefault(ini: seq<Section>)
  {
    exists i :: 0 <= i < |ini| && ini[i].name == DefaultName
  }

  /** The options of the first section called `default`. */
  function DefaultOptions(ini: seq<Section>): (options: map<string, string>)
    requires HasDefault(ini)
    ensures exists i :: 0 <= i < |ini| && ini[i].name == DefaultName && ini[i].options == options
    decreases |ini|
  {
    if ini[0].name == DefaultName then ini[0].options
    else
      assert exists i :: 1 <= i < |ini| && ini[i].name == DefaultName;
      assert HasDefault(ini[1..]) by {
        var i :| 1 <= i < |ini| && ini[i].name == DefaultName;
        assert ini[1..][i - 1] == ini[i];
      }
      DefaultOptions(ini[1..])
  }

  /** The page sections: every section but `default`, in file order. */
  function Pages(ini: seq<Section>): (pages: seq<Section>)
    ensures forall p :: p in pages <==> p in ini && p.name != DefaultName
    decreases |ini|
  {
    if ini == [] then []
    else if ini[0].name == DefaultName then Pages(ini[1..])
    else [ini[0]] + Pages(ini[1..])
  }

  /** Filtering keeps the file order: the pages of two runs of sections are
      the pages of the first followed by those of the second. */
  lemma {:induction false} PagesAppend(a: seq<Section>, b: seq<Section>)
    ensures Pages(a + b) == Pages(a) + Pages(b)
    decreases |a|
  {
    if a != [] {
      assert (a + b)[0] == a[0] && (a + b)[1..] == a[1..] + b;
      PagesAppend(a[1..], b);
    } else {
      assert a + b == b;
    }
  }

  /** A single section is a page exactly when it is not `default`. */
  lemma PagesSingle(s: Section)
    ensures Pages([s]) == if s.name == DefaultName then [] else [s]
  {
    assert [s][1..] == [];
  }

  /** The output path is set: by `-f`, or else by the `default` section. */
  predicate FileGiven(section: map<string, string>, fileArg: string)
  {
    fileArg != "" || ("file" in section && section["file"] != "")
  }

  /** The output path after `-f` has replaced the section's `file`. */
  function OutputFile(section: map<string, string>, fileArg: string): string
    requires FileGiven(section, fileArg)
  {
    if fileArg != "" then fileArg else section["file"]
  }

  /** The directory check on the output path: the path must have a directory
      part, and that directory must exist, be a directory and be writable. */
  predicate OutputDirAccepted(section: map<string, string>, fileArg: string, outputDirWritable: bool)
    requires FileGiven(section, fileArg)
  {
    DirName(OutputFile(section, fileArg)) != "" && outputDirWritable
  }

  /** The configuration passes the checks made before the page loop. */
  predicate GlobalChecksPass(ini: seq<Section>, fileArg: string, outputDirWritable: bool)
  {
    HasDefault(ini) && Pages(ini) != []
    && FileGiven(DefaultOptions(ini), fileArg)
    && OutputDirAccepted(DefaultOptions(ini), fileArg, outputDirWritable)
    && Truthy(DefaultSetting(DefaultOptions(ini), "font_name"))
    && Truthy(DefaultSetting(DefaultOptions(ini), "font_size"))
  }

  /** A page passes its checks: a simple name and a non-empty query of its own. */
  predicate PageAccepted(page: Section)
  {
    MatchesPageName(page.name) && "query" in page.options && page.options["query"] != ""
  }

  /** The position of the first page that fails its checks, or the number
      of pages when every page passes. */
  function FirstRejection(pages: seq<Section>): (i: nat)
    ensures i <= |pages|
    ensures forall k :: 0 <= k < i ==> PageAccepted(pages[k])
    ensures i < |pages| ==> !PageAccepted(pages[i])
    decreases |pages|
  {
    if pages == [] || !PageAccepted(pages[0]) then 0 else 1 + FirstRejection(pages[1..])
  }

  /** The connection string every page uses: a page cannot override the
      connection keys, so it is built from the `default` section alone. */
  function DefaultDsn(section: map<string, string>): string
  {
    Dsn(DefaultSetting(section, "host"), DefaultSetting(section, "port"),
        DefaultSetting(section, "dbname"), DefaultSetting(section, "user"),
        DefaultSetting(section, "password"))
  }

  /** The database returns rows no longer than its column list. */
  predicate WellShaped(r: QueryResult)
  {
    forall i :: 0 <= i < |r.rows| ==> |r.rows[i]| <= |r.columns|
  }

  /** The worksheet page `name` gets for `result`: the header and data writes
      of the result, and each column set to its capped counter. */
  function PageSheet(name: string, result: QueryResult): Sheet
  {
    Sheet(name, HeaderWrites(result.columns) + DataWrites(result.rows),
          seq(|result.columns|, c requires 0 <= c < |result.columns| =>
            FinalWidth(Tracked(result.columns[c], result.rows, c))))
  }

  /** What a page's worksheet holds: the header cells on row 0 in the header
      format, every other write on a data row, no cell written twice, and each
      column between 1 and 100 wide and wide enough for its name and for every
      cell, up to the cap. */
  lemma PageSheetLayout(name: string, result: QueryResult)
    ensures var sheet := PageSheet(name, result);
      sheet.name == name &&
      |sheet.writes| == |result.columns| + CellCount(result.rows) &&
      (forall k :: 0 <= k < |result.columns| ==>
        sheet.writes[k] == CellWrite(0, k, Text(result.columns[k]), HeaderFormat)) &&
      (forall k :: |result.columns| <= k < |sheet.writes| ==>
        1 <= sheet.writes[k].row <= |result.rows| && sheet.writes[k].format != HeaderFormat) &&
      (forall i, j :: 0 <= i < j < |sheet.writes| ==>
        (sheet.writes[i].row, sheet.writes[i].col) != (sheet.writes[j].row, sheet.writes[j].col))
    ensures var sheet := PageSheet(name, result);
      |sheet.widths| == |result.columns| &&
      forall c :: 0 <= c < |result.columns| ==>
        1 <= sheet.widths[c] <= MaxColumnWidth &&
        sheet.widths[c] >= Min(|result.columns[c]| + 1, MaxColumnWidth) &&
        forall i :: 0 <= i < |result.rows| && c < |result.rows[i]| ==>
          sheet.widths[c] >= Min(Classify(result.rows[i][c]).width + 1, MaxColumnWidth)
  {
    WriteLogLayout(result.columns, result.rows);
    WriteLogRowMajor(result.columns, result.rows);
    forall c | 0 <= c < |result.columns|
      ensures
        var w := FinalWidth(Tracked(result.columns[c], result.rows, c));
        w >= Min(|result.columns[c]| + 1, MaxColumnWidth) &&
        forall i :: 0 <= i < |result.rows| && c < |result.rows[i]| ==>
          w >= Min(Classify(result.rows[i][c]).width + 1, MaxColumnWidth)
    {
      ColumnFitsEveryCell(result.columns[c], result.rows, c);
    }
  }

  /** The configuration holds the five connection keys. */
  predicate HasConnectionKeys(cfg: map<string, Setting>)
  {
    "host" in cfg && "port" in cfg && "dbname" in cfg && "user" in cfg && "password" in cfg
  }

  /** What the page loop relies on in the defaults: the connection keys are
      there and no query is, so a page's query is always its own. Every
      result of `ResolveDefaults` has both. */
  predicate PageLoopDefaults(cfg: map<string, Setting>)
  {
    HasConnectionKeys(cfg) && "query" !in cfg
  }

  /** The connection string of a resolved configuration. */
  function ConfigDsn(cfg: map<string, Setting>): string
    requires HasConnectionKeys(cfg)
  {
    Dsn(cfg["host"], cfg["port"], cfg["dbname"], cfg["user"], cfg["password"])
  }

  /** The checks and overlays before the page loop: the `default` section and
      at least one page must exist, the default dictionary is overlaid by the
      section, `-f` replaces the output path, and the output path, its
      directory, the font name and the font size must pass. */
  method ResolveDefaults(ini: seq<Section>, fileArg: string, outputDirWritable: bool)
    returns (r: Result<map<string, Setting>, ConfigError>)
    ensures r == Failure(MissingDefaultSection) <==> !HasDefault(ini)
    ensures r == Failure(NothingToDo) <==> HasDefault(ini) && Pages(ini) == []
    ensures r == Failure(NoOutputFile) <==>
      HasDefault(ini) && Pages(ini) != [] && !FileGiven(DefaultOptions(ini), fileArg)
    ensures r == Failure(OutputDirRejected) <==>
      HasDefault(ini) && Pages(ini) != [] && FileGiven(DefaultOptions(ini), fileArg)
      && !OutputDirAccepted(DefaultOptions(ini), fileArg, outputDirWritable)
    ensures r == Failure(NoFontName) <==>
      HasDefault(ini) && Pages(ini) != [] && FileGiven(DefaultOptions(ini), fileArg)
      && OutputDirAccepted(DefaultOptions(ini), fileArg, outputDirWritable)
      && !Truthy(DefaultSetting(DefaultOptions(ini), "font_name"))
    ensures r == Failure(NoFontSize) <==>
      HasDefault(ini) && Pages(ini) != [] && FileGiven(DefaultOptions(ini), fileArg)
      && OutputDirAccepted(DefaultOptions(ini), fileArg, outputDirWritable)
      && Truthy(DefaultSetting(DefaultOptions(ini), "font_name"))
      && !Truthy(DefaultSetting(DefaultOptions(ini), "font_size"))
    ensures r.Failure? ==> !r.error.PageNameNotSimple? && !r.error.NoQuery?
    ensures r.Success? <==> GlobalChecksPass(ini, fileArg, outputDirWritable)
    ensures r.Success? ==>
      r.value.Keys == DefaultConfig.Keys
      && (forall k :: k in DefaultConfig && k != "file" ==> r.value[k] == DefaultSetting(DefaultOptions(ini), k))
      && r.value["file"] == Str(OutputFile(DefaultOptions(ini), fileArg))
  {
    if !HasDefault(ini) {
      return Failure(MissingDefaultSection);
    }
    if Pages(ini) == [] {
      return Failure(NothingToDo);
    }
    var section := DefaultOptions(ini);
    var defaults := OverlayDefaults(section, fileArg);
    if !Truthy(defaults["file"]) {
      return Failure(NoOutputFile);
    }
    if !(DirName(Render(defaults["file"])) != "" && outputDirWritable) {
      return Failure(OutputDirRejected);
    }
    if !Truthy(defaults["font_name"]) {
      return Failure(NoFontName);
    }
    if !Truthy(defaults["font_size"]) {
      return Failure(NoFontSize);
    }
    r := Success(defaults);
  }

  /** The built-in dictionary overlaid by the `default` section, then `file`
      replaced by a non-empty `-f`. The output path is set exactly when the
      result's `file` is truthy, and it is then that path. */
  method OverlayDefaults(section: map<string, string>, fileArg: string)
    returns (defaults: map<string, Setting>)
    ensures defaults.Keys == DefaultConfig.Keys
    ensures forall k :: k in DefaultConfig && k != "file" ==> defaults[k] == DefaultSetting(section, k)
    ensures Truthy(defaults["file"]) <==> FileGiven(section, fileArg)
    ensures FileGiven(section, fileArg) ==> defaults["file"] == Str(OutputFile(section, fileArg))
  {
    defaults := ApplyDefaultSection(section);
    if fileArg != "" {
      defaults := defaults["file" := Str(fileArg)];
    }
  }

  /** One page's worksheet: the header and data loop, then the width loop. */
  method WritePage(name: string, result: QueryResult) returns (sheet: Sheet)
    requires WellShaped(result)
    ensures sheet == PageSheet(name, result)
  {
    var writes, lengths := WriteResult(result.columns, result.rows);
    var widths := ColumnWidths(lengths);
    sheet := Sheet(name, writes, widths);
  }

  /** One turn of the page loop: the page's configuration is resolved, its
      name and query are checked, and, when both pass, its query is run on
      connection number `index`, to the database the defaults describe, and
      the result written. */
  method ProcessPage(page: Section, index: nat, defaults: map<string, Setting>,
                     db: (nat, string, string) -> QueryResult)
    returns (r: Result<Sheet, ConfigError>)
    requires PageLoopDefaults(defaults)
    requires forall n, dsn, query :: WellShaped(db(n, dsn, query))
    ensures r.Success? <==> PageAccepted(page)
    ensures r.Failure? ==>
      (r.error == PageNameNotSimple(page.name) && !MatchesPageName(page.name)) ||
      (r.error == NoQuery(page.name) && MatchesPageName(page.name))
    ensures r.Success? ==>
      r.value == PageSheet(page.name, db(index, ConfigDsn(defaults), page.options["query"]))
  {
    var cfg := ResolvePage(defaults, page.options);
    if !MatchesPageName(page.name) {
      return Failure(PageNameNotSimple(page.name));
    }
    if !HasQuery(cfg) {
      return Failure(NoQuery(page.name));
    }
    assert cfg["host"] == defaults["host"] && cfg["port"] == defaults["port"];
    assert cfg["dbname"] == defaults["dbname"] && cfg["user"] == defaults["user"];
    assert cfg["password"] == defaults["password"];
    var dsn := Dsn(cfg["host"], cfg["port"], cfg["dbname"], cfg["user"], cfg["password"]);
    assert dsn == ConfigDsn(defaults);
    var sheet := WritePage(page.name, db(index, dsn, Render(cfg["query"])));
    r := Success(sheet);
  }

  /** The page loop: the pages in file order; the first one that fails its
      checks stops the loop. */
  method WritePages(pages: seq<Section>, defaults: map<string, Setting>,
                    db: (nat, string, string) -> QueryResult)
    returns (r: Result<seq<Sheet>, ConfigError>)
    requires PageLoopDefaults(defaults)
    requires forall n, dsn, query :: WellShaped(db(n, dsn, query))
    ensures r.Success? <==> forall i :: 0 <= i < |pages| ==> PageAccepted(pages[i])
    ensures r.Failure? ==> r.error.PageNameNotSimple? || r.error.NoQuery?
    ensures r.Failure? ==>
      var i := FirstRejection(pages);
      i < |pages| && r.error.page == pages[i].name &&
      (r.error.PageNameNotSimple? <==> !MatchesPageName(pages[i].name))
    ensures r.Success? ==>
      |r.value| == |pages| &&
      forall i :: 0 <= i < |pages| ==>
        r.value[i] == PageSheet(pages[i].name, db(i, ConfigDsn(defaults), pages[i].options["query"]))
  {
    var sheets: seq<Sheet> := [];
    for i := 0 to |pages|
      invariant |sheets| == i
      invariant forall k :: 0 <= k < i ==> PageAccepted(pages[k])
      invariant forall k :: 0 <= k < i ==>
        sheets[k] == PageSheet(pages[k].name, db(k, ConfigDsn(defaults), pages[k].options["query"]))
    {
      var sheet := ProcessPage(pages[i], i, defaults, db);
      if sheet.Failure? {
        assert FirstRejection(pages) == i;
        return Failure(sheet.error);
      }
      sheets := sheets + [sheet.value];
    }
    r := Success(sheets);
  }

  /** `main()`'s outcome from the parsed configuration: the workbook its
      explicit `close()` saves when it returns True, or the reason it returns
      False. */
  method Run(ini: seq<Section>, fileArg: string, outputDirWritable: bool,
             db: (nat, string, string) -> QueryResult)
    returns (r: Result<Workbook, ConfigError>)
    requires forall n, dsn, query :: WellShaped(db(n, dsn, query))
    ensures r == Failure(MissingDefaultSection) <==> !HasDefault(ini)
    ensures r == Failure(NothingToDo) <==> HasDefault(ini) && Pages(ini) == []
    ensures r == Failure(NoOutputFile) <==>
      HasDefault(ini) && Pages(ini) != [] && !FileGiven(DefaultOptions(ini), fileArg)
    ensures r == Failure(OutputDirRejected) <==>
      HasDefault(ini) && Pages(ini) != [] && FileGiven(DefaultOptions(ini), fileArg)
      && !OutputDirAccepted(DefaultOptions(ini), fileArg, outputDirWritable)
    ensures r == Failure(NoFontName) <==>
      HasDefault(ini) && Pages(ini) != [] && FileGiven(DefaultOptions(ini), fileArg)
      && OutputDirAccepted(DefaultOptions(ini), fileArg, outputDirWritable)
      && !Truthy(DefaultSetting(DefaultOptions(ini), "font_name"))
    ensures r == Failure(NoFontSize) <==>
      HasDefault(ini) && Pages(ini) != [] && FileGiven(DefaultOptions(ini), fileArg)
      && OutputDirAccepted(DefaultOptions(ini), fileArg, outputDirWritable)
      && Truthy(DefaultSetting(DefaultOptions(ini), "font_name"))
      && !Truthy(DefaultSetting(DefaultOptions(ini), "font_size"))
    ensures r.Failure? && (r.error.PageNameNotSimple? || r.error.NoQuery?) ==>
      GlobalChecksPass(ini, fileArg, outputDirWritable) &&
      var i := FirstRejection(Pages(ini));
      i < |Pages(ini)| && r.error.page == Pages(ini)[i].name &&
      (r.error.PageNameNotSimple? <==> !MatchesPageName(Pages(ini)[i].name))
    ensures r.Success? <==>
      GlobalChecksPass(ini, fileArg, outputDirWritable) &&
      forall i :: 0 <= i < |Pages(ini)| ==> PageAccepted(Pages(ini)[i])
    ensures r.Success? ==>
      r.value.file == OutputFile(DefaultOptions(ini), fileArg)
      && r.value.fontName == DefaultSetting(DefaultOptions(ini), "font_name")
      && r.value.fontSize == DefaultSetting(DefaultOptions(ini), "font_size")
      && |r.value.sheets| == |Pages(ini)|
      && forall i :: 0 <= i < |Pages(ini)| ==>
           r.value.sheets[i] == PageSheet(Pages(ini)[i].name,
                    db(i, DefaultDsn(DefaultOptions(ini)), Pages(ini)[i].options["query"]))
  {
    var resolved := ResolveDefaults(ini, fileArg, outputDirWritable);
    if resolved.Failure? {
      return Failure(resolved.error);
    }
    var defaults := resolved.value;
    QueryIsNoDefault();
    assert PageLoopDefaults(defaults);
    assert ConfigDsn(defaults) == DefaultDsn(DefaultOptions(ini));
    var pages := WritePages(Pages(ini), defaults, db);
    if pages.Failure? {
      return Failure(pages.error);
    }
    r := Success(Workbook(Render(defaults["file"]), defaults["font_name"], defaults["font_size"], pages.value));
  }
}
