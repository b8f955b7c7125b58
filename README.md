# psql2xlsx in Dafny

`psql2xlsx.py` saves the results of PostgreSQL queries to an `.xlsx` workbook.
A `config.ini` file has a `default` section, which holds the connection
settings, the output file and the font, and one section per worksheet
("page"), which holds that page's `query`. `main()` does five things:

- it validates and overlays the configuration;
- for each page, it builds a libpq connection string;
- it runs the page's query;
- it writes a header row and the data rows to a worksheet named after the
  page, picking a cell format by the value's type and tracking the widest
  cell of each column;
- it sets every column to that width plus one, capped at 100.

This project models that logic and proves its properties. It is split into
five modules:

- `PyStr` (`pystr.dfy`): Python's `str()` of an integer, which is needed for
  the width of integer cells and for the port in the connection string. It
  comes with a parse-back round trip and a digit-count bound.
- `Cells` (`cells.dfy`): the values a query returns, as a tagged datatype,
  and the fixed-precedence `isinstance` dispatch to a cell format and a width.
- `Worksheet` (`sheet.dfy`): the sheet as a log of `write(row, col, value,
  format)` calls, plus three loops:
  - `WriteResult`, the header loop and the data loop;
  - `WriteRow`, one turn of the data loop;
  - `ColumnWidths`, the width loop.

  Each loop is proved against a specification function (`HeaderWrites`,
  `DataWrites`, `Tracked`, `FinalWidth`). The lemmas give the layout, the
  order and the width bounds.
- `Config` (`config.dfy`): the built-in default dictionary and its two
  overlay loops, the page-name pattern `^([\w\- ]+)$`, and the connection
  string.
- `Psql2Xlsx` (`psql2xlsx.dfy`): `main()` itself.
  - `ResolveDefaults` makes the checks before the page loop.
  - `ProcessPage` and `WritePages` form the page loop.
  - `Run` is the whole program, as `main()`'s return value. It returns the
    workbook that the explicit `close()` saves, or the first reason `main()`
    returns False.

External inputs become parameters:

- The parsed configuration file is `ini`, a sequence of sections, each a
  name and an option map.
- The `-f` argument is `fileArg`, where `""` means it was not given.
- The directory check on the output path is split in two. The model computes the directory part with `DirName`, which is `os.path.dirname` on POSIX; an empty one is rejected, as the source does. Whether that directory exists, is a directory and is writable is the flag `outputDirWritable`.
- The database is a function `db` from the number of the connection, a
  connection string and a query to the column names and the fetched rows.
  The program opens a fresh connection for every page (psql2xlsx.py:140), so
  page `i` of the loop is answered by connection `i`. Two pages with the same
  query need not see the same rows (`now()`, `random()`, sequences).

## Model

| member | source | states |
|---|---|---|
| Cells.Rendering | psql2xlsx.py:172 | definition: `str(value)` for the values that reach the default branch: `None`, the text itself, the digits of an integer, `True`/`False`, or the carried rendering; its widths are stated by `Classify` |
| PyStr.Digits | psql2xlsx.py:172 | the decimal rendering of a natural number is non-empty and made of digit characters |
| PyStr.IntToString | psql2xlsx.py:172 | `str(n)` is non-empty and starts with `-` exactly when `n` is negative |
| PyStr.DigitsRoundTrip | psql2xlsx.py:172 | reading back the digits of `n` gives `n` |
| PyStr.IntToStringRoundTrip | psql2xlsx.py:172 | `int(str(n)) == n` for every integer; the rendering loses nothing |
| PyStr.DigitsLength | psql2xlsx.py:172 | a number with `k` digits lies in `[10^(k-1), 10^k)`, and its rendering has no leading zero |
| Cells.Classify | psql2xlsx.py:160-172 | the dispatch precedence: a timestamp always gets the datetime format and width 19 and never the date format; a time gets width 8; a date gets width 10; every other value is written without a format, with the width of `str(value)` (4 for `None`, 4 or 5 for booleans); no data cell gets the header format |
| Cells.IntWidth | psql2xlsx.py:172 | an integer cell contributes its digit count plus one for a minus sign, and its magnitude is below `10` to that many digits |
| Worksheet.HeaderWrites | psql2xlsx.py:151-152 | definition: column `i`'s name written at `(0, i)` in the header format, for every column; its properties are `WriteLogLayout` and `WriteLogRowMajor` |
| Worksheet.RowWrites | psql2xlsx.py:156-171 | definition: the cells of one row from column 0 at its sheet row, each with the format `Classify` picks; its properties are `WriteRow` and `DataWriteAt` |
| Worksheet.DataWrites | psql2xlsx.py:154-171 | definition: the writes of all rows in order, result row `i` on sheet row `i + 1`; its properties are `DataWriteAt`, `DataWritesLength`, `DataWritesBelowHeader` and `DataWritesRowMajor` |
| Worksheet.Tracked | psql2xlsx.py:148-175 | definition: a column's counter after the given rows, starting at the name's length and raised to each larger cell width; its properties are `TrackedIsUpperBound`, `TrackedIsAttained` and `TrackedMonotone` |
| Worksheet.FinalWidth | psql2xlsx.py:180-183 | the width set for a counter is `min(counter + 1, 100)` and always lies in `1..100` |
| Worksheet.WriteResult | psql2xlsx.py:148-175 | the header loop and the data loop produce exactly the header writes followed by the data writes, and each column's counter ends at the maximum of its name's length and every width contributed in that column |
| Worksheet.WriteRow | psql2xlsx.py:155-175 | one data row writes its cells from column 0 at sheet row `i + 1`, and raises each column counter to the cell's width exactly when that is larger |
| Worksheet.DataWritesStep | psql2xlsx.py:154-156 | one more result row appends exactly that row's writes to the log |
| Worksheet.TrackedStep | psql2xlsx.py:174-175 | one more result row raises a counter to the maximum of its old value and the row's cell width |
| Worksheet.ColumnWidths | psql2xlsx.py:179-185 | the width loop sets each column to the capped value of its counter |
| Worksheet.DataWritesLength | psql2xlsx.py:154-156 | the data log has one write per cell of the result |
| Worksheet.DataWriteAt | psql2xlsx.py:154-172 | cell `j` of result row `i` is written at sheet row `i + 1`, column `j`, with the value itself and the dispatched format |
| Worksheet.DataWritesBelowHeader | psql2xlsx.py:154-156 | every data write lies on a sheet row from 1 to the number of result rows, so none lands on row 0, and none uses the header format |
| Worksheet.DataWritesRowMajor | psql2xlsx.py:154-156 | the data writes come in row-major order |
| Worksheet.WriteLogRowMajor | psql2xlsx.py:151-156 | the whole log is in row-major order, so no cell of a sheet is written twice |
| Worksheet.WriteLogLayout | psql2xlsx.py:151-156 | the log has one write per header cell and per data cell; header cell `k` is the name of column `k` at `(0, k)` in the header format; everything after the header is below row 0 and not in the header format |
| Worksheet.LayoutAt | psql2xlsx.py:151-172 | cell `j` of result row `i` is the write at position (number of columns) + (number of cells before row `i`) + `j` of the whole log |
| Worksheet.TrackedIsUpperBound | psql2xlsx.py:148-175 | the final counter is at least the name's length and at least every width contributed in the column |
| Worksheet.TrackedIsAttained | psql2xlsx.py:148-175 | the final counter equals the name's length or the width of some cell of the column |
| Worksheet.TrackedMonotone | psql2xlsx.py:174-175 | a counter never decreases as more rows are written |
| Worksheet.ColumnFitsEveryCell | psql2xlsx.py:148-185 | the final width is at least one more than the name and than every cell, up to the cap of 100, and below the cap it is exactly one more than one of them |
| Config.Truthy | psql2xlsx.py:73 | definition: Python truthiness of a setting, as in the `not x` and `if x` tests at lines 73, 82, 87, 127 and 136: the empty string, zero and `None` are false |
| Config.Render | psql2xlsx.py:132-136 | definition: `'{}'.format(v)` of a setting: the string itself, `str` of a number (a minus sign, then its digits), `None` for no value |
| Config.HasQuery | psql2xlsx.py:127 | definition: the resolved page has a `query` key with a truthy value |
| Config.DefaultConfig | psql2xlsx.py:49-58 | definition: the built-in dictionary with its eight keys and values |
| Config.DefaultSetting | psql2xlsx.py:59-64 | definition: a built-in key's value after the `default` section: the section's string when it sets the key, else the built-in value; `ApplyDefaultSection` is proved against it |
| Config.QueryIsNoDefault | psql2xlsx.py:49-58 | the built-in default dictionary has no `query` key |
| Config.ApplyDefaultSection | psql2xlsx.py:49-64 | the overlay keeps exactly the built-in keys; each key the `default` section sets takes the section's string; every other key keeps its built-in value; keys the section adds are ignored |
| Config.ResolvePage | psql2xlsx.py:107-111 | a page configuration has the default keys plus exactly the page's other keys; every default key keeps its default value, so a page cannot override it; every added key holds the page's string |
| Config.DirName | psql2xlsx.py:78 | `os.path.dirname` of the output path is a prefix of the path, and it is empty exactly when the path has no `/` |
| Config.DirNameExamples | psql2xlsx.py:78 | a bare file name such as `out.xlsx` has an empty directory part, which the directory check rejects; `/tmp/out.xlsx` has one |
| Config.MatchesPageName | psql2xlsx.py:121-122 | definition: `re.search('^([\w\- ]+)$', name)` in terms of the greedy run `NameRun`; the names it accepts are stated by `PageNamePattern` |
| Config.NameRun | psql2xlsx.py:121-122 | the greedy `[\w\- ]+` run: every character it covers is a name character, and the first character after it is not |
| Config.PageNamePattern | psql2xlsx.py:121-124 | a page name passes the pattern exactly when it is a non-empty run of word characters, `-` and space, optionally followed by a single newline, where `$` also matches |
| Config.Dsn | psql2xlsx.py:132-136 | definition: the two format strings filled with the host, port, database, user and the password when truthy; its properties are `DsnIsFieldList` and `DsnPassword` |
| Config.DsnIsFieldList | psql2xlsx.py:132-136 | the connection string is exactly the five fields `host='H'`, `port=P`, `dbname='D'`, `user='U'` and `password='W'`, joined by single spaces in this order, and every field is present whatever its value |
| Config.FormatIsFieldList | psql2xlsx.py:132-136 | the two format strings, filled with plain strings, are that space-joined field list |
| Config.JoinFive | psql2xlsx.py:132-136 | five fields joined by single spaces |
| Config.DsnPassword | psql2xlsx.py:136 | the connection string ends with `password='W'` for a truthy password, which is never empty, and with `password=''` for a falsy one (`None` or empty) |
| Config.FormatTail | psql2xlsx.py:136 | the format string ends with the password field |
| Psql2Xlsx.DefaultOptions | psql2xlsx.py:42-64 | the options read for the defaults are those of a section named `default` |
| Psql2Xlsx.Pages | psql2xlsx.py:45-47 | the pages are exactly the sections not named `default` |
| Psql2Xlsx.PagesAppend | psql2xlsx.py:105 | the page filter keeps the file order and every occurrence: the pages of `a + b` are the pages of `a` followed by those of `b` |
| Psql2Xlsx.PagesSingle | psql2xlsx.py:105 | a single section is a page exactly when it is not named `default` |
| Psql2Xlsx.FileGiven | psql2xlsx.py:71-75 | definition: the output path is set, by a non-empty `-f` or else by a non-empty `file` in the `default` section |
| Psql2Xlsx.OutputFile | psql2xlsx.py:71-72 | definition: the output path, `-f` when given and else the section's `file` |
| Psql2Xlsx.OutputDirAccepted | psql2xlsx.py:78-79 | definition: the directory check passes when the output path has a directory part and that directory is usable |
| Psql2Xlsx.GlobalChecksPass | psql2xlsx.py:42-89 | definition: every global check passes: a `default` section, a page, an output file, an accepted output directory, a truthy font name and font size; `ResolveDefaults` and `Run` are proved to pass them exactly then |
| Psql2Xlsx.ConfigDsn | psql2xlsx.py:132-136 | definition: the connection string of a resolved page configuration, from its host, port, database, user and password; `ProcessPage` is proved to query the database with it |
| Psql2Xlsx.DefaultDsn | psql2xlsx.py:132-136 | definition: the connection string built from the `default` section's overlay of the built-in connection settings; `Run` is proved to use it for every page |
| Psql2Xlsx.PageAccepted | psql2xlsx.py:121-129 | definition: a page passes its checks when its name matches the pattern and it has a non-empty query of its own; `ProcessPage` is proved to succeed exactly then |
| Psql2Xlsx.FirstRejection | psql2xlsx.py:105-129 | the position of the first page that fails its checks: every page before it passes, and the page at it fails |
| Psql2Xlsx.PageSheet | psql2xlsx.py:147-185 | definition: the worksheet a page gets, with the page's name, the header and data writes of its result, and each column's capped counter; its properties are `PageSheetLayout` |
| Psql2Xlsx.PageSheetLayout | psql2xlsx.py:147-185 | a page's worksheet has its name; header cell `k` is column `k`'s name at `(0, k)` in the header format; every other write lies on a data row from 1 to the number of rows and is not in the header format; no cell is written twice; every column width is in `1..100`, and is at least one more than the name and than every cell of the column, up to the cap |
| Psql2Xlsx.ResolveDefaults | psql2xlsx.py:42-89 | each of the six early exits (no `default` section, no page, no output file, an output path without a directory part or with an unusable directory, empty font name, empty font size) happens exactly when its condition holds and all earlier checks pass; success happens exactly when all pass; on success the configuration has the built-in keys with the section's overlay, and `file` is the `-f` argument when given |
| Psql2Xlsx.OverlayDefaults | psql2xlsx.py:59-72 | the built-in keys with the `default` section's overlay; the output path is set exactly when `file` ends up truthy, and `file` is then `-f` when given, else the section's value |
| Psql2Xlsx.WritePage | psql2xlsx.py:147-185 | a page's worksheet is `PageSheet` of its name and its query's result |
| Psql2Xlsx.ProcessPage | psql2xlsx.py:105-185 | a page succeeds exactly when its name passes the pattern and it has a non-empty query of its own; it fails with the name error when the name fails, else with the query error; on success it gets the worksheet of its query, run on connection number `index` with the connection string of the defaults; a success assumes `add_worksheet` accepts the name |
| Psql2Xlsx.WritePages | psql2xlsx.py:105-185 | the page loop succeeds exactly when every page passes; otherwise it stops at the first page that fails, with that page's name and error; on success page `i` gets the worksheet of its own query on connection `i`; a success assumes every `add_worksheet` call accepts its name |
| Psql2Xlsx.Run | psql2xlsx.py:26-191 | given that the database, every `add_worksheet` call and every cell write succeed, `main()` returns True, after closing the workbook, exactly when every global check and every page passes; otherwise it reports the first failing check, the reason `main()` returns False, with the failing page for page errors; the closed workbook has the resolved file name and font and one worksheet per page in file order, each the result of the page's query on its own connection, with the connection string built from the `default` section |

## Left out
- Psql2Xlsx.Run, Psql2Xlsx.WritePages: on a page error (psql2xlsx.py:122-124, 127-129) `main()` returns False without calling `close()`, but the workbook was created at line 92. The spreadsheet library's documented destructor closes a workbook left open, so the file is probably still written when `main()` returns. It would hold the worksheets of the pages before the rejected one, or the library's blank default sheet when there are none, and it overwrites any existing file. The model's page-error result carries no workbook and does not describe that file. The global checks (psql2xlsx.py:42-89) all run before line 92, so their exits leave no file.
- Argument parsing and reading the configuration file (psql2xlsx.py:29-41) are library code. The parsed sections are the input `ini`, and an absent `-f` is `fileArg == ""`.
- Configuration parser features are not modelled: value interpolation, inheritance from `[DEFAULT]`, lower-casing of option names, and duplicate-section errors. With this left out, `ini` may repeat a section name; the model takes the first `default` section.
- The generic exception branches of both overlay loops (psql2xlsx.py:65-68, 114-117) are not modelled. They only catch errors raised by the configuration parser, such as a bad interpolation. Under the parser's default interpolation, a lone `%` in a value read there makes `main()` return False: a password such as `50%off` (read at psql2xlsx.py:62) or a query with `LIKE 'a%'` (read at psql2xlsx.py:111). The model takes both values as written, so `ResolveDefaults`, `ProcessPage` and `Run` accept them.
- `check_access_dir` (psql2xlsx.py:197-217) is filesystem I/O. Its first test, which rejects an empty directory name (psql2xlsx.py:201-204), is modelled with `DirName`. Its existence, directory and access tests (psql2xlsx.py:205-215) become the flag `outputDirWritable`. `DirName` follows POSIX paths; Windows drive letters and backslashes are not modelled.
- The database client (psql2xlsx.py:140-144, 154) becomes the function `db`, numbered by connection. Connection and query errors are not modelled: the source does not catch them. A statement without a result set, such as an `UPDATE` without `RETURNING`, leaves `cursor.description` at `None`. Line 148 then raises `TypeError`, after `add_worksheet` at line 147. The oracle always returns a result, so `ProcessPage`, `WritePages` and `Run` report success for such a page.
- Errors raised by the spreadsheet library's `write` (psql2xlsx.py:162-171) are not modelled, and the source does not catch them. The model treats every write as succeeding. According to the library's documentation, `write` raises `TypeError` for values it cannot store: arrays (`list`), JSON (`dict`) and `bytea` (`memoryview`), which the model takes as `Other`, and time-zone-aware timestamps and times, because the workbook is opened without `remove_timezone` (psql2xlsx.py:92), which the model writes as ordinary `Timestamp` and `Time` cells. For such results `Run` reports a saved workbook where the program stops with an exception.
- The spreadsheet library (psql2xlsx.py:92-100, 147, 152, 162-171, 185, 188) is not modelled. The worksheet is a log of write calls plus a list of column widths. The formats are the tags of `Format`, whose patterns are the constants in `Cells`. Also not modelled: font objects and `workbook.close()`.
- The spreadsheet library's worksheet-name rules (psql2xlsx.py:147) are not modelled, because its source is not part of this model. By the library's documentation, `add_worksheet` raises, and the source does not catch it, for a name longer than 31 characters and for a name equal to an earlier page's up to letter case. The configuration parser keeps section names case-sensitive, so `[Sales]` and `[sales]` are two pages. For such names `ProcessPage`, `WritePages` and `Run` report success where the program stops with an exception.
- Console and error messages, the exit code and the Windows key-press pause (psql2xlsx.py:43-47, 74, 83, 88, 106, 123, 128, 189, 221-227) are not modelled.
- Python's `str()` of floats, decimals, bytes and other types is not modelled. Those values are `Other(rendering)`, carrying their rendering.
- Config.IsWordChar: `\w` is approximated by its ASCII members (letters, digits, `_`). Python's Unicode `\w` also accepts other letters and digits, which the model rejects.
- Psql2Xlsx.WritePages, Psql2Xlsx.Run: these require every query result to have rows no longer than the column list. The source fails with an `IndexError` on a longer row (psql2xlsx.py:174), and that failure is not modelled.
- Psql2Xlsx.ProcessPage, Psql2Xlsx.WritePages: these require only what the page loop uses from the defaults: the five connection keys and no `query` key. `Run` passes them the result of `ResolveDefaults`, which has exactly the built-in keys.

The model keeps these facts of the code:

- the width cap is 100;
- every column gets a header cell, with no filter for anonymous columns;
- a NULL contributes `len(str(None))`, which is 4;
- the connection string always has all five fields;
- a page cannot change a default key, including the connection keys (`ResolvePage`);
- a `query` in the `default` section is ignored (`ApplyDefaultSection`);
- there is one query per page, with no commit or rollback;
- a page name followed by a single trailing newline is accepted, because of how `$` matches (`PageNamePattern`).
