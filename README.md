# Laravel Tinker tool: a verified model of its core

`laravel_tinker_tool.py` is a desktop front end for running PHP snippets against a Laravel
project. The user types a snippet, and the tool does the following:

- rewrites the snippet so that its value is printed (`transform_code`);
- wraps it in a PHP script that bootstraps Laravel and imports the models the snippet names;
- runs that script and reports the output through a queue drained by the UI;
- keeps a log history that can be cleared and exported;
- shows JSON output as a table that can be exported to CSV;
- generates query snippets from two dialogs.

This project models those parts in Dafny and proves what they promise.

- `wrappers.dfy`, `json.dfy`: `Option`, and decoded JSON values.
  - `json.loads` is a parser passed in as a function. It returns a value, a decode error, or
    another exception.
  - `json.dumps` and Python's `str()` of a value are passed in as functions too.
- `text.dfy`: the Python string operations the core relies on.
  - `strip()` over the `isspace` characters, `in`, `startswith`, `endswith`.
  - Identifier runs, code-point ordering of strings, ASCII `upper()`, `str()` of a count.
- `transform.dfy`: `transform_code`.
  - It is a chain of early returns over the trimmed snippet.
  - Each anchored regular expression becomes a predicate on one line. `$` matches before a final
    line break.
- `script.dfy`: the model names `_run_tinker` extracts with `findall`, and the text of
  `temp_tinker.php`.
  - The text is built by successive appends, with one `use App\Models\X;` line per name.
  - The names are written in the order in which the set is iterated.
- `routing.dfy`: the `(message, type)` pairs `_run_tinker` queues for a run, and what
  `check_output_queue` does with one pair.
- `logstore.dfy`: the exported log text, and a reader that parses it back.
- `tables.dfy`: the data rules of `create_table_view` and `export_table_data`.
  - Which values make a table.
  - The sorted column union, header truncation, column width, cell text and row striping.
- `queries.dfy`: the `generate_query` closures of both query dialogs, and the editor text they
  produce.
- `app.dfy`: the `LaravelTinkerApp` object as a class.
  - Its fields are the log history, the status-bar text, the last JSON value, the output queue
    and the table buttons inserted in the output.
  - Its methods change those fields as the Python methods do. The loops they need are
    module-level methods, each proved against a specification function.
  - Two switches choose between the program as written and the program with the fixes listed
    under "Findings". `RunTinker` takes `order`: `AsWritten` queues the UI signals tag first, as
    the worker does, and `Corrected` queues them tag second. `CreateTableView` and
    `ShowLastJsonData` take `asWritten`, which keeps the function-local `import json`.

Dialogs, files, the PHP process and the clock are parameters:

- `path` is the file the user picked, with `""` meaning cancelled.
- `failure` is the exception raised while writing the file.
- `outcome` is the two captured streams, or the exception raised.
- `now` is the timestamp.

## Model

| member | source | states |
|---|---|---|
| Transform.TransformCode | laravel_tinker_tool.py:1317-1422 | the result is the trimmed snippet itself or a `formatOutput(...)` call |
| Transform.Decide | laravel_tinker_tool.py:1340-1417 | a rewrite only ever adds no prefix or `App\Models\`, and prints the trimmed snippet or the one line the anchored patterns see |
| Transform.Rewrite | laravel_tinker_tool.py:1340-1417 | a kept snippet comes back unchanged; a printed one comes back as `echo formatOutput(<prefix>...);` |
| Transform.RegexLine | laravel_tinker_tool.py:1361-1363 | an `^...$` match covers the whole text, or the text without a final line break, and never spans a line break |
| Transform.TransformWithoutOperators | laravel_tinker_tool.py:1398-1417 | a trimmed snippet with neither `::` nor `->` is returned unchanged |
| Transform.TransformEscapes | laravel_tinker_tool.py:1340-1350 | snippets already printed, `var_dump(`/`dd(` calls and generated queries are returned unchanged |
| Transform.TransformFacade | laravel_tinker_tool.py:1352-1357 | snippets starting `DB::`, `\DB::` or `Schema::` are wrapped as they stand |
| Transform.TransformModelCall | laravel_tinker_tool.py:1359-1378 | a one-line `Name::method(...)rest` with an upper-case first letter is wrapped with `App\Models\` |
| Transform.TransformNamespaceCall | laravel_tinker_tool.py:1380-1395 | a one-line `App\...::method(...)rest` is wrapped without a prefix |
| Transform.TransformLowercaseCall | laravel_tinker_tool.py:1365-1371 | a lower-case `name::method(...)` skips the first branch and is wrapped without a prefix |
| Transform.TransformFallback | laravel_tinker_tool.py:1397-1414 | any other text with `::` or `->` is wrapped; `App\Models\` is added exactly when a class name leads and `::` is within the first 10 characters |
| Transform.ModelsPrefixNeedsClassName | laravel_tinker_tool.py:1371-1373 | `App\Models\` is only ever added in front of an upper-case class name followed by `::` or `->` |
| Transform.ClassPrefixExcludesApp | laravel_tinker_tool.py:1401-1406 | once the class pattern matched, the `App\` guard can never fail |
| Transform.TrimWrapped | laravel_tinker_tool.py:1334-1338 | trimming a wrapped call removes exactly its final `;` |
| Transform.TransformKeepsOpenCall | laravel_tinker_tool.py:1334-1342 | a wrapped call without its `;` is left as it is |
| Transform.TransformIdempotentUpToSemicolon | laravel_tinker_tool.py:1337-1342 | transforming a wrapped result drops only its `;`, and a second transform changes nothing |
| Transform.ExampleModelCall | laravel_tinker_tool.py:1323 | `Name::meth();` becomes `echo formatOutput(App\Models\Name::meth());` |
| Transform.ExampleNamespaceCall | laravel_tinker_tool.py:1324 | `App\Path::meth();` becomes `echo formatOutput(App\Path::meth());` |
| Transform.ExampleNewlineBeforeSemicolon | laravel_tinker_tool.py:1334-1373 | a line break before the final `;` is lost, and the call is transformed as without it |
| Transform.ExamplePlain | laravel_tinker_tool.py:1398-1417 | `1 + 1;` comes back as `1 + 1` |
| Script.FindAllFrom | laravel_tinker_tool.py:387 | the non-overlapping left-to-right scan of the class-name pattern yields class names only |
| Script.ModelNames | laravel_tinker_tool.py:387-394 | every extracted name is a class name outside the facade set |
| Script.ModelNamesSound | laravel_tinker_tool.py:387-394 | every extracted name occurs in the code right before `::` and is not a facade |
| Script.ModelNamesComplete | laravel_tinker_tool.py:387-394 | a class name followed by `::` that starts at the first upper-case letter of its identifier (`Bar` in `Bar::` and in `fooBar::`) and is not a facade is extracted |
| Script.WriteImports | laravel_tinker_tool.py:416-418 | appends one import line per name, each name exactly once, in the order the set is iterated |
| Script.UseLinesSnoc | laravel_tinker_tool.py:417-418 | visiting one more name appends exactly its import line |
| Script.WriteWrapper | laravel_tinker_tool.py:398-453 | the successive writes produce the wrapper text for the visited order |
| Script.WrapperImportsEachModel | laravel_tinker_tool.py:416-418 | the wrapper holds `use App\Models\X;` for every extracted name |
| Script.ImportBlockLines | laravel_tinker_tool.py:416-418 | the model import block has exactly one line per extracted name |
| Script.WrapperEmbedsCode | laravel_tinker_tool.py:446-450 | the snippet stands verbatim right after `try {` and a line break, and right before a line break and `} catch` |
| App.WrapperFor | laravel_tinker_tool.py:383-453 | the script `_run_tinker` writes imports exactly the extracted models and wraps the snippet |
| Routing.DispatchStatus | laravel_tinker_tool.py:518-521 | a pair sets the status bar exactly when its type is `status`, and then to its message |
| Routing.DispatchTable | laravel_tinker_tool.py:522-524 | a pair shows the table button exactly when its type is `show_table_button`, and only that |
| Routing.StdoutKinds | laravel_tinker_tool.py:474-499 | standard output gives one `normal` or `json` pair, plus the table signal exactly when it parsed |
| Routing.StdoutShown | laravel_tinker_tool.py:474-499 | once corrected, non-empty output is reported first: pretty-printed when it parsed, verbatim inside a `normal` pair otherwise |
| Routing.RoutedStatus | laravel_tinker_tool.py:507-512 | once corrected, a run ends with one status pair carrying its final status, and no earlier pair is a status pair |
| Routing.RoutedTable | laravel_tinker_tool.py:480-491 | once corrected, a run queues the table signal for `v` exactly when its output parsed to `v` |
| Routing.RoutedSuccess | laravel_tinker_tool.py:504-505 | once corrected, the success pair is queued exactly when both streams are empty |
| Routing.RoutedErrors | laravel_tinker_tool.py:501-511 | once corrected, an error pair is queued exactly when the run raised or wrote to standard error |
| Routing.AsWrittenKinds | laravel_tinker_tool.py:491-512 | as written, no queued pair has type `status` or `show_table_button` |
| Routing.AsWrittenLast | laravel_tinker_tool.py:507-512 | as written, a run's last pair has the message `status` and the final status as its type |
| Routing.AsWrittenSignalsLost | laravel_tinker_tool.py:491-527 | as written, no pair of a run changes the status bar or shows the button; the last one logs `status` with the status text as its type |
| Routing.CorrectedStatusShown | laravel_tinker_tool.py:507-521 | with the tag second, the last pair sets the final status and no earlier one touches the bar |
| Routing.CorrectedTableShown | laravel_tinker_tool.py:488-524 | with the tag second, the button for `v` is shown exactly when the output parsed to `v` |
| App.DrainAppend | laravel_tinker_tool.py:516-527 | draining two batches one after the other is draining them together |
| App.DrainOne | laravel_tinker_tool.py:518-527 | the screen after one pair: status set and logged, or a button added, or one log line added |
| App.DrainOnlyLogs | laravel_tinker_tool.py:525-527 | pairs of other types leave the bar and the buttons alone and add one log line each |
| App.DrainKeepsStatus | laravel_tinker_tool.py:518-520 | only status pairs change the status bar |
| App.DrainButtons | laravel_tinker_tool.py:522-524 | a button is there after a drain exactly when it was before or a table pair for its data was dequeued |
| App.StatusAfterRun | laravel_tinker_tool.py:507-521 | after a corrected run is drained, the bar shows its final status and the last log line records it |
| App.ButtonAfterRun | laravel_tinker_tool.py:488-524 | after a corrected run is drained, a button for `v` is there exactly when it was before or the output parsed to `v` |
| App.AsWrittenScreen | laravel_tinker_tool.py:491-527 | as written, draining a run leaves the status bar and the buttons unchanged, keeps the old log lines and adds one line per pair, the last logging `status` with the final status as its type |
| App.AsWrittenRunAfterQueue | laravel_tinker_tool.py:491-527 | as written, a run drained behind pairs already queued leaves the bar and the buttons as those pairs left them, and keeps their log lines in front |
| App.StdoutPairs | laravel_tinker_tool.py:474-499 | the pairs queued for standard output in either order of the table signal, and the value kept for the table, built step by step |
| App.CompletedPairs | laravel_tinker_tool.py:474-508 | the pairs of a completed run, built step by step, agree with the routing in the chosen order |
| App.QueuedPairs | laravel_tinker_tool.py:471-512 | the pairs of any run, including one that raised, agree with the routing in the chosen order |
| App.LaravelTinkerApp.constructor | laravel_tinker_tool.py:15-26 | an empty history, queue and output, no JSON value, and `Listo` in the status bar |
| App.LaravelTinkerApp.RunTinker | laravel_tinker_tool.py:471-512 | the queue gains exactly the run's pairs in the chosen order (tag first as written), and the last JSON value is replaced exactly when the output parsed |
| App.LaravelTinkerApp.CheckOutputQueue | laravel_tinker_tool.py:514-527 | the queue is emptied and the screen is what draining it gives |
| App.LaravelTinkerApp.AddToLog | laravel_tinker_tool.py:757-767 | exactly one entry is appended and the earlier entries are unchanged |
| App.LaravelTinkerApp.ClearLogs | laravel_tinker_tool.py:820-830 | the history and the output are empty and the status bar says so |
| App.LaravelTinkerApp.ExportLogs | laravel_tinker_tool.py:832-856 | nothing happens for an empty history or a cancelled dialog; otherwise the text written is the export of the history, followed by one success or error entry |
| App.RenderLog | laravel_tinker_tool.py:849-850 | the loop writes the export text of the entries in history order |
| LogStore.ExportTextSnoc | laravel_tinker_tool.py:849-850 | exporting one more entry appends exactly its line |
| LogStore.ExportRoundTrip | laravel_tinker_tool.py:849-850 | reading the export back gives every entry in order, with its type upper-cased, when no field breaks the line format |
| Tables.TabulateRules | laravel_tinker_tool.py:599-606 | an object is one row, a list of objects is its rows in order, and anything else is refused with the logged message |
| Tables.CollectColumns | laravel_tinker_tool.py:646-651 | the columns are strictly sorted and are exactly the keys of all rows |
| Tables.Insert | laravel_tinker_tool.py:651 | inserting keeps a list strictly sorted, keeps its keys and adds `k` if absent |
| Tables.SortedUnique | laravel_tinker_tool.py:651 | the column list is fully determined by the set of keys |
| Tables.DisplayName | laravel_tinker_tool.py:669 | a heading is at most 25 characters; a short name is kept, a long one is its first 22 characters and `...` |
| Tables.ColumnWidth | laravel_tinker_tool.py:673 | a column is `max(100, 10 * len)` wide |
| Tables.CellRules | laravel_tinker_tool.py:677-689 | a missing key is empty, `null` is `NULL`, a string is itself, and nested values go through `json.dumps` |
| Tables.RowValues | laravel_tinker_tool.py:677-691 | the values of one row are its cells under the columns, in column order |
| Tables.StripesAlternate | laravel_tinker_tool.py:694 | the row tags alternate, starting with `even` |
| Tables.NestedCellAsWritten | laravel_tinker_tool.py:594-685 | as written, decoded data with a nested value never makes a table, although the cell rules give the value a text |
| Tables.NestedCellExample | laravel_tinker_tool.py:594-685 | the object `{"tags": []}` is tabular but rejected as written |
| Tables.AsWrittenAgreesOtherwise | laravel_tinker_tool.py:594-606 | without nested values, or for data given as a string, the view as written is the corrected one |
| App.Headings | laravel_tinker_tool.py:667-674 | the heading and width of every column, in column order |
| App.TableBody | laravel_tinker_tool.py:677-694 | one row per record with its cells and its stripe tag |
| App.LaravelTinkerApp.CreateTableView | laravel_tinker_tool.py:586-717 | a view exists exactly when the data is tabular (as written, also without a nested cell in decoded data); it then shows every column, heading, width and cell, and logs its size; otherwise the error is logged |
| App.LaravelTinkerApp.ShowLastJsonData | laravel_tinker_tool.py:576-584 | nothing is logged without a JSON value; otherwise the view and the log line are exactly those `create_table_view` gives for that value |
| App.LaravelTinkerApp.ExportTableData | laravel_tinker_tool.py:719-756 | the CSV field names are the sorted keys of all rows, so every row fits, followed by one success or error entry |
| Queries.QueryRefusals | laravel_tinker_tool.py:1082-1093 | only a find or a custom query is refused, exactly when its stripped parameters are empty, with the matching warning |
| Queries.GuardsFirst | laravel_tinker_tool.py:1073-1075 | each dialog refuses first without a model, or without a query type |
| Queries.QueryShape | laravel_tinker_tool.py:1078-1093 | every snippet starts with `echo `, ends in `;` and names `Model::` |
| Queries.EditorCodeOf | laravel_tinker_tool.py:1099-1102 | the editor text, stripped, is the header comment and the indented snippet |
| Queries.QueryBypassesTransform | laravel_tinker_tool.py:1099-1102 | a generated query comes back from the transformer only without its final `;` |

## Left out

- The Tk widgets, menus, dialogs, syntax highlighting, and the styling of log lines in the output widget. The model keeps only the state they show.
- The temporary file, the `php` and `php artisan` processes, and the file tree. A run's captured streams, or the exception it raised, are the `outcome` parameter.
- Threads and the 100 ms rescheduling of `check_output_queue`. One call to `CheckOutputQueue` drains what is on the queue.
- `json.loads`, `json.dumps`, Python's `str()` of a decoded value, and `csv.DictWriter` are foreign library calls. They are parameters, and the CSV text itself is not modelled.
- A decoded JSON object is a map, so the key order `json.dumps` prints at 484 and 685 is not modelled.
- `datetime.now()`: timestamps are parameters.
- App.Drain: every log line of one drain is stamped with the same `now`.
- The `add_to_log` calls inside `transform_code` only log the rewrite. `TransformCode` returns the rewritten text and logs nothing.
- The `except` branch of `transform_code` cannot be reached by string operations, so the model is total.
- `execute_code`, `list_models`, the artisan runner, the model suggestions of the query dialog, and `main.py` are not modelled. They handle the editor, processes and files.
- Text.Upper: only ASCII letters are upper-cased, where Python's `upper()` covers all of Unicode.
- Script.WriteWrapper: the set of names may be visited in any order. The import block is stated for every such order.
- App.LaravelTinkerApp.ExportLogs: a write that fails is modelled as writing nothing. Python may leave part of the file written.
- App.LaravelTinkerApp.ExportTableData: states the field names and the log entry, but not the CSV text.
- App.LaravelTinkerApp.CheckOutputQueue: a structured payload in a log entry is stored through `str()`. Python stores the value itself. This only matters for the as-written pairs, where `export_logs` would then fail on `.upper()` of a dict.
- App.LaravelTinkerApp.CreateTableView: other exceptions from the widgets are not modelled.
- App.LaravelTinkerApp.CreateTableView: the window and the record counter are not modelled. Only the rows, columns and the log line are.
- App.LaravelTinkerApp.CreateTableView: as written, the window opened and the rows inserted before the failing nested cell are not modelled; the model shows no table, only the error line.
- App.LaravelTinkerApp.ClearLogs: the text of the output widget is not modelled, only the table buttons inserted in it.
- App.LaravelTinkerApp.RunTinker: does not produce the script itself. The script `_run_tinker` writes is `App.WrapperFor`, a function of the snippet alone.

## Findings

| source | as written | input that shows it | evidently intended | confidence | as-written member | corrected member |
|---|---|---|---|---|---|---|
| laravel_tinker_tool.py:508 | `_run_tinker` queues `("status", text)`, but `check_output_queue` (514-527) unpacks `(message, msg_type)`. The status bar never changes, and a log line `status` with type `Ejecución completada.` is added instead | any run, e.g. both streams empty | `(text, "status")`, as the artisan runner queues at 1298 | high; not executed | App.AsWrittenScreen | App.StatusAfterRun |
| laravel_tinker_tool.py:491 | the table signal is queued as `("show_table_button", data)`, so it is logged with the decoded value as its type and the table button is never shown | standard output `[{"id": 1}]` that parses | `(data, "show_table_button")` | high; not executed | Routing.AsWrittenSignalsLost | App.ButtonAfterRun |
| laravel_tinker_tool.py:596 | `import json` inside the string branch makes `json` a local name of all of `create_table_view`. For decoded data, which is what the table button and `show_last_json_data` pass, `json.dumps` at 685 raises `UnboundLocalError` on the first nested cell, and the table is replaced by an error line | decoded data `{"tags": []}` | nested cells dumped as JSON | high; not executed | Tables.NestedCellAsWritten | App.LaravelTinkerApp.CreateTableView |
