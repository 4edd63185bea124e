/**
 * The state `LaravelTinkerApp` keeps between user actions, and the actions
 * that change it: the log history, the status-bar text, the last JSON
 * value shown, and the queue the worker fills for the UI. Timestamps,
 * dialogs, files and the PHP process are parameters.
 */
module App {
  import opened Wrappers
  import opened Text
  import Json
  import Script
  import Routing
  import LogStore
  import Tables

  /**
   * What the UI shows once pairs are dequeued: the status bar, the log
   * history, and the data behind each table button inserted in the output.
   */
  datatype Screen = Screen(status: string, log: seq<LogStore.LogEntry>, buttons: seq<Routing.Payload>)

  /** One effect of a dequeued pair; every log line of one drain gets the timestamp `now`. */
  function Show(s: Screen, e: Routing.Effect, pyStr: Json.Dumper, now: string): Screen {
    match e
    case SetStatus(t) => s.(status := t)
    case ShowTableButton(d) => s.(buttons := s.buttons + [d])
    case Log(m, k) => s.(log := s.log + [LogStore.LogEntry(now, Routing.Describe(m, pyStr), Routing.Describe(k, pyStr))])
  }

  /** The effects of one pair, in order. */
  function ShowAll(s: Screen, effects: seq<Routing.Effect>, pyStr: Json.Dumper, now: string): Screen
    decreases |effects|
  {
    if effects == [] then s else ShowAll(Show(s, effects[0], pyStr, now), effects[1..], pyStr, now)
  }

  /** `check_output_queue` taking `items` off the queue, first to last. */
  function Drain(s: Screen, items: seq<Routing.Item>, pyStr: Json.Dumper, now: string): Screen
    decreases |items|
  {
    if items == [] then s
    else Drain(ShowAll(s, Routing.Dispatch(items[0], pyStr), pyStr, now), items[1..], pyStr, now)
  }

  /** Draining two batches one after the other is draining them together. */
  lemma {:induction false} DrainAppend(s: Screen, a: seq<Routing.Item>, b: seq<Routing.Item>, pyStr: Json.Dumper, now: string)
    ensures Drain(s, a + b, pyStr, now) == Drain(Drain(s, a, pyStr, now), b, pyStr, now)
    decreases |a|
  {
    if a != [] {
      assert (a + b)[0] == a[0] && (a + b)[1..] == a[1..] + b;
      DrainAppend(ShowAll(s, Routing.Dispatch(a[0], pyStr), pyStr, now), a[1..], b, pyStr, now);
    } else {
      assert a + b == b;
    }
  }

  /** The screen after one pair: a status pair sets the bar and logs it, a table pair adds a button, any other pair adds its log line. */
  lemma DrainOne(s: Screen, item: Routing.Item, pyStr: Json.Dumper, now: string)
    ensures var d := Drain(s, [item], pyStr, now);
      var text := Routing.Describe(item.message, pyStr);
      if item.kind == Routing.Plain("status") then
        d == Screen(text, s.log + [LogStore.LogEntry(now, "Estado: " + text, "status")], s.buttons)
      else if item.kind == Routing.Plain("show_table_button") then
        d == s.(buttons := s.buttons + [item.message])
      else
        d == s.(log := s.log + [LogStore.LogEntry(now, text, Routing.Describe(item.kind, pyStr))])
  {
    assert [item][1..] == [];
    var effects := Routing.Dispatch(item, pyStr);
    var s1 := Show(s, effects[0], pyStr, now);
    if item.kind == Routing.Plain("status") {
      var s2 := Show(s1, effects[1], pyStr, now);
      assert effects[1..][1..] == [];
      assert ShowAll(s, effects, pyStr, now) == ShowAll(s1, effects[1..], pyStr, now) == s2;
    } else {
      assert effects[1..] == [];
      assert ShowAll(s, effects, pyStr, now) == s1;
    }
  }

  /** Pairs that are neither status nor table pairs only add log lines, one each. */
  lemma {:induction false} DrainOnlyLogs(s: Screen, items: seq<Routing.Item>, pyStr: Json.Dumper, now: string)
    requires forall i :: 0 <= i < |items| ==>
      items[i].kind != Routing.Plain("status") && items[i].kind != Routing.Plain("show_table_button")
    ensures var d := Drain(s, items, pyStr, now);
      d.status == s.status && d.buttons == s.buttons && |d.log| == |s.log| + |items| && d.log[..|s.log|] == s.log
    decreases |items|
  {
    if items != [] {
      DrainOne(s, items[0], pyStr, now);
      assert [items[0]][1..] == [];
      var t := Drain(s, [items[0]], pyStr, now);
      DrainOnlyLogs(t, items[1..], pyStr, now);
      var d := Drain(t, items[1..], pyStr, now);
      assert d.log[..|s.log|] == d.log[..|t.log|][..|s.log|];
    }
  }

  /** Pairs that are not status pairs leave the status bar as it was. */
  lemma {:induction false} DrainKeepsStatus(s: Screen, items: seq<Routing.Item>, pyStr: Json.Dumper, now: string)
    requires forall i :: 0 <= i < |items| ==> items[i].kind != Routing.Plain("status")
    ensures Drain(s, items, pyStr, now).status == s.status
    decreases |items|
  {
    if items != [] {
      DrainOne(s, items[0], pyStr, now);
      DrainKeepsStatus(Drain(s, [items[0]], pyStr, now), items[1..], pyStr, now);
    }
  }

  /** A button is on the screen after a drain exactly when it was before, or a table pair for its data was dequeued. */
  lemma {:induction false} DrainButtons(s: Screen, items: seq<Routing.Item>, pyStr: Json.Dumper, now: string, x: Routing.Payload)
    ensures x in Drain(s, items, pyStr, now).buttons
      <==> x in s.buttons || Routing.Item(x, Routing.Plain("show_table_button")) in items
    decreases |items|
  {
    if items != [] {
      DrainOne(s, items[0], pyStr, now);
      DrainButtons(Drain(s, [items[0]], pyStr, now), items[1..], pyStr, now, x);
      assert items == [items[0]] + items[1..];
    }
  }

  /**
   * Once a corrected run's pairs are drained, the status bar holds the
   * run's final status and the last log line records it.
   */
  lemma StatusAfterRun(s: Screen, outcome: Routing.Outcome, parse: Json.Parser, dump: Json.Dumper, pyStr: Json.Dumper, now: string)
    ensures var d := Drain(s, Routing.Routed(outcome, parse, dump), pyStr, now);
      d.status == Routing.FinalStatus(outcome)
      && |d.log| > 0 && d.log[|d.log| - 1] == LogStore.LogEntry(now, "Estado: " + Routing.FinalStatus(outcome), "status")
  {
    var r := Routing.Routed(outcome, parse, dump);
    Routing.RoutedStatus(outcome, parse, dump);
    var init := r[..|r| - 1];
    assert r == init + [r[|r| - 1]];
    DrainAppend(s, init, [r[|r| - 1]], pyStr, now);
    var mid := Drain(s, init, pyStr, now);
    DrainOne(mid, r[|r| - 1], pyStr, now);
  }

  /** Once a corrected run's pairs are drained, a table button for `v` is there exactly when it was, or the output parsed to `v`. */
  lemma ButtonAfterRun(s: Screen, outcome: Routing.Outcome, parse: Json.Parser, dump: Json.Dumper, pyStr: Json.Dumper, now: string, v: Json.Value)
    ensures Routing.Structured(v) in Drain(s, Routing.Routed(outcome, parse, dump), pyStr, now).buttons
      <==> Routing.Structured(v) in s.buttons || Routing.ParsedOutput(outcome, parse) == Some(v)
  {
    DrainButtons(s, Routing.Routed(outcome, parse, dump), pyStr, now, Routing.Structured(v));
    Routing.RoutedTable(outcome, parse, dump, v);
  }

  /**
   * As written, draining a run's pairs leaves the status bar and the
   * buttons as they were: every pair only adds a log line after the lines
   * already there, and the last one logs the message `status` with the
   * final status as its type.
   */
  lemma AsWrittenScreen(s: Screen, outcome: Routing.Outcome, parse: Json.Parser, dump: Json.Dumper, pyStr: Json.Dumper, now: string)
    ensures var r := Routing.RoutedAsWritten(outcome, parse, dump);
      var d := Drain(s, r, pyStr, now);
      d.status == s.status && d.buttons == s.buttons
      && |d.log| == |s.log| + |r| && d.log[..|s.log|] == s.log
      && d.log[|d.log| - 1] == LogStore.LogEntry(now, "status", Routing.FinalStatus(outcome))
  {
    var r := Routing.RoutedAsWritten(outcome, parse, dump);
    Routing.AsWrittenLast(outcome, parse, dump);
    var init := r[..|r| - 1];
    assert r == init + [r[|r| - 1]];
    DrainAppend(s, init, [r[|r| - 1]], pyStr, now);
    DrainOne(Drain(s, init, pyStr, now), r[|r| - 1], pyStr, now);
    Routing.AsWrittenKinds(outcome, parse, dump);
    forall i | 0 <= i < |r|
      ensures r[i].kind != Routing.Plain("status") && r[i].kind != Routing.Plain("show_table_button")
    {
      if r[i].kind == Routing.Plain("status") {
        assert Routing.HasKind(r, Routing.Plain("status"));
      }
      if r[i].kind == Routing.Plain("show_table_button") {
        assert Routing.HasKind(r, Routing.Plain("show_table_button"));
      }
    }
    DrainOnlyLogs(s, r, pyStr, now);
  }

  /**
   * A run queued as written (`RunTinker` with `AsWritten`) behind pairs
   * already waiting: once `CheckOutputQueue` has drained everything, the
   * status bar and the buttons are what the waiting pairs left, and their
   * log lines stay in front.
   */
  lemma AsWrittenRunAfterQueue(s: Screen, queue: seq<Routing.Item>, outcome: Routing.Outcome, parse: Json.Parser,
                               dump: Json.Dumper, pyStr: Json.Dumper, now: string)
    ensures var before := Drain(s, queue, pyStr, now);
      var d := Drain(s, queue + Routing.RoutedIn(Routing.AsWritten, outcome, parse, dump), pyStr, now);
      d.status == before.status && d.buttons == before.buttons
      && |d.log| >= |before.log| && d.log[..|before.log|] == before.log
  {
    DrainAppend(s, queue, Routing.RoutedAsWritten(outcome, parse, dump), pyStr, now);
    AsWrittenScreen(Drain(s, queue, pyStr, now), outcome, parse, dump, pyStr, now);
  }

  /** What the table window shows: its columns, headings, widths and striped rows. */
  datatype TableRow = TableRow(values: seq<string>, tag: string)
  datatype TableView = TableView(columns: seq<string>, headings: seq<string>, widths: seq<int>, body: seq<TableRow>)

  /**
   * What `create_table_view` makes of `data`: with `asWritten`, as the
   * program does with its function-local `import json`; otherwise with
   * `json` bound throughout.
   */
  function TableShape(asWritten: bool, data: Json.Value, parse: Json.Parser): Tables.Shaped {
    if asWritten then Tables.ShapeAsWritten(data, parse) else Tables.Normalize(data, parse)
  }

  /**
   * `t` tabulates `rows`: the sorted union of their keys as columns, each
   * with its heading and width, and one striped row of cells per record.
   */
  ghost predicate Tabulates(t: TableView, rows: seq<Tables.Row>, dump: Json.Dumper) {
    Tables.StrictlySorted(t.columns)
    && (forall c :: c in t.columns <==> c in Tables.KeyUnion(rows))
    && |t.headings| == |t.columns| == |t.widths|
    && (forall j :: 0 <= j < |t.columns| ==>
          t.headings[j] == Tables.DisplayName(t.columns[j]) && t.widths[j] == Tables.ColumnWidth(t.columns[j]))
    && |t.body| == |rows|
    && (forall i :: 0 <= i < |rows| ==>
          t.body[i].tag == Tables.Stripe(i) && |t.body[i].values| == |t.columns|
          && forall j :: 0 <= j < |t.columns| ==> t.body[i].values[j] == Tables.CellText(rows[i], t.columns[j], dump))
  }

  /**
   * What `create_table_view` shows for data of shape `shape`: no table and
   * its error line, or the table and the line counting its records and
   * columns; `after` is the log `before` plus that one line.
   */
  ghost predicate Reported(shape: Tables.Shaped, view: Option<TableView>, before: seq<LogStore.LogEntry>,
                     after: seq<LogStore.LogEntry>, dump: Json.Dumper, now: string) {
    match shape
    case Rejected(m) => view.None? && after == before + [LogStore.LogEntry(now, m, "error")]
    case Rows(rows) =>
      view.Some? && Tabulates(view.value, rows, dump)
      && after == before + [LogStore.LogEntry(now, Tables.CreatedMessage(|rows|, |view.value.columns|), "info")]
  }

  class LaravelTinkerApp {
    var logHistory: seq<LogStore.LogEntry>
    var status: string
    var lastJsonData: Option<Json.Value>
    var outputQueue: seq<Routing.Item>
    /** The data behind each "Ver datos en tabla" button inserted in the output. */
    var tableButtons: seq<Routing.Payload>

    constructor()
      ensures logHistory == [] && status == "Listo" && lastJsonData == None && outputQueue == [] && tableButtons == []
    {
      logHistory := [];
      status := "Listo";
      lastJsonData := None;
      outputQueue := [];
      tableButtons := [];
    }

    /** `add_to_log`: one more entry at the end; the earlier ones stay as they were. */
    method AddToLog(message: string, kind: string, now: string)
      modifies this
      ensures logHistory == old(logHistory) + [LogStore.LogEntry(now, message, kind)]
      ensures |logHistory| == |old(logHistory)| + 1 && logHistory[..|old(logHistory)|] == old(logHistory)
      ensures status == old(status) && lastJsonData == old(lastJsonData) && outputQueue == old(outputQueue)
      ensures tableButtons == old(tableButtons)
    {
      logHistory := logHistory + [LogStore.LogEntry(now, message, kind)];
    }

    /** `clear_logs`: the history and the output (with its table buttons) are emptied, and the status bar says so. */
    method ClearLogs()
      modifies this
      ensures logHistory == [] && tableButtons == [] && status == "Logs limpiados."
      ensures lastJsonData == old(lastJsonData) && outputQueue == old(outputQueue)
    {
      logHistory := [];
      tableButtons := [];
      status := "Logs limpiados.";
    }

    /**
     * `export_logs` to the file the user picked (`path`, empty when the
     * dialog was cancelled); `failure` is the error raised while writing, if
     * any. Returns the text written.
     */
    method ExportLogs(path: string, failure: Option<string>, now: string) returns (written: Option<string>)
      modifies this
      ensures old(logHistory) == [] || path == "" ==>
        written == None && logHistory == old(logHistory) && status == old(status)
      ensures old(logHistory) != [] && path != "" && failure.None? ==>
        written == Some(LogStore.ExportText(old(logHistory)))
        && status == "Logs exportados a " + path
        && logHistory == old(logHistory) + [LogStore.LogEntry(now, "Logs exportados a " + path, "success")]
      ensures old(logHistory) != [] && path != "" && failure.Some? ==>
        written == None && status == old(status)
        && logHistory == old(logHistory) + [LogStore.LogEntry(now, "Error al exportar logs: " + failure.value, "error")]
      ensures lastJsonData == old(lastJsonData) && outputQueue == old(outputQueue)
      ensures tableButtons == old(tableButtons)
    {
      written := None;
      if logHistory == [] || path == "" {
        return;
      }
      var text := RenderLog(logHistory);
      match failure {
        case None =>
          written := Some(text);
          status := "Logs exportados a " + path;
          AddToLog("Logs exportados a " + path, "success", now);
        case Some(e) =>
          AddToLog("Error al exportar logs: " + e, "error", now);
      }
    }

    /**
     * What `_run_tinker` does to the app once PHP has run the script
     * (`WrapperFor`) with `outcome`: the pairs it queues, and the decoded
     * output it keeps for the table view. `parse` and `dump` are
     * `json.loads` and `json.dumps`; with `order == AsWritten` the two UI
     * signals are queued tag first, as the worker does.
     */
    method RunTinker(order: Routing.Order, outcome: Routing.Outcome, parse: Json.Parser, dump: Json.Dumper)
      modifies this
      ensures outputQueue == old(outputQueue) + Routing.RoutedIn(order, outcome, parse, dump)
      ensures lastJsonData == (if Routing.ParsedOutput(outcome, parse).Some? then Routing.ParsedOutput(outcome, parse) else old(lastJsonData))
      ensures logHistory == old(logHistory) && status == old(status) && tableButtons == old(tableButtons)
    {
      var queued, parsed := QueuedPairs(order, outcome, parse, dump);
      outputQueue := outputQueue + queued;
      if parsed.Some? {
        lastJsonData := parsed;
      }
    }

    /**
     * `check_output_queue`: takes every pair off the queue and shows it,
     * each log line stamped `now`; `pyStr` is Python's `str()` of a decoded value.
     */
    method CheckOutputQueue(pyStr: Json.Dumper, now: string)
      modifies this
      ensures outputQueue == []
      ensures Screen(status, logHistory, tableButtons)
        == Drain(Screen(old(status), old(logHistory), old(tableButtons)), old(outputQueue), pyStr, now)
      ensures lastJsonData == old(lastJsonData)
    {
      while outputQueue != []
        invariant Drain(Screen(status, logHistory, tableButtons), outputQueue, pyStr, now)
          == Drain(Screen(old(status), old(logHistory), old(tableButtons)), old(outputQueue), pyStr, now)
        invariant lastJsonData == old(lastJsonData)
        decreases |outputQueue|
      {
        var item := outputQueue[0];
        ghost var before := Screen(status, logHistory, tableButtons);
        DrainOne(before, item, pyStr, now);
        DrainAppend(before, [item], outputQueue[1..], pyStr, now);
        assert outputQueue == [item] + outputQueue[1..];
        outputQueue := outputQueue[1..];
        if item.kind == Routing.Plain("status") {
          var text := Routing.Describe(item.message, pyStr);
          status := text;
          AddToLog("Estado: " + text, "status", now);
        } else if item.kind == Routing.Plain("show_table_button") {
          tableButtons := tableButtons + [item.message];
        } else {
          AddToLog(Routing.Describe(item.message, pyStr), Routing.Describe(item.kind, pyStr), now);
        }
      }
    }

    /**
     * `create_table_view`: the table for `data`, or an error line in the log
     * when the data is not tabular or a string in it does not decode; with
     * `asWritten`, also when a decoded record holds a nested cell.
     */
    method CreateTableView(asWritten: bool, data: Json.Value, parse: Json.Parser, dump: Json.Dumper, now: string)
      returns (view: Option<TableView>)
      modifies this
      ensures view.Some? <==> TableShape(asWritten, data, parse).Rows?
      ensures Reported(TableShape(asWritten, data, parse), view, old(logHistory), logHistory, dump, now)
      ensures status == old(status) && lastJsonData == old(lastJsonData) && outputQueue == old(outputQueue)
      ensures tableButtons == old(tableButtons)
    {
      match TableShape(asWritten, data, parse) {
        case Rejected(m) =>
          AddToLog(m, "error", now);
          view := None;
        case Rows(rows) =>
          var columns := Tables.CollectColumns(rows);
          var headings, widths := Headings(columns);
          var body := TableBody(rows, columns, dump);
          view := Some(TableView(columns, headings, widths, body));
          AddToLog(Tables.CreatedMessage(|rows|, |columns|), "info", now);
      }
    }

    /**
     * `show_last_json_data`: the table for the last parsed output, with the
     * log line `create_table_view` adds; nothing when there is none yet.
     */
    method ShowLastJsonData(asWritten: bool, parse: Json.Parser, dump: Json.Dumper, now: string) returns (view: Option<TableView>)
      modifies this
      ensures old(lastJsonData).None? ==> view.None? && logHistory == old(logHistory)
      ensures old(lastJsonData).Some? ==>
        Reported(TableShape(asWritten, old(lastJsonData).value, parse), view, old(logHistory), logHistory, dump, now)
      ensures status == old(status) && lastJsonData == old(lastJsonData) && outputQueue == old(outputQueue)
      ensures tableButtons == old(tableButtons)
    {
      view := None;
      if lastJsonData.Some? {
        view := CreateTableView(asWritten, lastJsonData.value, parse, dump, now);
      }
    }

    /**
     * `export_table_data` to the file the user picked (`path`, empty when
     * cancelled), `failure` being the error raised while writing, if any.
     * Returns the CSV field names: every key of every row is among them, so
     * the CSV writer accepts every row.
     */
    method ExportTableData(rows: seq<Tables.Row>, path: string, failure: Option<string>, now: string)
      returns (fieldnames: seq<string>)
      modifies this
      ensures path == "" ==> fieldnames == [] && logHistory == old(logHistory)
      ensures path != "" ==>
        Tables.StrictlySorted(fieldnames)
        && (forall i, k :: 0 <= i < |rows| && k in rows[i] ==> k in fieldnames)
        && (forall c :: c in fieldnames ==> c in Tables.KeyUnion(rows))
        && logHistory == old(logHistory) + [
             if failure.None? then LogStore.LogEntry(now, "Datos exportados correctamente a " + path, "success")
             else LogStore.LogEntry(now, "Error al exportar datos: " + failure.value, "error")]
      ensures status == old(status) && lastJsonData == old(lastJsonData) && outputQueue == old(outputQueue)
      ensures tableButtons == old(tableButtons)
    {
      fieldnames := [];
      if path == "" {
        return;
      }
      fieldnames := Tables.CollectColumns(rows);
      forall i, k | 0 <= i < |rows| && k in rows[i] ensures k in fieldnames {
        assert k in Tables.KeyUnion(rows);
      }
      match failure {
        case None => AddToLog("Datos exportados correctamente a " + path, "success", now);
        case Some(e) => AddToLog("Error al exportar datos: " + e, "error", now);
      }
    }
  }

  /** The text `export_logs` writes, built entry by entry. */
  method RenderLog(entries: seq<LogStore.LogEntry>) returns (text: string)
    ensures text == LogStore.ExportText(entries)
  {
    text := "";
    for i := 0 to |entries|
      invariant text == LogStore.ExportText(entries[..i])
    {
      LogStore.ExportTextSnoc(entries[..i], entries[i]);
      assert entries[..i + 1] == entries[..i] + [entries[i]];
      text := text + LogStore.ExportLine(entries[i]);
    }
    assert entries[..|entries|] == entries;
  }

  /** The headings and widths `create_table_view` gives its columns. */
  method Headings(columns: seq<string>) returns (headings: seq<string>, widths: seq<int>)
    ensures |headings| == |columns| == |widths|
    ensures forall j :: 0 <= j < |columns| ==>
      headings[j] == Tables.DisplayName(columns[j]) && widths[j] == Tables.ColumnWidth(columns[j])
  {
    headings := [];
    widths := [];
    for j := 0 to |columns|
      invariant |headings| == j && |widths| == j
      invariant forall l :: 0 <= l < j ==>
        headings[l] == Tables.DisplayName(columns[l]) && widths[l] == Tables.ColumnWidth(columns[l])
    {
      headings := headings + [Tables.DisplayName(columns[j])];
      widths := widths + [Tables.ColumnWidth(columns[j])];
    }
  }

  /** The rows `create_table_view` inserts: each row's cells under the columns, striped by position. */
  method TableBody(rows: seq<Tables.Row>, columns: seq<string>, dump: Json.Dumper) returns (body: seq<TableRow>)
    ensures |body| == |rows|
    ensures forall i :: 0 <= i < |rows| ==>
      body[i].tag == Tables.Stripe(i) && |body[i].values| == |columns|
      && forall j :: 0 <= j < |columns| ==> body[i].values[j] == Tables.CellText(rows[i], columns[j], dump)
  {
    body := [];
    for i := 0 to |rows|
      invariant |body| == i
      invariant forall k :: 0 <= k < i ==>
        body[k].tag == Tables.Stripe(k) && |body[k].values| == |columns|
        && forall j :: 0 <= j < |columns| ==> body[k].values[j] == Tables.CellText(rows[k], columns[j], dump)
    {
      var values := Tables.RowValues(rows[i], columns, dump);
      body := body + [TableRow(values, Tables.Stripe(i))];
    }
  }

  /** The pairs `_run_tinker` queues for a non-empty standard output, and the value it parsed, if any. */
  method StdoutPairs(order: Routing.Order, out: string, parse: Json.Parser, dump: Json.Dumper)
    returns (queued: seq<Routing.Item>, parsed: Option<Json.Value>)
    requires out != ""
    ensures queued == Routing.StdoutItems(order, out, parse, dump)
    ensures parsed == Routing.ParsedOutput(Routing.Completed(out, ""), parse)
  {
    parsed := None;
    if Contains(out, Routing.ListingMarker) {
      queued := [Routing.Entry("Salida:\n" + out, "normal")];
    } else if Routing.LooksLikeJson(out) {
      match parse(out) {
        case Parsed(v) =>
          queued := [Routing.Entry("Salida:\n" + dump(v), "json")];
          parsed := Some(v);
          queued := queued + [Routing.Signal(order, "show_table_button", Routing.Structured(v))];
        case Invalid(_) =>
          queued := [Routing.Entry("Salida:\n" + out, "normal")];
        case Crashed(e) =>
          queued := [Routing.Entry("Salida (Error de formato):\n" + out + "\n\nError: " + e, "normal")];
      }
    } else {
      queued := [Routing.Entry("Salida:\n" + out, "normal")];
    }
  }

  /** Everything `_run_tinker` queues once PHP has run with `outcome`, and the value it parsed, if any. */
  method QueuedPairs(order: Routing.Order, outcome: Routing.Outcome, parse: Json.Parser, dump: Json.Dumper)
    returns (queued: seq<Routing.Item>, parsed: Option<Json.Value>)
    ensures queued == Routing.RoutedIn(order, outcome, parse, dump)
    ensures parsed == Routing.ParsedOutput(outcome, parse)
  {
    match outcome {
      case Raised(e) =>
        queued := [Routing.Entry("Error al ejecutar: " + e, "error"), Routing.Signal(order, "status", Routing.Plain(Routing.Failed))];
        parsed := None;
      case Completed(out, err) =>
        queued, parsed := CompletedPairs(order, out, err, parse, dump);
    }
  }

  /** The pairs queued after PHP has run to completion, the final status last. */
  method CompletedPairs(order: Routing.Order, out: string, err: string, parse: Json.Parser, dump: Json.Dumper)
    returns (queued: seq<Routing.Item>, parsed: Option<Json.Value>)
    ensures queued == Routing.RoutedIn(order, Routing.Completed(out, err), parse, dump)
    ensures parsed == Routing.ParsedOutput(Routing.Completed(out, err), parse)
  {
    queued := [];
    parsed := None;
    if out != "" {
      queued, parsed := StdoutPairs(order, out, parse, dump);
    }
    if err != "" {
      queued := queued + [Routing.Entry("Error:\n" + err, "error")];
    }
    if out == "" && err == "" {
      queued := queued + [Routing.Entry(Routing.Silent, "success")];
    }
    queued := queued + [Routing.Signal(order, "status", Routing.Plain(Routing.Done))];
  }

  /** The script `_run_tinker` writes for `code`: the models it names imported, then the code wrapped in the bootstrap. */
  method WrapperFor(code: string) returns (script: string, order: seq<string>)
    ensures Script.Enumerates(order, Script.ModelNames(code))
    ensures script == Script.WrapperText(order, code)
  {
    var names := Script.ModelNames(code);
    script, order := Script.WriteWrapper(code, names);
  }
}
