/**
 * What `_run_tinker` reports after PHP has run: the `(message, type)` pairs
 * it puts on `output_queue`, and what `check_output_queue` does with one of
 * them on the UI side.
 *
 * The worker puts the two UI signals as `("status", text)` and
 * `("show_table_button", data)`, while the UI unpacks every pair as
 * `(message, msg_type)` and looks for the tag in the second place. Both
 * orders are modelled: `RoutedAsWritten` as the worker writes them,
 * `Routed` with the tag in the type place, as the artisan runner does for
 * its own status line and as the UI expects.
 */
module Routing {
  import opened Text
  import opened Wrappers
  import Json

  /** What sits in either place of a queued pair: a string, or the decoded JSON value. */
  datatype Payload = Plain(s: string) | Structured(v: Json.Value)

  /** One `(message, msg_type)` pair on `output_queue`. */
  datatype Item = Item(message: Payload, kind: Payload)

  /** How running `php temp_tinker.php` ended: with its two captured streams, or with an exception before anything was queued. */
  datatype Outcome = Completed(stdout: string, stderr: string) | Raised(error: string)

  /** Which way round the worker puts its two UI signals. */
  datatype Order = AsWritten | Corrected

  /** What the UI does with one dequeued pair. */
  datatype Effect =
    | SetStatus(text: string)
    | ShowTableButton(data: Payload)
    | Log(message: Payload, kind: Payload)

  /** The model lister's banner: output containing it is shown as it is. */
  const ListingMarker: string := "Buscando modelos Eloquent en el proyecto"

  const Done: string := "Ejecuci\U{f3}n completada."
  const Failed: string := "Error en la ejecuci\U{f3}n."
  const Silent: string := "El c\U{f3}digo se ejecut\U{f3} correctamente sin salida."

  function Entry(message: string, kind: string): Item {
    Item(Plain(message), Plain(kind))
  }

  /** A UI signal: the tag is put first as written, second once corrected. */
  function Signal(order: Order, tag: string, payload: Payload): Item {
    match order
    case AsWritten => Item(Plain(tag), payload)
    case Corrected => Item(payload, Plain(tag))
  }

  /** The stripped output starts like a JSON object or array. */
  predicate LooksLikeJson(stdout: string) {
    StartsWith(Strip(stdout), "{") || StartsWith(Strip(stdout), "[")
  }

  /** The pairs queued for a non-empty standard output. */
  function StdoutItems(order: Order, stdout: string, parse: Json.Parser, dump: Json.Dumper): seq<Item> {
    if Contains(stdout, ListingMarker) then [Entry("Salida:\n" + stdout, "normal")]
    else if LooksLikeJson(stdout) then
      match parse(stdout)
      case Parsed(v) => [Entry("Salida:\n" + dump(v), "json"), Signal(order, "show_table_button", Structured(v))]
      case Invalid(_) => [Entry("Salida:\n" + stdout, "normal")]
      case Crashed(e) => [Entry("Salida (Error de formato):\n" + stdout + "\n\nError: " + e, "normal")]
    else [Entry("Salida:\n" + stdout, "normal")]
  }

  /** Everything `_run_tinker` queues for one run, in order. */
  function RoutedIn(order: Order, outcome: Outcome, parse: Json.Parser, dump: Json.Dumper): seq<Item> {
    match outcome
    case Raised(e) => [Entry("Error al ejecutar: " + e, "error"), Signal(order, "status", Plain(Failed))]
    case Completed(out, err) =>
      (if out != "" then StdoutItems(order, out, parse, dump) else [])
      + (if err != "" then [Entry("Error:\n" + err, "error")] else [])
      + (if out == "" && err == "" then [Entry(Silent, "success")] else [])
      + [Signal(order, "status", Plain(Done))]
  }

  /** The pairs as the worker puts them, tags first. */
  function RoutedAsWritten(outcome: Outcome, parse: Json.Parser, dump: Json.Dumper): seq<Item> {
    RoutedIn(AsWritten, outcome, parse, dump)
  }

  /** The pairs with the tags in the type place, where the UI looks for them. */
  function Routed(outcome: Outcome, parse: Json.Parser, dump: Json.Dumper): seq<Item> {
    RoutedIn(Corrected, outcome, parse, dump)
  }

  /** The JSON value a run produced: its whole output parsed as JSON. Not defined through the routing. */
  function ParsedOutput(outcome: Outcome, parse: Json.Parser): Option<Json.Value> {
    if outcome.Completed? && outcome.stdout != "" && !Contains(outcome.stdout, ListingMarker)
       && LooksLikeJson(outcome.stdout) && parse(outcome.stdout).Parsed?
    then Some(parse(outcome.stdout).value)
    else None
  }

  /** The status-bar text a run should end with. */
  function FinalStatus(outcome: Outcome): string {
    if outcome.Raised? then Failed else Done
  }

  /** How a payload reads as text; `pyStr` is Python's `str()` of a decoded value. */
  function Describe(p: Payload, pyStr: Json.Dumper): string {
    match p
    case Plain(s) => s
    case Structured(v) => pyStr(v)
  }

  /** `check_output_queue` on one dequeued pair. */
  function Dispatch(item: Item, pyStr: Json.Dumper): seq<Effect> {
    if item.kind == Plain("status") then
      [SetStatus(Describe(item.message, pyStr)), Log(Plain("Estado: " + Describe(item.message, pyStr)), Plain("status"))]
    else if item.kind == Plain("show_table_button") then [ShowTableButton(item.message)]
    else [Log(item.message, item.kind)]
  }

  // ---- the UI side ----

  /** A pair changes the status bar exactly when its type is `status`, and then to its message. */
  lemma DispatchStatus(item: Item, pyStr: Json.Dumper)
    ensures (exists e :: e in Dispatch(item, pyStr) && e.SetStatus?) <==> item.kind == Plain("status")
    ensures item.kind == Plain("status") ==> SetStatus(Describe(item.message, pyStr)) in Dispatch(item, pyStr)
  {
    if item.kind == Plain("status") {
      assert Dispatch(item, pyStr)[0].SetStatus?;
    }
  }

  /** A pair shows the table button exactly when its type is `show_table_button`, and then for its message. */
  lemma DispatchTable(item: Item, pyStr: Json.Dumper)
    ensures (exists e :: e in Dispatch(item, pyStr) && e.ShowTableButton?) <==> item.kind == Plain("show_table_button")
    ensures item.kind == Plain("show_table_button") ==> Dispatch(item, pyStr) == [ShowTableButton(item.message)]
  {
    if item.kind == Plain("show_table_button") {
      assert Dispatch(item, pyStr)[0].ShowTableButton?;
    }
  }

  // ---- what the worker queues ----

  /** The pairs queued for standard output are output pairs, apart from one table signal that needs a parsed value. */
  lemma StdoutKinds(order: Order, stdout: string, parse: Json.Parser, dump: Json.Dumper)
    requires stdout != ""
    ensures var r := StdoutItems(order, stdout, parse, dump);
      1 <= |r| <= 2 && (r[0].kind == Plain("normal") || r[0].kind == Plain("json"))
      && (|r| == 2 <==> ParsedOutput(Completed(stdout, ""), parse).Some?)
      && (|r| == 2 ==> r[1] == Signal(order, "show_table_button", Structured(ParsedOutput(Completed(stdout, ""), parse).value)))
  {
  }

  /** The corrected pairs for standard output are of type `normal` or `json`, or the table signal. */
  lemma StdoutHasKind(stdout: string, parse: Json.Parser, dump: Json.Dumper, k: Payload)
    requires stdout != ""
    ensures HasKind(StdoutItems(Corrected, stdout, parse, dump), k)
      ==> k == Plain("normal") || k == Plain("json") || k == Plain("show_table_button")
  {
    StdoutKinds(Corrected, stdout, parse, dump);
  }

  /** A corrected run ends with one status pair carrying the final status, and no earlier pair is a status pair. */
  lemma RoutedStatus(outcome: Outcome, parse: Json.Parser, dump: Json.Dumper)
    ensures var r := Routed(outcome, parse, dump);
      |r| >= 1 && r[|r| - 1] == Entry(FinalStatus(outcome), "status")
      && forall i :: 0 <= i < |r| - 1 ==> r[i].kind != Plain("status")
  {
    if outcome.Completed? && outcome.stdout != "" {
      StdoutKinds(Corrected, outcome.stdout, parse, dump);
    }
  }

  /** Some pair in `r` has type `k`. */
  predicate HasKind(r: seq<Item>, k: Payload) {
    exists i :: 0 <= i < |r| && r[i].kind == k
  }

  lemma HasKindConcat(a: seq<Item>, b: seq<Item>, k: Payload)
    ensures HasKind(a + b, k) <==> HasKind(a, k) || HasKind(b, k)
  {
    if HasKind(a + b, k) {
      var i :| 0 <= i < |a + b| && (a + b)[i].kind == k;
      if i >= |a| {
        assert b[i - |a|].kind == k;
      }
    }
    if HasKind(a, k) {
      var i :| 0 <= i < |a| && a[i].kind == k;
      assert (a + b)[i].kind == k;
    }
    if HasKind(b, k) {
      var i :| 0 <= i < |b| && b[i].kind == k;
      assert (a + b)[|a| + i].kind == k;
    }
  }

  /** The pairs of a completed run, in their four groups. */
  lemma CompletedParts(order: Order, out: string, err: string, parse: Json.Parser, dump: Json.Dumper)
    returns (s: seq<Item>, e: seq<Item>, q: seq<Item>)
    ensures RoutedIn(order, Completed(out, err), parse, dump) == s + e + q + [Signal(order, "status", Plain(Done))]
    ensures out == "" ==> s == []
    ensures out != "" ==> s == StdoutItems(order, out, parse, dump)
    ensures e == if err != "" then [Entry("Error:\n" + err, "error")] else []
    ensures q == if out == "" && err == "" then [Entry(Silent, "success")] else []
  {
    s := if out != "" then StdoutItems(order, out, parse, dump) else [];
    e := if err != "" then [Entry("Error:\n" + err, "error")] else [];
    q := if out == "" && err == "" then [Entry(Silent, "success")] else [];
  }

  /** A corrected run signals the table view exactly when its output parsed as JSON, and for that value. */
  lemma RoutedTable(outcome: Outcome, parse: Json.Parser, dump: Json.Dumper, v: Json.Value)
    ensures Item(Structured(v), Plain("show_table_button")) in Routed(outcome, parse, dump)
      <==> ParsedOutput(outcome, parse) == Some(v)
  {
    if outcome.Completed? {
      var s, e, q := CompletedParts(Corrected, outcome.stdout, outcome.stderr, parse, dump);
      if outcome.stdout != "" {
        StdoutKinds(Corrected, outcome.stdout, parse, dump);
        assert ParsedOutput(outcome, parse) == ParsedOutput(Completed(outcome.stdout, ""), parse);
      }
    }
  }

  /** The success message is queued exactly when the run printed nothing on either stream. */
  lemma RoutedSuccess(outcome: Outcome, parse: Json.Parser, dump: Json.Dumper)
    ensures HasKind(Routed(outcome, parse, dump), Plain("success")) <==> outcome == Completed("", "")
  {
    var r := Routed(outcome, parse, dump);
    if outcome.Completed? {
      var s, e, q := CompletedParts(Corrected, outcome.stdout, outcome.stderr, parse, dump);
      KindsOf(s, e, q, Entry(Done, "status"), Plain("success"));
      if outcome.stdout != "" {
        StdoutHasKind(outcome.stdout, parse, dump, Plain("success"));
      }
      assert HasKind(q, Plain("success")) <==> outcome == Completed("", "") by {
        if q != [] { assert q[0].kind == Plain("success"); }
      }
    } else {
      assert r[0].kind == Plain("error") && r[1].kind == Plain("status");
    }
  }

  /** An error pair is queued exactly when the run raised or wrote to standard error. */
  lemma RoutedErrors(outcome: Outcome, parse: Json.Parser, dump: Json.Dumper)
    ensures HasKind(Routed(outcome, parse, dump), Plain("error")) <==> (outcome.Raised? || outcome.stderr != "")
  {
    var r := Routed(outcome, parse, dump);
    if outcome.Completed? {
      var s, e, q := CompletedParts(Corrected, outcome.stdout, outcome.stderr, parse, dump);
      KindsOf(s, e, q, Entry(Done, "status"), Plain("error"));
      if outcome.stdout != "" {
        StdoutHasKind(outcome.stdout, parse, dump, Plain("error"));
      }
      assert HasKind(e, Plain("error")) <==> outcome.stderr != "" by {
        if outcome.stderr != "" { assert e[0].kind == Plain("error"); }
      }
    } else {
      assert r[0].kind == Plain("error");
    }
  }

  /** Whether the four groups of a completed run have a pair of type `k`. */
  lemma KindsOf(s: seq<Item>, e: seq<Item>, q: seq<Item>, last: Item, k: Payload)
    ensures HasKind(s + e + q + [last], k)
      <==> HasKind(s, k) || HasKind(e, k) || HasKind(q, k) || last.kind == k
  {
    HasKindConcat(s + e + q, [last], k);
    HasKindConcat(s + e, q, k);
    HasKindConcat(s, e, k);
    assert HasKind([last], k) <==> last.kind == k by {
      if last.kind == k {
        assert [last][0].kind == k;
      }
    }
  }

  // ---- what reaches the UI ----

  /** As written, no pair the worker queues is a status or table-signal pair. */
  lemma AsWrittenKinds(outcome: Outcome, parse: Json.Parser, dump: Json.Dumper)
    ensures var r := RoutedAsWritten(outcome, parse, dump);
      !HasKind(r, Plain("status")) && !HasKind(r, Plain("show_table_button"))
  {
    var st := Plain("status");
    var tb := Plain("show_table_button");
    var r := RoutedAsWritten(outcome, parse, dump);
    if outcome.Completed? {
      var s, e, q := CompletedParts(AsWritten, outcome.stdout, outcome.stderr, parse, dump);
      var last := Signal(AsWritten, "status", Plain(Done));
      KindsOf(s, e, q, last, st);
      KindsOf(s, e, q, last, tb);
      if outcome.stdout != "" {
        StdoutKinds(AsWritten, outcome.stdout, parse, dump);
        assert !HasKind(s, st) && !HasKind(s, tb) by {
          forall i | 0 <= i < |s| ensures s[i].kind != st && s[i].kind != tb {
            if i == 1 {
              assert s[1].kind.Structured?;
            }
          }
        }
      }
    } else {
      assert r[0].kind == Plain("error") && r[1].kind == Plain(Failed);
    }
  }

  /** As written, a run's last pair is the message `status` with the final status in the type place. */
  lemma AsWrittenLast(outcome: Outcome, parse: Json.Parser, dump: Json.Dumper)
    ensures var r := RoutedAsWritten(outcome, parse, dump);
      |r| >= 1 && r[|r| - 1] == Item(Plain("status"), Plain(FinalStatus(outcome)))
  {
    if outcome.Completed? {
      var s, e, q := CompletedParts(AsWritten, outcome.stdout, outcome.stderr, parse, dump);
    }
  }

  /**
   * As written, the status bar never changes and the table button is never
   * shown: every queued pair only adds a log line, and the final one logs
   * the message `status` with the status text as its type.
   */
  lemma AsWrittenSignalsLost(outcome: Outcome, parse: Json.Parser, dump: Json.Dumper, pyStr: Json.Dumper)
    ensures var r := RoutedAsWritten(outcome, parse, dump);
      |r| >= 1
      && (forall i, e :: 0 <= i < |r| && e in Dispatch(r[i], pyStr) ==> !e.SetStatus? && !e.ShowTableButton?)
      && Dispatch(r[|r| - 1], pyStr) == [Log(Plain("status"), Plain(FinalStatus(outcome)))]
  {
    var r := RoutedAsWritten(outcome, parse, dump);
    AsWrittenKinds(outcome, parse, dump);
    forall i | 0 <= i < |r|
      ensures forall e :: e in Dispatch(r[i], pyStr) ==> !e.SetStatus? && !e.ShowTableButton?
    {
      assert r[i].kind != Plain("status") && r[i].kind != Plain("show_table_button");
      DispatchStatus(r[i], pyStr);
      DispatchTable(r[i], pyStr);
    }
    if outcome.Completed? {
      var s, e, q := CompletedParts(AsWritten, outcome.stdout, outcome.stderr, parse, dump);
    }
  }

  /** Corrected, the run's final pair sets the status bar to the final status, and no earlier pair touches it. */
  lemma CorrectedStatusShown(outcome: Outcome, parse: Json.Parser, dump: Json.Dumper, pyStr: Json.Dumper)
    ensures var r := Routed(outcome, parse, dump);
      |r| >= 1
      && SetStatus(FinalStatus(outcome)) in Dispatch(r[|r| - 1], pyStr)
      && (forall i, e :: 0 <= i < |r| - 1 && e in Dispatch(r[i], pyStr) ==> !e.SetStatus?)
  {
    var r := Routed(outcome, parse, dump);
    RoutedStatus(outcome, parse, dump);
    DispatchStatus(r[|r| - 1], pyStr);
    forall i | 0 <= i < |r| - 1 ensures forall e :: e in Dispatch(r[i], pyStr) ==> !e.SetStatus? {
      DispatchStatus(r[i], pyStr);
    }
  }

  /** Corrected, a run shows the table button for `v` exactly when its output parsed to `v`. */
  lemma CorrectedTableShown(outcome: Outcome, parse: Json.Parser, dump: Json.Dumper, pyStr: Json.Dumper, v: Json.Value)
    ensures var r := Routed(outcome, parse, dump);
      (exists i :: 0 <= i < |r| && ShowTableButton(Structured(v)) in Dispatch(r[i], pyStr))
      <==> ParsedOutput(outcome, parse) == Some(v)
  {
    var r := Routed(outcome, parse, dump);
    var signal := Item(Structured(v), Plain("show_table_button"));
    RoutedTable(outcome, parse, dump, v);
    if exists i :: 0 <= i < |r| && ShowTableButton(Structured(v)) in Dispatch(r[i], pyStr) {
      var i :| 0 <= i < |r| && ShowTableButton(Structured(v)) in Dispatch(r[i], pyStr);
      DispatchTable(r[i], pyStr);
      assert r[i] == signal;
    }
    if ParsedOutput(outcome, parse) == Some(v) {
      var i :| 0 <= i < |r| && r[i] == signal;
      DispatchTable(r[i], pyStr);
    }
  }

  /** A text put after a prefix is contained in the result. */
  lemma ContainsAfter(pre: string, x: string)
    ensures Contains(pre + x, x)
  {
    assert OccursAt(pre + x, x, |pre|);
    OccursContains(pre + x, x, |pre|);
  }

  /** A text put between a prefix and a suffix is contained in the result. */
  lemma ContainsBetween(pre: string, x: string, mid: string, post: string)
    ensures Contains(pre + x + mid + post, x)
  {
    assert OccursAt(pre + x + mid + post, x, |pre|);
    OccursContains(pre + x + mid + post, x, |pre|);
  }

  /** The first pair for a non-empty standard output. */
  lemma StdoutHead(out: string, parse: Json.Parser, dump: Json.Dumper)
    requires out != ""
    ensures var r := StdoutItems(Corrected, out, parse, dump);
      |r| >= 1
      && (ParsedOutput(Completed(out, ""), parse).Some? ==>
            r[0] == Entry("Salida:\n" + dump(ParsedOutput(Completed(out, ""), parse).value), "json"))
      && (ParsedOutput(Completed(out, ""), parse).None? ==>
            r[0].kind == Plain("normal") && r[0].message.Plain? && Contains(r[0].message.s, out))
  {
    var r := StdoutItems(Corrected, out, parse, dump);
    var plain := "Salida:\n";
    if Contains(out, ListingMarker) || !LooksLikeJson(out) || parse(out).Invalid? {
      assert r[0] == Entry(plain + out, "normal");
      ContainsAfter(plain, out);
    } else if parse(out).Crashed? {
      var pre := "Salida (Error de formato):\n";
      var mid := "\n\nError: ";
      assert r[0] == Entry(pre + out + mid + parse(out).message, "normal");
      ContainsBetween(pre, out, mid, parse(out).message);
    }
  }

  /**
   * A non-empty standard output is reported first: pretty-printed as `json`
   * when it parsed, otherwise as a `normal` pair whose text holds the output
   * verbatim.
   */
  lemma StdoutShown(out: string, err: string, parse: Json.Parser, dump: Json.Dumper)
    requires out != ""
    ensures var r := Routed(Completed(out, err), parse, dump);
      |r| >= 2
      && (ParsedOutput(Completed(out, err), parse).Some? ==>
            r[0] == Entry("Salida:\n" + dump(ParsedOutput(Completed(out, err), parse).value), "json"))
      && (ParsedOutput(Completed(out, err), parse).None? ==>
            r[0].kind == Plain("normal") && r[0].message.Plain? && Contains(r[0].message.s, out))
  {
    var s, e, q := CompletedParts(Corrected, out, err, parse, dump);
    StdoutHead(out, parse, dump);
    assert ParsedOutput(Completed(out, err), parse) == ParsedOutput(Completed(out, ""), parse);
  }
}
