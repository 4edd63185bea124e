/**
 * The log history: the entries `add_to_log` records and the text
 * `export_logs` writes for them, one `[timestamp] [TYPE] message` line per
 * entry. A reader of that text is given as the inverse of the export.
 */
module LogStore {
  import opened Text
  import opened Wrappers

  /** One entry of `log_history`: the `{timestamp, message, type}` dict. */
  datatype LogEntry = LogEntry(timestamp: string, message: string, kind: string)

  /** What a line of the exported file tells back about its entry (the type upper-cased). */
  datatype ExportedLine = ExportedLine(timestamp: string, kindUpper: string, message: string)

  /** The exported line of one entry, without its line break. */
  function LineBody(e: LogEntry): string {
    "[" + e.timestamp + "] [" + Upper(e.kind) + "] " + e.message
  }

  /** The exported line of one entry. */
  function ExportLine(e: LogEntry): string {
    LineBody(e) + "\n"
  }

  /** The whole exported text: the lines of the entries, in history order. */
  function ExportText(entries: seq<LogEntry>): string {
    if entries == [] then [] else ExportLine(entries[0]) + ExportText(entries[1..])
  }

  /** Exporting one more entry appends its line. */
  lemma {:induction false} ExportTextSnoc(entries: seq<LogEntry>, e: LogEntry)
    ensures ExportText(entries + [e]) == ExportText(entries) + ExportLine(e)
    decreases |entries|
  {
    if entries == [] {
      assert [e][1..] == [];
    } else {
      assert (entries + [e])[1..] == entries[1..] + [e];
      ExportTextSnoc(entries[1..], e);
    }
  }

  // ---- reading an exported text back ----

  /** The first position of `c` in `s`. */
  function IndexOf(s: string, c: char): (r: Option<nat>)
    ensures r.Some? ==> r.value < |s| && s[r.value] == c && forall k :: 0 <= k < r.value ==> s[k] != c
    ensures r.None? ==> forall k :: 0 <= k < |s| ==> s[k] != c
  {
    if s == [] then None
    else if s[0] == c then Some(0)
    else match IndexOf(s[1..], c)
      case None => None
      case Some(i) => Some(i + 1)
  }

  /** The first occurrence of `c` is where `c` stands with no `c` before it. */
  lemma {:induction false} IndexOfAt(s: string, c: char, i: nat)
    requires i < |s| && s[i] == c
    requires forall k :: 0 <= k < i ==> s[k] != c
    ensures IndexOf(s, c) == Some(i)
  {
    if i > 0 {
      IndexOfAt(s[1..], c, i - 1);
    }
  }

  /** The lines of a text, each without its line break; a final line need not end with one. */
  function Lines(text: string): seq<string>
    decreases |text|
  {
    if text == [] then []
    else match IndexOf(text, '\n')
      case None => [text]
      case Some(i) => [text[..i]] + Lines(text[i + 1..])
  }

  /** Reads `[timestamp] [TYPE] message` back, or fails. */
  function ParseLine(line: string): Option<ExportedLine> {
    if |line| == 0 || line[0] != '[' then None
    else match IndexOf(line[1..], ']')
      case None => None
      case Some(j) => ParseKind(line[1..j + 1], line[j + 2..])
  }

  /** Reads ` [TYPE] message` after the timestamp. */
  function ParseKind(ts: string, rest: string): Option<ExportedLine> {
    if !StartsWith(rest, " [") then None
    else match IndexOf(rest[2..], ']')
      case None => None
      case Some(k) => ParseMessage(ts, rest[2..k + 2], rest[k + 3..])
  }

  /** Reads ` message` after the type. */
  function ParseMessage(ts: string, kind: string, tail: string): Option<ExportedLine> {
    if !StartsWith(tail, " ") then None else Some(ExportedLine(ts, kind, tail[1..]))
  }

  /** Reads every line of an exported text back, or fails. */
  function ParseLines(lines: seq<string>): Option<seq<ExportedLine>> {
    if lines == [] then Some([])
    else match (ParseLine(lines[0]), ParseLines(lines[1..]))
      case (Some(x), Some(xs)) => Some([x] + xs)
      case _ => None
  }

  /** What an exported text says about the entries it was written from. */
  function ReadExport(text: string): Option<seq<ExportedLine>> {
    ParseLines(Lines(text))
  }

  /** What the export keeps of an entry. */
  function Exported(e: LogEntry): ExportedLine {
    ExportedLine(e.timestamp, Upper(e.kind), e.message)
  }

  /** What the export keeps of each entry, in order. */
  function ExportedAll(entries: seq<LogEntry>): (r: seq<ExportedLine>)
    ensures |r| == |entries|
  {
    if entries == [] then [] else [Exported(entries[0])] + ExportedAll(entries[1..])
  }

  /** An entry whose line reads back: no `]` in its timestamp or type, and no line break anywhere. */
  predicate Readable(e: LogEntry) {
    (forall k :: 0 <= k < |e.timestamp| ==> e.timestamp[k] != ']' && e.timestamp[k] != '\n')
    && (forall k :: 0 <= k < |e.kind| ==> e.kind[k] != ']' && e.kind[k] != '\n')
    && (forall k :: 0 <= k < |e.message| ==> e.message[k] != '\n')
  }

  /** Upper-casing keeps `]` and line breaks out. */
  lemma UpperKeepsOut(s: string, c: char)
    requires c == ']' || c == '\n'
    requires forall k :: 0 <= k < |s| ==> s[k] != c
    ensures forall k :: 0 <= k < |Upper(s)| ==> Upper(s)[k] != c
  {
  }

  lemma ParseMessageParts(ts: string, up: string, msg: string)
    ensures ParseMessage(ts, up, " " + msg) == Some(ExportedLine(ts, up, msg))
  {
    assert (" " + msg)[1..] == msg;
  }

  lemma ParseKindParts(ts: string, up: string, msg: string)
    requires forall k :: 0 <= k < |up| ==> up[k] != ']'
    ensures ParseKind(ts, " [" + (up + ("] " + msg))) == Some(ExportedLine(ts, up, msg))
  {
    var rest := " [" + (up + ("] " + msg));
    assert rest[2..] == up + ("] " + msg);
    IndexOfAt(rest[2..], ']', |up|);
    assert rest[2..|up| + 2] == up;
    assert rest[|up| + 3..] == " " + msg;
    ParseMessageParts(ts, up, msg);
  }

  /** A line built from a timestamp and a type without `]` reads back as its three parts. */
  lemma ParseLineParts(ts: string, up: string, msg: string)
    requires forall k :: 0 <= k < |ts| ==> ts[k] != ']'
    requires forall k :: 0 <= k < |up| ==> up[k] != ']'
    ensures ParseLine("[" + (ts + ("] [" + (up + ("] " + msg))))) == Some(ExportedLine(ts, up, msg))
  {
    var rest := " [" + (up + ("] " + msg));
    var line := "[" + (ts + ("]" + rest));
    assert "[" + (ts + ("] [" + (up + ("] " + msg)))) == line;
    assert line[1..] == ts + ("]" + rest);
    IndexOfAt(line[1..], ']', |ts|);
    assert line[1..|ts| + 1] == ts;
    assert line[|ts| + 2..] == rest;
    ParseKindParts(ts, up, msg);
  }

  /** A line's body reads back as its entry. */
  lemma ParseLineBody(e: LogEntry)
    requires Readable(e)
    ensures ParseLine(LineBody(e)) == Some(Exported(e))
  {
    UpperKeepsOut(e.kind, ']');
    var up := Upper(e.kind);
    assert LineBody(e) == "[" + (e.timestamp + ("] [" + (up + ("] " + e.message))));
    ParseLineParts(e.timestamp, up, e.message);
  }

  /** A body without line breaks followed by one is one line. */
  lemma LinesOfLine(body: string, rest: string)
    requires forall k :: 0 <= k < |body| ==> body[k] != '\n'
    ensures Lines(body + "\n" + rest) == [body] + Lines(rest)
  {
    var text := body + "\n" + rest;
    IndexOfAt(text, '\n', |body|);
    assert text[..|body|] == body;
    assert text[|body| + 1..] == rest;
  }

  /** The body of an exported line holds no line break. */
  lemma LineBodyOneLine(e: LogEntry)
    requires Readable(e)
    ensures forall k :: 0 <= k < |LineBody(e)| ==> LineBody(e)[k] != '\n'
  {
    UpperKeepsOut(e.kind, '\n');
    var up := Upper(e.kind);
    assert LineBody(e) == "[" + (e.timestamp + ("] [" + (up + ("] " + e.message))));
  }

  /** Reading an export back gives every entry, in order, with its type upper-cased. */
  lemma {:induction false} ExportRoundTrip(entries: seq<LogEntry>)
    requires forall i :: 0 <= i < |entries| ==> Readable(entries[i])
    ensures ReadExport(ExportText(entries)) == Some(ExportedAll(entries))
    decreases |entries|
  {
    if entries != [] {
      var e := entries[0];
      var rest := ExportText(entries[1..]);
      assert ExportText(entries) == LineBody(e) + "\n" + rest;
      LineBodyOneLine(e);
      LinesOfLine(LineBody(e), rest);
      var lines := [LineBody(e)] + Lines(rest);
      assert lines[0] == LineBody(e) && lines[1..] == Lines(rest);
      ParseLineBody(e);
      ExportRoundTrip(entries[1..]);
    }
  }
}
