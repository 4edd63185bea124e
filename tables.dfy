/**
 * The data rules of the table view and the CSV export: which JSON values
 * make a table, which columns it has and in which order, how a header is
 * shortened, how wide a column is, how each cell reads, and how rows are
 * striped. The widgets themselves are not modelled.
 */
module Tables {
  import opened Text
  import Json

  /** One record: a decoded JSON object. */
  type Row = map<string, Json.Value>

  /** The data after the checks of `create_table_view`: its rows, or the message logged instead. */
  datatype Shaped = Rows(rows: seq<Row>) | Rejected(message: string)

  const NotTabular: string := "Error: Los datos no tienen un formato v\U{e1}lido para tabla."
  const ViewFailed: string := "Error al crear vista de tabla: "

  // ---- normalisation ----

  /** The value is a list whose every element is an object. */
  predicate AllObjects(items: seq<Json.Value>) {
    forall i :: 0 <= i < |items| ==> items[i].JObject?
  }

  function Fields(items: seq<Json.Value>): (rows: seq<Row>)
    requires AllObjects(items)
    ensures |rows| == |items| && forall i :: 0 <= i < |items| ==> rows[i] == items[i].fields
  {
    if items == [] then [] else [items[0].fields] + Fields(items[1..])
  }

  /** A decoded value as table rows: one object is one row, a list of objects is its rows, anything else is refused. */
  function Tabulate(v: Json.Value): Shaped {
    if v.JObject? then Rows([v.fields])
    else if v.JArray? && AllObjects(v.items) then Rows(Fields(v.items))
    else Rejected(NotTabular)
  }

  /** The data `create_table_view` is given, as rows; a string is first decoded with `json.loads`. */
  function Normalize(data: Json.Value, parse: Json.Parser): Shaped {
    if data.JString? then
      match parse(data.s)
      case Parsed(v) => Tabulate(v)
      case Invalid(m) => Rejected(ViewFailed + m)
      case Crashed(m) => Rejected(ViewFailed + m)
    else Tabulate(data)
  }

  /**
   * A decoded value makes a table exactly when it is an object or a list of
   * objects; an object is one row, and a list keeps its objects in order.
   */
  lemma TabulateRules(v: Json.Value)
    ensures Tabulate(v).Rows? <==> v.JObject? || (v.JArray? && AllObjects(v.items))
    ensures Tabulate(v).Rejected? ==> Tabulate(v).message == NotTabular
    ensures v.JObject? ==> Tabulate(v).rows == [v.fields]
    ensures v.JArray? && AllObjects(v.items) ==>
      |Tabulate(v).rows| == |v.items|
      && forall i :: 0 <= i < |v.items| ==> Json.JObject(Tabulate(v).rows[i]) == v.items[i]
  {
  }

  // ---- columns ----

  /** Every key of every row. */
  function KeyUnion(rows: seq<Row>): set<string> {
    set i, k | 0 <= i < |rows| && k in rows[i] :: k
  }

  /** Strictly increasing in code-point order: sorted, and no column twice. */
  predicate StrictlySorted(cols: seq<string>) {
    forall i, j :: 0 <= i < j < |cols| ==> Less(cols[i], cols[j])
  }

  /** `k` put into a strictly sorted list at its place. */
  function Insert(cols: seq<string>, k: string): (r: seq<string>)
    requires StrictlySorted(cols)
    ensures StrictlySorted(r)
    ensures forall c :: c in r <==> c in cols || c == k
  {
    if cols == [] then [k]
    else if cols[0] == k then cols
    else if Less(k, cols[0]) then
      LessAllAfter(k, cols);
      [k] + cols
    else
      LessTotal(k, cols[0]);
      var tail := Insert(cols[1..], k);
      assert forall c :: c in tail ==> Less(cols[0], c) by {
        forall c | c in tail ensures Less(cols[0], c) {
          if c != k {
            var j :| 1 <= j < |cols| && cols[j] == c;
          }
        }
      }
      [cols[0]] + tail
  }

  /** Below the head of a sorted list is below all of it. */
  lemma LessAllAfter(k: string, cols: seq<string>)
    requires StrictlySorted(cols) && |cols| > 0 && Less(k, cols[0])
    ensures forall j :: 0 <= j < |cols| ==> Less(k, cols[j])
  {
    forall j | 0 < j < |cols| ensures Less(k, cols[j]) {
      LessTransitive(k, cols[0], cols[j]);
    }
  }

  /**
   * The column list of a table and of its CSV export: the keys of all rows,
   * gathered into a set and sorted.
   */
  method CollectColumns(rows: seq<Row>) returns (cols: seq<string>)
    ensures StrictlySorted(cols)
    ensures forall c :: c in cols <==> c in KeyUnion(rows)
  {
    var all: set<string> := {};
    var i := 0;
    while i < |rows|
      invariant 0 <= i <= |rows|
      invariant all == KeyUnion(rows[..i])
    {
      assert rows[..i + 1] == rows[..i] + [rows[i]];
      UnionStep(rows[..i], rows[i]);
      all := all + rows[i].Keys;
      i := i + 1;
    }
    assert rows[..i] == rows;
    cols := [];
    var rest := all;
    while rest != {}
      invariant StrictlySorted(cols)
      invariant rest <= all
      invariant forall c :: c in all <==> c in cols || c in rest
      decreases |rest|
    {
      var k :| k in rest;
      cols := Insert(cols, k);
      rest := rest - {k};
    }
  }

  lemma UnionStep(rows: seq<Row>, row: Row)
    ensures KeyUnion(rows + [row]) == KeyUnion(rows) + row.Keys
  {
    var both := rows + [row];
    forall k | k in KeyUnion(both) ensures k in KeyUnion(rows) + row.Keys {
      var i :| 0 <= i < |both| && k in both[i];
      if i < |rows| {
        assert k in rows[i];
      }
    }
    forall k | k in KeyUnion(rows) + row.Keys ensures k in KeyUnion(both) {
      if k in row {
        assert both[|rows|] == row;
      } else {
        var i :| 0 <= i < |rows| && k in rows[i];
        assert both[i] == rows[i];
      }
    }
  }

  /** The tail of a strictly sorted list is the list without its head. */
  lemma SortedTail(a: seq<string>)
    requires StrictlySorted(a) && |a| > 0
    ensures forall c :: c in a[1..] <==> c in a && c != a[0]
  {
    forall c | c in a[1..] ensures c != a[0] {
      var j :| 1 <= j < |a| && a[j] == c;
      assert Less(a[0], a[j]);
      LessIrreflexive(c);
    }
    forall c | c in a && c != a[0] ensures c in a[1..] {
      var j :| 0 <= j < |a| && a[j] == c;
      assert a[1..][j - 1] == c;
    }
  }

  /** The head of a strictly sorted list is its least element. */
  lemma SortedHead(a: seq<string>, c: string)
    requires StrictlySorted(a) && |a| > 0 && c in a && c != a[0]
    ensures Less(a[0], c)
  {
    var j :| 0 <= j < |a| && a[j] == c;
  }

  /** Two strictly sorted lists with the same elements are the same list: the columns are fully determined by the rows. */
  lemma {:induction false} SortedUnique(a: seq<string>, b: seq<string>)
    requires StrictlySorted(a) && StrictlySorted(b)
    requires forall c :: c in a <==> c in b
    ensures a == b
    decreases |a|
  {
    if a != [] {
      assert a[0] in b;
    }
    if b != [] {
      assert b[0] in a;
    }
    if a != [] && b != [] {
      if a[0] != b[0] {
        SortedHead(b, a[0]);
        SortedHead(a, b[0]);
        LessAsymmetric(a[0], b[0]);
      }
      SortedTail(a);
      SortedTail(b);
      SortedUnique(a[1..], b[1..]);
      assert a == [a[0]] + a[1..];
      assert b == [b[0]] + b[1..];
    }
  }

  // ---- headers, widths, cells ----

  /** The heading shown for a column: names of 25 characters or more are cut to 22 and marked with `...`. */
  function DisplayName(col: string): (d: string)
    ensures |d| <= 25
    ensures |col| < 25 ==> d == col
    ensures |col| >= 25 ==> |d| == 25 && StartsWith(col, d[..22]) && EndsWith(d, "...")
  {
    if |col| < 25 then col else col[..22] + "..."
  }

  /** The width of a column: ten units per character of its name, and at least 100. */
  function ColumnWidth(col: string): (w: int)
    ensures w >= 100 && w >= 10 * |col|
    ensures w == 100 || w == 10 * |col|
  {
    if 10 * |col| > 100 then 10 * |col| else 100
  }

  /** How Python's `str()` shows a decoded scalar. */
  function ScalarText(v: Json.Value): string
    requires !v.JObject? && !v.JArray? && !v.JNull?
  {
    match v
    case JBool(b) => if b then "True" else "False"
    case JNumber(t) => t
    case JString(s) => s
  }

  /** The text of one cell: `dump` is `json.dumps` for nested objects and lists. */
  function CellText(row: Row, col: string, dump: Json.Dumper): string {
    if col !in row then ""
    else
      var v := row[col];
      if v.JObject? || v.JArray? then dump(v)
      else if v.JNull? then "NULL"
      else ScalarText(v)
  }

  /**
   * A missing key shows as an empty cell and `null` as `NULL`; a string
   * shows as itself, and nested values through `json.dumps`.
   */
  lemma CellRules(row: Row, col: string, dump: Json.Dumper)
    ensures col !in row ==> CellText(row, col, dump) == ""
    ensures col in row && row[col].JNull? ==> CellText(row, col, dump) == "NULL"
    ensures col in row && row[col].JString? ==> CellText(row, col, dump) == row[col].s
    ensures col in row && (row[col].JObject? || row[col].JArray?) ==> CellText(row, col, dump) == dump(row[col])
  {
  }

  /** The values of one table row, column by column. */
  method RowValues(row: Row, cols: seq<string>, dump: Json.Dumper) returns (values: seq<string>)
    ensures |values| == |cols|
    ensures forall j :: 0 <= j < |cols| ==> values[j] == CellText(row, cols[j], dump)
  {
    values := [];
    for j := 0 to |cols|
      invariant |values| == j
      invariant forall l :: 0 <= l < j ==> values[l] == CellText(row, cols[l], dump)
    {
      var value := CellText(row, cols[j], dump);
      values := values + [value];
    }
  }

  /** The stripe tag of the row at `idx`: `odd` rows and `even` rows alternate. */
  function Stripe(idx: nat): (t: string)
    ensures t == "odd" || t == "even"
  {
    if idx % 2 != 0 then "odd" else "even"
  }

  lemma StripesAlternate(idx: nat)
    ensures Stripe(idx) != Stripe(idx + 1)
    ensures Stripe(idx) == Stripe(idx + 2)
    ensures Stripe(0) == "even"
  {
  }

  // ---- the view as written ----

  /** Python 3.11's message for a local name read before it is bound. */
  const UnboundJson: string := "cannot access local variable 'json' where it is not associated with a value"

  /** Some row holds an object or a list under some key. */
  predicate HasNestedCell(rows: seq<Row>) {
    exists i, k :: 0 <= i < |rows| && k in rows[i] && (rows[i][k].JObject? || rows[i][k].JArray?)
  }

  /**
   * `create_table_view` as written. Its `import json` sits inside the
   * `isinstance(data, str)` branch, which makes `json` a local name of the
   * whole method, bound only when that branch ran. For data that is not a
   * string, the first nested cell raises instead of being dumped, and the
   * error is logged in place of the table.
   */
  function ShapeAsWritten(data: Json.Value, parse: Json.Parser): Shaped {
    match Normalize(data, parse)
    case Rejected(m) => Rejected(m)
    case Rows(rows) =>
      if !data.JString? && HasNestedCell(rows) then Rejected(ViewFailed + UnboundJson) else Rows(rows)
  }

  /**
   * As written, decoded data with a nested value never makes a table,
   * although the cell rules give that value a text.
   */
  lemma NestedCellAsWritten(data: Json.Value, parse: Json.Parser, dump: Json.Dumper, i: nat, k: string)
    requires !data.JString? && Normalize(data, parse).Rows?
    requires i < |Normalize(data, parse).rows| && k in Normalize(data, parse).rows[i]
    requires Normalize(data, parse).rows[i][k].JObject? || Normalize(data, parse).rows[i][k].JArray?
    ensures ShapeAsWritten(data, parse) == Rejected(ViewFailed + UnboundJson)
    ensures CellText(Normalize(data, parse).rows[i], k, dump) == dump(Normalize(data, parse).rows[i][k])
  {
    assert HasNestedCell(Normalize(data, parse).rows);
  }

  /** The smallest case: one record whose only field is an empty list. */
  lemma NestedCellExample(parse: Json.Parser, dump: Json.Dumper)
    ensures var data := Json.JObject(map["tags" := Json.JArray([])]);
      Normalize(data, parse).Rows? && ShapeAsWritten(data, parse).Rejected?
  {
    var data := Json.JObject(map["tags" := Json.JArray([])]);
    NestedCellAsWritten(data, parse, dump, 0, "tags");
  }

  /** Without nested values, or for data decoded from a string, the view as written is the corrected one. */
  lemma AsWrittenAgreesOtherwise(data: Json.Value, parse: Json.Parser)
    requires data.JString? || !Normalize(data, parse).Rows? || !HasNestedCell(Normalize(data, parse).rows)
    ensures ShapeAsWritten(data, parse) == Normalize(data, parse)
  {
  }

  /** The message logged once a table view is made. */
  function CreatedMessage(records: nat, columns: nat): string {
    "Vista de tabla creada con " + Decimal(records) + " registros y " + Decimal(columns) + " columnas"
  }
}
