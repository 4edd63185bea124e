/**
 * The query dialogs: the `generate_query` closures turn a model name, a
 * query type and the parameters field into a snippet, or refuse with a
 * warning. The snippet is put in the editor under a comment line and run
 * from there.
 */
module Queries {
  import opened Text
  import Transform

  const AllLabel: string := "Obtener todo (all())"
  const FirstLabel: string := "Primero (first())"
  const FindLabel: string := "Encontrar por ID (find())"
  const CountLabel: string := "Contar (count())"

  const NeedId: string := "Por favor ingresa un ID en los par\U{e1}metros."
  const NeedCustom: string := "Por favor ingresa una consulta personalizada."
  const NeedModel: string := "Por favor selecciona un modelo."
  const NeedType: string := "Por favor selecciona un tipo de consulta."

  /** The first line the editor gets above a generated query. */
  const QueryHeader: string := "// Consulta al modelo "

  /** What a closure produces: a snippet, or the warning shown instead. */
  datatype Generated = Query(code: string) | Refused(warning: string)

  /** `echo formatOutput(<model>::<call>);` */
  function EchoCall(model: string, call: string): string {
    "echo formatOutput(" + model + "::" + call + ");"
  }

  /** `echo 'Total: ' . <model>::count();` */
  function EchoTotal(model: string): string {
    "echo 'Total: ' . " + model + "::count();"
  }

  /** The snippet for a query type; any type other than the four named ones is a custom query. */
  function QueryCode(model: string, queryType: string, rawParams: string): Generated {
    var params := Strip(rawParams);
    if queryType == AllLabel then Query(EchoCall(model, "all()"))
    else if queryType == FirstLabel then Query(EchoCall(model, "first()"))
    else if queryType == FindLabel then
      if params == "" then Refused(NeedId) else Query(EchoCall(model, "find(" + params + ")"))
    else if queryType == CountLabel then Query(EchoTotal(model))
    else if params == "" then Refused(NeedCustom)
    else Query(EchoCall(model, params))
  }

  /** The closure of the model-list dialog: it first needs a selected model. */
  function GenerateForSelection(model: string, queryType: string, rawParams: string): Generated {
    if model == "" then Refused(NeedModel) else QueryCode(model, queryType, rawParams)
  }

  /** The closure of the typed-name dialog: it first needs a selected query type. */
  function GenerateForName(model: string, queryType: string, rawParams: string): Generated {
    if queryType == "" then Refused(NeedType) else QueryCode(model, queryType, rawParams)
  }

  function Spaces(n: nat): (r: string)
    ensures |r| == n && AllSpace(r)
  {
    if n == 0 then [] else Spaces(n - 1) + " "
  }

  /** The indentation of the snippet lines in each dialog's editor text. */
  const SelectionIndent: nat := 20
  const NameIndent: nat := 12

  /** The editor text for a generated snippet, `indent` being the dialog's indentation. */
  function EditorText(model: string, code: string, indent: nat): string {
    "\n" + Spaces(indent) + QueryHeader + model + "\n" + Spaces(indent) + code + "\n" + Spaces(indent)
  }

  /** What `execute_code` takes from the editor: its text and the final line break the widget adds, stripped. */
  function EditorCode(text: string): string {
    Strip(text + "\n")
  }

  /** The log line for a generated query. */
  function QueryLogMessage(model: string, queryType: string): string {
    "Ejecutando consulta para modelo " + model + " (" + queryType + ")"
  }

  // ---- properties ----

  /** Only a find or a custom query can be refused, and exactly when its stripped parameters are empty. */
  lemma QueryRefusals(model: string, queryType: string, rawParams: string)
    ensures QueryCode(model, queryType, rawParams).Refused? <==>
      queryType != AllLabel && queryType != FirstLabel && queryType != CountLabel && Strip(rawParams) == ""
    ensures QueryCode(model, queryType, rawParams).Refused? ==>
      QueryCode(model, queryType, rawParams).warning == (if queryType == FindLabel then NeedId else NeedCustom)
  {
  }

  /** Each dialog adds its own guard in front of the query rules. */
  lemma GuardsFirst(model: string, queryType: string, rawParams: string)
    ensures model == "" ==> GenerateForSelection(model, queryType, rawParams) == Refused(NeedModel)
    ensures model != "" ==> GenerateForSelection(model, queryType, rawParams) == QueryCode(model, queryType, rawParams)
    ensures queryType == "" ==> GenerateForName(model, queryType, rawParams) == Refused(NeedType)
    ensures queryType != "" ==> GenerateForName(model, queryType, rawParams) == QueryCode(model, queryType, rawParams)
  {
  }

  /** The keyword every generated snippet starts with. */
  const Echo: string := "echo "

  /** A statement `pre + model + "::" + post` starting with `echo ` and ending with `;` names `model::`. */
  lemma StatementShape(pre: string, model: string, post: string)
    requires StartsWith(pre, Echo) && |post| > 0 && post[|post| - 1] == ';'
    ensures var c := pre + model + "::" + post;
      StartsWith(c, Echo) && c[|c| - 1] == ';' && Contains(c, model + "::")
  {
    var c := pre + model + "::" + post;
    assert c == pre + (model + "::" + post);
    StartsWithConcat(pre, model + "::" + post, Echo);
    assert c == pre + (model + "::") + post;
    assert OccursAt(c, model + "::", |pre|);
    OccursContains(c, model + "::", |pre|);
  }

  lemma EchoCallShape(model: string, call: string)
    ensures var c := EchoCall(model, call);
      StartsWith(c, Echo) && c[|c| - 1] == ';' && Contains(c, model + "::")
  {
    var pre := "echo formatOutput(";
    var post := call + ");";
    assert pre == Echo + "formatOutput(";
    StartsWithConcat(Echo, "formatOutput(", Echo);
    assert EchoCall(model, call) == pre + model + "::" + post;
    StatementShape(pre, model, post);
  }

  lemma EchoTotalShape(model: string)
    ensures var c := EchoTotal(model);
      StartsWith(c, Echo) && c[|c| - 1] == ';' && Contains(c, model + "::")
  {
    var pre := "echo 'Total: ' . ";
    var post := "count();";
    assert pre == Echo + "'Total: ' . ";
    StartsWithConcat(Echo, "'Total: ' . ", Echo);
    assert EchoTotal(model) == pre + model + "::" + post;
    StatementShape(pre, model, post);
  }

  /**
   * Every generated snippet is an `echo` that names the model's class: it
   * starts with `echo `, ends with `;` and holds `model::`.
   */
  lemma QueryShape(model: string, queryType: string, rawParams: string)
    requires QueryCode(model, queryType, rawParams).Query?
    ensures var c := QueryCode(model, queryType, rawParams).code;
      StartsWith(c, Echo) && c[|c| - 1] == ';' && Contains(c, model + "::")
  {
    var params := Strip(rawParams);
    if queryType == AllLabel {
      EchoCallShape(model, "all()");
    } else if queryType == FirstLabel {
      EchoCallShape(model, "first()");
    } else if queryType == FindLabel {
      EchoCallShape(model, "find(" + params + ")");
    } else if queryType == CountLabel {
      EchoTotalShape(model);
    } else {
      EchoCallShape(model, params);
    }
  }

  /** Lines laid out as in the editor text, stripped, lose only the blank lines and indentation around them. */
  lemma StripLayout(sp: string, h: string, model: string, code: string)
    requires AllSpace(sp) && |h| > 0 && h[0] == '/' && |code| > 0 && code[|code| - 1] == ';'
    ensures Strip("\n" + sp + h + model + "\n" + sp + code + "\n" + sp + "\n") == h + (model + "\n" + sp) + code
  {
    var mid := h + (model + "\n" + sp) + code;
    var pre := "\n" + sp;
    var post := "\n" + sp + "\n";
    assert "\n" + sp + h + model + "\n" + sp + code + "\n" + sp + "\n" == pre + mid + post;
    assert mid[0] == '/' && mid[|mid| - 1] == ';';
    StripExact(pre, mid, post);
  }

  /** The editor text of a snippet, stripped, is the header line and the indented snippet. */
  lemma EditorCodeOf(model: string, code: string, indent: nat)
    requires |code| > 0 && code[|code| - 1] == ';'
    ensures EditorCode(EditorText(model, code, indent)) == QueryHeader + (model + "\n" + Spaces(indent)) + code
  {
    assert QueryHeader[0] == '/';
    StripLayout(Spaces(indent), QueryHeader, model, code);
  }

  /** The transformer's marker for generated queries. */
  const QueryMarker: string := "// Consulta al modelo"

  /** Text under the query header starts with the transformer's marker. */
  lemma HeaderMarker(rest: string)
    ensures StartsWith(QueryHeader + rest, QueryMarker)
  {
    assert QueryHeader == QueryMarker + " ";
    assert (QueryHeader + rest)[..|QueryMarker|] == QueryMarker;
  }

  /** Trimming a statement that starts with no blank drops its final `;`. */
  lemma TrimStatement(x: string, code: string)
    requires |x| > 0 && !IsSpace(x[0]) && |code| > 0 && code[|code| - 1] == ';'
    ensures Transform.Trim(x + code) == x + code[..|code| - 1]
  {
    var mid := x + code;
    assert mid[0] == x[0] && mid[|mid| - 1] == ';';
    StripNoop(mid);
    assert mid[..|mid| - 1] == x + code[..|code| - 1];
  }

  /** A statement under a line starting with the marker comes back only without its final `;`. */
  lemma TransformUnderMarker(x: string, code: string)
    requires StartsWith(x, QueryMarker) && |code| > 0 && code[|code| - 1] == ';'
    ensures Transform.TransformCode(x + code) == x + code[..|code| - 1]
  {
    PrefixChar(x, QueryMarker, 0);
    TrimStatement(x, code);
    var t := x + code[..|code| - 1];
    StartsWithConcat(x, code[..|code| - 1], QueryMarker);
    StartsWithContains(t, QueryMarker);
    Transform.TransformEscapes(t);
  }

  /**
   * A generated query comes back from the transformer only with its final
   * `;` removed: the comment line above it is one of the transformer's
   * escape hatches.
   */
  lemma QueryBypassesTransform(model: string, code: string, indent: nat)
    requires |code| > 0 && code[|code| - 1] == ';'
    ensures Transform.TransformCode(EditorCode(EditorText(model, code, indent)))
      == QueryHeader + (model + "\n" + Spaces(indent)) + code[..|code| - 1]
  {
    var x := QueryHeader + (model + "\n" + Spaces(indent));
    EditorCodeOf(model, code, indent);
    HeaderMarker(model + "\n" + Spaces(indent));
    TransformUnderMarker(x, code);
  }
}
