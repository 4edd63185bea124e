/**
 * The code transformer (`transform_code`): a chain of early returns that
 * rewrites a short PHP snippet so that its value is printed through the
 * wrapper's `formatOutput` helper. The three regular expressions it uses are
 * anchored at the start, so only "does it match" has to be modelled; since
 * `:`, `(`, `\` and `-` are outside `[A-Za-z0-9_]`, each identifier group
 * matches a maximal run and no backtracking needs to be modelled.
 */
module Transform {
  import opened Text
  import opened Wrappers

  const ModelsNamespace := "App\\Models\\"
  const Opening := "echo formatOutput("

  /** The snippet after `strip()` and the removal of at most one trailing `;`. */
  function Trim(code: string): string {
    var s := Strip(code);
    if EndsWith(s, ";") then s[..|s| - 1] else s
  }

  /** `echo formatOutput(<prefix><body>);` */
  function Wrap(prefix: string, body: string): string {
    Opening + prefix + body + ");"
  }

  predicate IsWrapped(r: string) {
    StartsWith(r, Opening) && EndsWith(r, ");")
  }

  /**
   * The part of `c` that an `^...$` pattern without `re.MULTILINE` can cover:
   * `.` and the identifier classes never match a newline, and `$` matches at
   * the end or just before a newline that ends the text.
   */
  function RegexLine(c: string): (r: Option<string>)
    ensures r.Some? ==> '\n' !in r.value && (r.value == c || r.value + "\n" == c)
    ensures '\n' !in c ==> r == Some(c)
  {
    if '\n' !in c then Some(c)
    else if c[|c| - 1] == '\n' && '\n' !in c[..|c| - 1] then Some(c[..|c| - 1])
    else None
  }

  /** `[A-Za-z0-9_]+\(.*\)(.*)` on one line: a method name, `(`, and a `)` somewhere after it. */
  predicate CallTail(t: string) {
    var k := IdentRun(t);
    1 <= k < |t| && t[k] == '(' && ')' in t[k + 1..]
  }

  /** `([A-Za-z0-9_]+)::([A-Za-z0-9_]+\(.*\))(.*)` on one line. */
  predicate ModelCallLine(m: string) {
    var k := IdentRun(m);
    1 <= k && OccursAt(m, "::", k) && CallTail(m[k + 2..])
  }

  predicate IsNamespaceChar(c: char) {
    IsIdentChar(c) || c == '\\'
  }

  /** Length of the longest prefix of `s` in `[A-Za-z0-9_\\]`. */
  function NamespaceRun(s: string): (k: nat)
    ensures k <= |s|
    ensures forall j :: 0 <= j < k ==> IsNamespaceChar(s[j])
    ensures k == |s| || !IsNamespaceChar(s[k])
  {
    if |s| > 0 && IsNamespaceChar(s[0]) then 1 + NamespaceRun(s[1..]) else 0
  }

  /** The maximal namespace run is determined by where the first other character stands. */
  lemma NamespaceRunAt(s: string, k: nat)
    requires k <= |s|
    requires forall j :: 0 <= j < k ==> IsNamespaceChar(s[j])
    requires k == |s| || !IsNamespaceChar(s[k])
    ensures NamespaceRun(s) == k
  {
  }

  /** `App\\([A-Za-z0-9_\\]+)::([A-Za-z0-9_]+\(.*\))(.*)` on one line. */
  predicate NamespaceCallLine(m: string) {
    StartsWith(m, "App\\") &&
    var t := m[4..];
    var k := NamespaceRun(t);
    1 <= k && OccursAt(t, "::", k) && CallTail(t[k + 2..])
  }

  /** `re.match(r'^([A-Z][A-Za-z0-9_]*)(::|\->)', c)` succeeds. */
  predicate ClassPrefix(c: string) {
    |c| > 0 && IsUpper(c[0]) &&
    var k := IdentRun(c);
    OccursAt(c, "::", k) || OccursAt(c, "->", k)
  }

  /** What `transform_code` does with the trimmed snippet: return it, or print `<prefix><body>` through `formatOutput`. */
  datatype Action = Keep | Print(prefix: string, body: string)

  /** The chain of early returns of `transform_code`, applied to the trimmed snippet `c`. */
  function Decide(c: string): (a: Action)
    ensures a.Print? ==> a.prefix == "" || a.prefix == ModelsNamespace
    ensures a.Print? ==> a.body == c || RegexLine(c) == Some(a.body)
  {
    var line := RegexLine(c);
    if Contains(c, "echo formatOutput") then Keep
    else if StartsWith(c, "var_dump(") || StartsWith(c, "dd(") then Keep
    else if Contains(c, "// Consulta al modelo") then Keep
    else if StartsWith(c, "DB::") || StartsWith(c, "\\DB::") || StartsWith(c, "Schema::") then
      if !StartsWith(c, "echo") then Print("", c) else Keep
    else if line.Some? && ModelCallLine(line.value) && IsUpper(line.value[0]) then
      Print(ModelsNamespace, line.value)
    else if line.Some? && NamespaceCallLine(line.value) then
      Print("", line.value)
    else if Contains(c, "::") || Contains(c, "->") then
      if ClassPrefix(c) && Contains(Take(c, 10), "::") && !StartsWith(c, "App\\") then Print(ModelsNamespace, c)
      else Print("", c)
    else Keep
  }

  /** The text `transform_code` returns for a trimmed snippet. */
  function Rewrite(c: string): (r: string)
    ensures Decide(c) == Keep ==> r == c
    ensures Decide(c).Print? ==> IsWrapped(r) && StartsWith(r, Opening + Decide(c).prefix)
  {
    match Decide(c)
    case Keep => c
    case Print(prefix, body) => WrapIsWrapped(prefix, body); Wrap(prefix, body)
  }

  /** `transform_code`: the snippet a run executes when automatic transformation is on. */
  function TransformCode(code: string): (r: string)
    ensures r == Trim(code) || IsWrapped(r)
  {
    Rewrite(Trim(code))
  }

  // ---- facts about the pieces ----

  lemma WrapIsWrapped(prefix: string, body: string)
    ensures IsWrapped(Wrap(prefix, body)) && StartsWith(Wrap(prefix, body), Opening + prefix)
    ensures |Wrap(prefix, body)| == |Opening| + |prefix| + |body| + 2
  {
    var w := Wrap(prefix, body);
    assert w[..|Opening|] == Opening;
    assert w[..|Opening + prefix|] == Opening + prefix;
    assert w[|w| - 2..] == ");";
  }

  /** The one-line part a regex sees is a prefix of the snippet, short of it by at most a final newline. */
  lemma LinePrefix(c: string)
    ensures var l := RegexLine(c);
      l.Some? ==> StartsWith(c, l.value) && |c| <= |l.value| + 1
  {
    var l := RegexLine(c);
    if l.Some? && l.value != c {
      assert c[..|l.value|] == l.value;
    }
  }

  /** The shape of a line the first regex matches: a name, then `::`. */
  lemma CallLineShape(m: string)
    requires ModelCallLine(m)
    ensures var k := IdentRun(m); 1 <= k && k + 2 <= |m| && m[k] == ':' && m[k + 1] == ':'
  {
    var k := IdentRun(m);
    OccursAtChar(m, "::", k, 0);
    OccursAtChar(m, "::", k, 1);
  }

  /** The shape of a line the second regex matches: `App\`, a namespace path, then `::`. */
  lemma NamespaceLineShape(m: string)
    requires NamespaceCallLine(m)
    ensures var k := NamespaceRun(m[4..]); 1 <= k && k + 6 <= |m| && m[k + 4] == ':' && m[k + 5] == ':'
  {
    var t := m[4..];
    var k := NamespaceRun(t);
    OccursAtChar(t, "::", k, 0);
    OccursAtChar(t, "::", k, 1);
  }

  /** A text that has `::` at index `i` contains `::`. */
  lemma ColonsAt(c: string, i: int)
    requires 0 <= i && i + 2 <= |c| && c[i] == ':' && c[i + 1] == ':'
    ensures Contains(c, "::")
  {
    assert c[i..i + 2] == "::";
    OccursContains(c, "::", i);
  }

  /** What the two anchored call regexes match contains `::`, and so does the snippet they are matched against. */
  lemma CallLineHasColons(c: string, m: string)
    requires RegexLine(c) == Some(m)
    requires ModelCallLine(m) || NamespaceCallLine(m)
    ensures Contains(c, "::")
  {
    LinePrefix(c);
    if ModelCallLine(m) {
      CallLineShape(m);
      var k := IdentRun(m);
      StartsWithAt(c, m, k);
      StartsWithAt(c, m, k + 1);
      ColonsAt(c, k);
    } else {
      NamespaceLineShape(m);
      var k := NamespaceRun(m[4..]) + 4;
      StartsWithAt(c, m, k);
      StartsWithAt(c, m, k + 1);
      ColonsAt(c, k);
    }
  }

  /** The facade prefixes contain `::`. */
  lemma FacadeHasColons(c: string)
    requires StartsWith(c, "DB::") || StartsWith(c, "\\DB::") || StartsWith(c, "Schema::")
    ensures Contains(c, "::")
  {
    LeadingChars(c);
    if StartsWith(c, "DB::") {
      ColonsAt(c, 2);
    } else if StartsWith(c, "\\DB::") {
      ColonsAt(c, 3);
    } else {
      ColonsAt(c, 6);
    }
  }

  /** The first characters of the prefixes the transformer tests for. */
  lemma LeadingChars(c: string)
    ensures StartsWith(c, "var_dump(") ==> c[0] == 'v'
    ensures StartsWith(c, "dd(") ==> c[0] == 'd'
    ensures StartsWith(c, "DB::") ==> c[0] == 'D' && c[2] == ':' && c[3] == ':'
    ensures StartsWith(c, "\\DB::") ==> c[0] == '\\' && c[3] == ':' && c[4] == ':'
    ensures StartsWith(c, "Schema::") ==> c[0] == 'S' && c[6] == ':' && c[7] == ':'
    ensures StartsWith(c, "App\\") ==> c[0] == 'A' && c[1] == 'p' && c[2] == 'p' && c[3] == '\\'
  {
    PrefixChar(c, "var_dump(", 0);
    PrefixChar(c, "dd(", 0);
    PrefixChar(c, "DB::", 0);
    PrefixChar(c, "DB::", 2);
    PrefixChar(c, "DB::", 3);
    PrefixChar(c, "\\DB::", 0);
    PrefixChar(c, "\\DB::", 3);
    PrefixChar(c, "\\DB::", 4);
    PrefixChar(c, "Schema::", 0);
    PrefixChar(c, "Schema::", 6);
    PrefixChar(c, "Schema::", 7);
    PrefixChar(c, "App\\", 0);
    PrefixChar(c, "App\\", 1);
    PrefixChar(c, "App\\", 2);
    PrefixChar(c, "App\\", 3);
  }

  /** The `not code.startswith("App\\")` guard of the fallback never fails once the class pattern has matched. */
  lemma ClassPrefixExcludesApp(c: string)
    requires ClassPrefix(c)
    ensures !StartsWith(c, "App\\")
  {
    LeadingChars(c);
    if StartsWith(c, "App\\") {
      IdentRunAt(c, 3);
      OccursAtHead(c, "::", 3);
      OccursAtHead(c, "->", 3);
    }
  }

  /** A line starting `App\` is not matched by the first call regex. */
  lemma AppNotModelCall(m: string)
    requires StartsWith(m, "App\\")
    ensures !ModelCallLine(m) && m[0] == 'A'
  {
    LeadingChars(m);
    IdentRunAt(m, 3);
    OccursAtHead(m, "::", 3);
  }

  /** An occurrence starts with the first character of what occurs. */
  lemma OccursAtHead(s: string, t: string, i: int)
    requires |t| > 0
    ensures OccursAt(s, t, i) ==> s[i] == t[0]
  {
    if OccursAt(s, t, i) {
      OccursAtChar(s, t, i, 0);
    }
  }

  /**
   * A snippet whose one-line part starts with an identifier followed by `::`
   * does not start with `var_dump(` or `dd(`.
   */
  lemma NotDumpCall(c: string, m: string, k: int)
    requires StartsWith(c, m) && 1 <= k < |m|
    requires forall j :: 0 <= j < k ==> IsIdentChar(m[j])
    requires m[k] == ':'
    ensures !StartsWith(c, "var_dump(") && !StartsWith(c, "dd(")
  {
    var j := if k < 8 then k else 8;
    StartsWithAt(c, m, j);
    PrefixChar(c, "var_dump(", j);
    var i := if k < 2 then k else 2;
    StartsWithAt(c, m, i);
    PrefixChar(c, "dd(", i);
  }

  /** A snippet whose one-line part is an upper-case `Name::method(...)` call matches the class pattern. */
  lemma CallLineClassPrefix(c: string, m: string)
    requires StartsWith(c, m) && ModelCallLine(m) && IsUpper(m[0])
    ensures ClassPrefix(c)
  {
    CallLineShape(m);
    var k := IdentRun(m);
    forall j | 0 <= j <= k + 1 ensures c[j] == m[j] {
      StartsWithAt(c, m, j);
    }
    IdentRunAt(c, k);
    assert c[k..k + 2] == "::";
  }

  // ---- properties of the transformer ----

  /** Text with neither `::` nor `->` is returned as it is. */
  lemma TransformWithoutOperators(c: string)
    requires !Contains(c, "::") && !Contains(c, "->")
    ensures Decide(c) == Keep && Rewrite(c) == c
  {
    if StartsWith(c, "DB::") || StartsWith(c, "\\DB::") || StartsWith(c, "Schema::") {
      FacadeHasColons(c);
    }
    var line := RegexLine(c);
    if line.Some? && (ModelCallLine(line.value) || NamespaceCallLine(line.value)) {
      CallLineHasColons(c, line.value);
    }
  }

  /** Already wrapped text, `var_dump(`/`dd(` calls and generated queries are returned as they are. */
  lemma TransformEscapes(c: string)
    requires Contains(c, "echo formatOutput") || StartsWith(c, "var_dump(") || StartsWith(c, "dd(")
      || Contains(c, "// Consulta al modelo")
    ensures Decide(c) == Keep && Rewrite(c) == c
  {
  }

  /** Snippets starting `DB::`, `\DB::` or `Schema::` are wrapped as they stand. */
  lemma TransformFacade(c: string)
    requires StartsWith(c, "DB::") || StartsWith(c, "\\DB::") || StartsWith(c, "Schema::")
    requires !Contains(c, "echo formatOutput") && !Contains(c, "// Consulta al modelo")
    ensures Rewrite(c) == Wrap("", c)
  {
    LeadingChars(c);
    assert Decide(c) == Print("", c);
  }

  /** `Name::method(...)rest` on one line, with `Name` upper-case initial, gets the `App\Models\` prefix. */
  lemma TransformModelCall(c: string, m: string)
    requires RegexLine(c) == Some(m) && ModelCallLine(m) && IsUpper(m[0])
    requires !Contains(c, "echo formatOutput") && !Contains(c, "// Consulta al modelo")
    requires !StartsWith(c, "DB::") && !StartsWith(c, "Schema::")
    ensures Rewrite(c) == Wrap(ModelsNamespace, m)
  {
    LinePrefix(c);
    CallLineShape(m);
    NotDumpCall(c, m, IdentRun(m));
    StartsWithAt(c, m, 0);
    LeadingChars(c);
    assert Decide(c) == Print(ModelsNamespace, m);
  }

  /** `App\...::method(...)rest` on one line is wrapped as it stands. */
  lemma TransformNamespaceCall(c: string, m: string)
    requires RegexLine(c) == Some(m) && NamespaceCallLine(m)
    requires !Contains(c, "echo formatOutput") && !Contains(c, "// Consulta al modelo")
    ensures Rewrite(c) == Wrap("", m)
  {
    LinePrefix(c);
    AppNotModelCall(m);
    StartsWithAt(c, m, 0);
    LeadingChars(c);
    assert Decide(c) == Print("", m);
  }

  /** A `name::method(...)` call whose name does not start with `A`-`Z` is wrapped without the `App\Models\` prefix. */
  lemma TransformLowercaseCall(c: string, m: string)
    requires RegexLine(c) == Some(m) && ModelCallLine(m) && !IsUpper(m[0])
    requires !Contains(c, "echo formatOutput") && !Contains(c, "// Consulta al modelo")
    ensures Rewrite(c) == Wrap("", c)
  {
    LinePrefix(c);
    CallLineShape(m);
    NotDumpCall(c, m, IdentRun(m));
    CallLineHasColons(c, m);
    StartsWithAt(c, m, 0);
    LeadingChars(c);
    LeadingChars(m);
    assert !NamespaceCallLine(m);
    assert !ClassPrefix(c);
    assert Decide(c) == Print("", c);
  }

  /** Any other text with `::` or `->` is wrapped, with `App\Models\` only for a class name whose `::` is in the first 10 characters. */
  lemma TransformFallback(c: string)
    requires !Contains(c, "echo formatOutput") && !StartsWith(c, "var_dump(") && !StartsWith(c, "dd(")
    requires !Contains(c, "// Consulta al modelo")
    requires !StartsWith(c, "DB::") && !StartsWith(c, "\\DB::") && !StartsWith(c, "Schema::")
    requires var line := RegexLine(c);
      !(line.Some? && ModelCallLine(line.value) && IsUpper(line.value[0]))
      && !(line.Some? && NamespaceCallLine(line.value))
    requires Contains(c, "::") || Contains(c, "->")
    ensures Rewrite(c) == Wrap(if ClassPrefix(c) && Contains(Take(c, 10), "::") then ModelsNamespace else "", c)
  {
    if ClassPrefix(c) {
      ClassPrefixExcludesApp(c);
    }
  }

  /**
   * The `App\Models\` prefix is only ever put in front of text that starts
   * with an upper-case class name followed by `::` or `->`, and either the
   * `::` is among the first 10 characters of the snippet or the one-line
   * part is a `Name::method(...)` call.
   */
  lemma ModelsPrefixNeedsClassName(c: string)
    requires Decide(c).Print? && Decide(c).prefix == ModelsNamespace
    ensures ClassPrefix(c)
    ensures (Decide(c).body == c && Contains(Take(c, 10), "::"))
      || (RegexLine(c) == Some(Decide(c).body) && ModelCallLine(Decide(c).body))
  {
    var line := RegexLine(c);
    if line.Some? && ModelCallLine(line.value) && IsUpper(line.value[0]) {
      LinePrefix(c);
      CallLineClassPrefix(c, line.value);
    }
  }

  /** A wrapped call without its `;` is left as it is, by `strip()` and by the chain of returns. */
  lemma TransformKeepsOpenCall(z: string)
    requires StartsWith(z, Opening) && z[|z| - 1] == ')'
    ensures Trim(z) == z && Rewrite(z) == z && TransformCode(z) == z
  {
    StartsWithAt(z, Opening, 0);
    StripNoop(z);
    assert z[..17] == "echo formatOutput";
    StartsWithContains(z, "echo formatOutput");
    TransformEscapes(z);
  }

  /** Trimming a wrapped text removes exactly its final `;`, leaving an open call. */
  lemma TrimWrapped(y: string)
    requires IsWrapped(y)
    ensures Trim(y) == y[..|y| - 1]
    ensures StartsWith(Trim(y), Opening) && Trim(y)[|Trim(y)| - 1] == ')'
  {
    assert y[0] == 'e' && y[|y| - 1] == ';' && y[|y| - 2] == ')';
    StripNoop(y);
    var z := y[..|y| - 1];
    assert z[..|Opening|] == Opening;
  }

  /**
   * The transformer is idempotent up to the `;` it strips: a wrapped text,
   * such as any wrapped result of the transformer, loses its final `;` when
   * transformed again and is stable from then on.
   */
  lemma TransformIdempotentUpToSemicolon(y: string)
    requires IsWrapped(y)
    ensures TransformCode(y) == y[..|y| - 1]
    ensures TransformCode(TransformCode(y)) == TransformCode(y)
  {
    TrimWrapped(y);
    TransformKeepsOpenCall(Trim(y));
  }

  // ---- the documented examples ----

  /** A non-empty run of `[A-Za-z0-9_]`. */
  predicate IsIdent(s: string) {
    |s| > 0 && forall j :: 0 <= j < |s| ==> IsIdentChar(s[j])
  }

  /** Text without blanks and newlines. */
  predicate Blankless(c: string) {
    forall j :: 0 <= j < |c| ==> c[j] != ' ' && c[j] != '\n'
  }

  /** Blankless text that ends in `)` and has a non-blank first character. */
  predicate Compact(c: string) {
    |c| > 0 && c[|c| - 1] == ')' && !IsSpace(c[0]) && Blankless(c)
  }

  lemma BlanklessConcat(a: string, b: string)
    requires Blankless(a) && Blankless(b)
    ensures Blankless(a + b)
  {
    forall j | 0 <= j < |a + b| ensures (a + b)[j] != ' ' && (a + b)[j] != '\n' {
      if j < |a| { assert (a + b)[j] == a[j]; } else { assert (a + b)[j] == b[j - |a|]; }
    }
  }

  lemma BlanklessNoNewline(c: string)
    requires Blankless(c)
    ensures '\n' !in c
  {
  }

  /** An identifier followed by a non-identifier character is the maximal run. */
  lemma IdentRunConcat(a: string, b: string)
    requires IsIdent(a) && |b| > 0 && !IsIdentChar(b[0])
    ensures IdentRun(a + b) == |a| && Blankless(a) && (a + b)[0] == a[0]
  {
    forall j | 0 <= j < |a| ensures IsIdentChar((a + b)[j]) {
      assert (a + b)[j] == a[j];
    }
    assert (a + b)[|a|] == b[0];
    IdentRunAt(a + b, |a|);
  }

  /** `name::meth()` is matched by the first call regex and is compact. */
  lemma SimpleCallLine(name: string, meth: string)
    requires IsIdent(name) && IsIdent(meth)
    ensures var m := name + "::" + meth + "()";
      ModelCallLine(m) && m[0] == name[0] && Compact(m) && '\n' !in m
  {
    var tail := meth + "()";
    IdentRunConcat(meth, "()");
    assert tail[|meth| + 1..] == ")";
    assert CallTail(tail);
    var rest := "::" + tail;
    var m := name + rest;
    assert m == name + "::" + meth + "()";
    IdentRunConcat(name, rest);
    assert m[|name|..|name| + 2] == "::";
    assert m[|name| + 2..] == tail;
    BlanklessConcat(meth, "()");
    BlanklessConcat("::", tail);
    BlanklessConcat(name, rest);
    BlanklessNoNewline(m);
  }

  /** A compact text followed by `;` is trimmed back to itself. */
  lemma TrimCompact(c: string)
    requires |c| > 0 && !IsSpace(c[0])
    ensures Trim(c + ";") == c
  {
    var s := c + ";";
    assert s[0] == c[0] && s[|s| - 1] == ';';
    StripNoop(s);
    assert EndsWith(s, ";") && s[..|s| - 1] == c;
  }

  /** Text without blanks does not contain the `echo formatOutput` marker. */
  lemma NoEchoMarker(c: string)
    requires forall j :: 0 <= j < |c| ==> c[j] != ' '
    ensures !Contains(c, "echo formatOutput")
  {
    var e := "echo formatOutput";
    assert e[4] == ' ';
    MissingCharNotContains(c, e, 4);
  }

  /** Text without blanks does not contain the `// Consulta al modelo` marker. */
  lemma NoQueryMarker(c: string)
    requires forall j :: 0 <= j < |c| ==> c[j] != ' '
    ensures !Contains(c, "// Consulta al modelo")
  {
    var q := "// Consulta al modelo";
    assert q[2] == ' ';
    MissingCharNotContains(c, q, 2);
  }

  /** In `name::...`, a prefix `p::` with `p` an identifier means `name` is `p`. */
  lemma NameBeforeColons(c: string, name: string, p: string)
    requires IsIdent(name) && IsIdent(p) && StartsWith(c, name + "::")
    ensures StartsWith(c, p + "::") ==> name == p
  {
    if StartsWith(c, p + "::") {
      IdentRunAt(c, |name|);
      IdentRunAt(c, |p|);
      assert name == c[..|name|] && p == c[..|p|];
    }
  }

  /** `name::meth()` starts with `DB::` or `Schema::` only when `name` is that facade. */
  lemma NotFacade(name: string, meth: string)
    requires IsIdent(name) && name != "DB" && name != "Schema"
    ensures var c := name + "::" + meth + "()";
      !StartsWith(c, "DB::") && !StartsWith(c, "Schema::")
  {
    var c := name + "::" + meth + "()";
    assert c[..|name| + 2] == name + "::";
    NameBeforeColons(c, name, "DB");
    NameBeforeColons(c, name, "Schema");
  }

  /**
   * `Name::method();`, the first example of the transformer's documentation,
   * becomes `echo formatOutput(App\Models\Name::method());` for every model
   * name other than the `DB` and `Schema` facades.
   */
  lemma ExampleModelCall(name: string, meth: string)
    requires IsIdent(name) && IsUpper(name[0]) && name != "DB" && name != "Schema"
    requires IsIdent(meth)
    ensures TransformCode(name + "::" + meth + "();") == Wrap(ModelsNamespace, name + "::" + meth + "()")
  {
    var c := name + "::" + meth + "()";
    assert name + "::" + meth + "();" == c + ";";
    SimpleCallLine(name, meth);
    TrimCompact(c);
    NoEchoMarker(c);
    NoQueryMarker(c);
    NotFacade(name, meth);
    TransformModelCall(c, c);
  }

  /** A newline between a one-line call and its `;` is lost, and the call is transformed as if it were not there. */
  lemma ExampleNewlineBeforeSemicolon(name: string, meth: string)
    requires IsIdent(name) && IsUpper(name[0]) && name != "DB" && name != "Schema"
    requires IsIdent(meth)
    ensures TransformCode(name + "::" + meth + "()\n;") == TransformCode(name + "::" + meth + "();")
  {
    var c := name + "::" + meth + "()";
    assert name + "::" + meth + "()\n;" == c + "\n;";
    SimpleCallLine(name, meth);
    NewlineLine(c);
    NotFacade(name, meth);
    NewlineCallRewrite(c);
    ExampleModelCall(name, meth);
  }

  /** A one-line upper-case call plus a final newline is printed with the `App\Models\` prefix, without the newline. */
  lemma NewlineCallRewrite(c: string)
    requires ModelCallLine(c) && IsUpper(c[0]) && Compact(c) && '\n' !in c
    requires !StartsWith(c, "DB::") && !StartsWith(c, "Schema::")
    ensures Rewrite(c + "\n") == Wrap(ModelsNamespace, c)
  {
    var n := c + "\n";
    NewlineLine(c);
    PrefixesOfExtension(c, n, "DB::");
    PrefixesOfExtension(c, n, "Schema::");
    NoEchoMarker(n);
    NoQueryMarker(n);
    TransformModelCall(n, c);
  }

  /** A line followed by a newline and `;` is trimmed to the line and its newline, which the regexes then drop. */
  lemma NewlineLine(c: string)
    requires Compact(c) && '\n' !in c
    ensures Trim(c + "\n;") == c + "\n" && RegexLine(c + "\n") == Some(c)
    ensures StartsWith(c + "\n", c)
    ensures forall j :: 0 <= j < |c + "\n"| ==> (c + "\n")[j] != ' '
  {
    var n := c + "\n";
    var s := n + ";";
    assert s == c + "\n;";
    assert s[0] == c[0] && s[|s| - 1] == ';';
    StripNoop(s);
    assert EndsWith(s, ";") && s[..|s| - 1] == n;
    assert n[..|n| - 1] == c;
    assert n[..|c|] == c;
    forall j | 0 <= j < |n| ensures n[j] != ' ' {
      if j < |c| { assert n[j] == c[j]; }
    }
  }

  /** Appending a newline creates no new prefix free of newlines. */
  lemma PrefixesOfExtension(c: string, n: string, p: string)
    requires n == c + "\n" && '\n' !in p
    ensures StartsWith(n, p) ==> StartsWith(c, p)
  {
    assert n[|n| - 1] == '\n';
    if |p| > 0 {
      PrefixChar(n, p, |p| - 1);
    }
    if StartsWith(n, p) && |p| <= |c| {
      assert n[..|p|] == c[..|p|];
    }
  }

  /** A namespace path followed by a character outside `[A-Za-z0-9_\\]` is the maximal run. */
  lemma NamespaceRunConcat(a: string, b: string)
    requires |a| > 0 && (forall j :: 0 <= j < |a| ==> IsNamespaceChar(a[j]))
    requires |b| > 0 && !IsNamespaceChar(b[0])
    ensures NamespaceRun(a + b) == |a| && Blankless(a)
  {
    forall j | 0 <= j < |a| ensures IsNamespaceChar((a + b)[j]) {
      assert (a + b)[j] == a[j];
    }
    assert (a + b)[|a|] == b[0];
    NamespaceRunAt(a + b, |a|);
  }

  /** `meth()` is what the call regexes accept after `::`, and is blankless. */
  lemma SimpleCallTail(meth: string)
    requires IsIdent(meth)
    ensures CallTail(meth + "()") && Blankless(meth + "()")
  {
    var tail := meth + "()";
    IdentRunConcat(meth, "()");
    assert tail[|meth| + 1..] == ")";
    BlanklessConcat(meth, "()");
  }

  /** `Path::meth()` after `App\` is what the second call regex accepts there. */
  lemma SimpleNamespaceTail(path: string, meth: string)
    requires IsIdent(meth) && |path| > 0
    requires forall j :: 0 <= j < |path| ==> IsNamespaceChar(path[j])
    ensures var t := path + "::" + meth + "()"; var k := NamespaceRun(t);
      1 <= k && OccursAt(t, "::", k) && CallTail(t[k + 2..]) && Blankless(t) && t[|t| - 1] == ')'
  {
    var tail := meth + "()";
    SimpleCallTail(meth);
    var rest := "::" + tail;
    var t := path + rest;
    assert t == path + "::" + meth + "()";
    NamespaceRunConcat(path, rest);
    assert t[|path|..|path| + 2] == "::";
    assert t[|path| + 2..] == tail;
    BlanklessConcat("::", tail);
    BlanklessConcat(path, rest);
  }

  /** `App\` in front of what the second call regex accepts after it gives a line that regex matches. */
  lemma AppLineMatches(t: string)
    requires var k := NamespaceRun(t); 1 <= k && OccursAt(t, "::", k) && CallTail(t[k + 2..])
    ensures NamespaceCallLine("App\\" + t)
  {
    var c := "App\\" + t;
    assert c[4..] == t && c[..4] == "App\\";
  }

  /** `App\` in front of a blankless call keeps it compact. */
  lemma AppLineCompact(t: string)
    requires Blankless(t) && |t| > 0 && t[|t| - 1] == ')'
    ensures Compact("App\\" + t)
  {
    var c := "App\\" + t;
    BlanklessConcat("App\\", t);
    assert c[0] == 'A' && c[|c| - 1] == t[|t| - 1];
  }

  /** `App\Path::method();`, the second documented example, is wrapped as it stands. */
  lemma ExampleNamespaceCall(path: string, meth: string)
    requires IsIdent(meth) && |path| > 0
    requires forall j :: 0 <= j < |path| ==> IsNamespaceChar(path[j])
    ensures TransformCode("App\\" + path + "::" + meth + "();") == Wrap("", "App\\" + path + "::" + meth + "()")
  {
    var t := path + "::" + meth + "()";
    var c := "App\\" + t;
    assert c == "App\\" + path + "::" + meth + "()";
    assert "App\\" + path + "::" + meth + "();" == c + ";";
    SimpleNamespaceTail(path, meth);
    AppLineMatches(t);
    AppLineCompact(t);
    BlanklessNoNewline(c);
    TrimCompact(c);
    NoEchoMarker(c);
    NoQueryMarker(c);
    TransformNamespaceCall(c, c);
  }

  /** Arithmetic without `::` or `->` is returned without its `;`. */
  lemma ExamplePlain()
    ensures TransformCode("1 + 1;") == "1 + 1"
  {
    var code := "1 + 1;";
    var c := "1 + 1";
    StripNoop(code);
    assert EndsWith(code, ";") && code[..|code| - 1] == c;
    assert Trim(code) == c;
    MissingCharNotContains(c, "::", 0);
    MissingCharNotContains(c, "->", 0);
    TransformWithoutOperators(c);
  }
}
