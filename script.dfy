/**
 * The PHP script a run executes (`_run_tinker`): the names of the models the
 * snippet mentions, found with `re.findall(r'([A-Z][A-Za-z0-9_]*)::', code)`
 * minus the framework's facades, and the wrapper text written around the
 * snippet, one `f.write` after another.
 */
module Script {
  import opened Text

  // ---- model names ----

  /** The facades and helpers that are not Eloquent models and get no `use App\Models\...;` line. */
  const NonModelClasses: set<string> :=
    {"DB", "Schema", "Route", "Auth", "Storage", "Config", "Log", "Cache", "View", "Response", "Request"}

  /** What the group `[A-Z][A-Za-z0-9_]*` can capture. */
  predicate IsClassName(n: string) {
    |n| > 0 && IsUpper(n[0]) && forall j :: 0 <= j < |n| ==> IsIdentChar(n[j])
  }

  /** The pattern matches at index `i` of `s`, capturing `n`: the class name is followed by `::`. */
  predicate MatchAt(s: string, n: string, i: int) {
    IsClassName(n) && OccursAt(s, n + "::", i)
  }

  /** End of the identifier run that starts at `p`. */
  function RunEnd(s: string, p: nat): (q: nat)
    requires p <= |s|
    ensures p <= q <= |s|
    ensures forall j :: p <= j < q ==> IsIdentChar(s[j])
    ensures q == |s| || !IsIdentChar(s[q])
  {
    p + IdentRun(s[p..])
  }

  /**
   * `re.findall` of the class-name pattern, scanning `s` from index `p`: a
   * match at `p` is the whole identifier run there (the characters after it
   * cannot extend it, so backtracking never helps), and the scan resumes
   * after its `::`; otherwise the scan moves on by one character.
   */
  function FindAllFrom(s: string, p: nat): (r: seq<string>)
    requires p <= |s|
    ensures forall k :: 0 <= k < |r| ==> IsClassName(r[k])
    decreases |s| - p
  {
    if p == |s| then []
    else if IsUpper(s[p]) && OccursAt(s, "::", RunEnd(s, p)) then
      var q := RunEnd(s, p);
      [s[p..q]] + FindAllFrom(s, q + 2)
    else FindAllFrom(s, p + 1)
  }

  function FindAll(s: string): seq<string> {
    FindAllFrom(s, 0)
  }

  /** `model_names` after the exclusion of the facades. */
  function ModelNames(code: string): (names: set<string>)
    ensures forall n :: n in names ==> IsClassName(n) && n !in NonModelClasses
  {
    var found := FindAll(code);
    set k | 0 <= k < |found| && found[k] !in NonModelClasses :: found[k]
  }

  /** The pattern matches at `p` when an upper-case letter starts an identifier run followed by `::`. */
  lemma HeadMatch(s: string, p: nat)
    requires p < |s| && IsUpper(s[p]) && OccursAt(s, "::", RunEnd(s, p))
    ensures MatchAt(s, s[p..RunEnd(s, p)], p)
  {
    var q := RunEnd(s, p);
    var n := s[p..q];
    forall j | 0 <= j < |n| ensures IsIdentChar(n[j]) {
      assert n[j] == s[p + j];
    }
    assert s[p..q + 2] == s[p..q] + s[q..q + 2];
  }

  /** Every name the scan from `p` finds is captured at some index at or after `p`. */
  lemma {:induction false} FindAllFromSound(s: string, p: nat, k: int) returns (i: int)
    requires p <= |s| && 0 <= k < |FindAllFrom(s, p)|
    ensures p <= i && MatchAt(s, FindAllFrom(s, p)[k], i)
    decreases |s| - p
  {
    var r := FindAllFrom(s, p);
    if IsUpper(s[p]) && OccursAt(s, "::", RunEnd(s, p)) {
      var q := RunEnd(s, p);
      var rest := FindAllFrom(s, q + 2);
      assert r == [s[p..q]] + rest;
      if k == 0 {
        HeadMatch(s, p);
        i := p;
      } else {
        assert r[k] == rest[k - 1];
        i := FindAllFromSound(s, q + 2, k - 1);
      }
    } else {
      i := FindAllFromSound(s, p + 1, k);
    }
  }

  /** Every extracted model name is a class name, occurs in the code followed by `::`, and is not a facade. */
  lemma ModelNamesSound(code: string, n: string) returns (i: int)
    requires n in ModelNames(code)
    ensures MatchAt(code, n, i) && n !in NonModelClasses
  {
    var found := FindAll(code);
    var k :| 0 <= k < |found| && found[k] == n;
    i := FindAllFromSound(code, 0, k);
  }

  /**
   * `s[i]` is the first upper-case letter of the identifier that starts at
   * `w`: nothing before `w` extends it, and `s[w..i]` has no upper-case letter.
   */
  predicate FirstUpperOfWord(s: string, w: int, i: int) {
    0 <= w <= i < |s| && (w == 0 || !IsIdentChar(s[w - 1])) && IsUpper(s[i])
    && forall j :: w <= j < i ==> IsIdentChar(s[j]) && !IsUpper(s[j])
  }

  /** A match at `p`, before the first upper-case letter `i` of the identifier starting at `w`, ends with its `::` at or before `w`. */
  lemma PastMatch(s: string, p: nat, w: int, i: int)
    requires p < i && FirstUpperOfWord(s, w, i) && IsUpper(s[p])
    requires p < |s| && OccursAt(s, "::", RunEnd(s, p))
    ensures RunEnd(s, p) + 2 <= w
  {
    var q := RunEnd(s, p);
    OccursAtChar(s, "::", q, 0);
    OccursAtChar(s, "::", q, 1);
  }

  /**
   * The scan from `p` finds the name that starts at the first upper-case
   * letter `i` of an identifier starting at `w`, when `::` follows: no
   * earlier match can swallow it, and no earlier letter of the identifier
   * can start one.
   */
  lemma {:induction false} FindAllFromComplete(s: string, p: nat, w: int, i: int)
    requires p <= i && FirstUpperOfWord(s, w, i) && OccursAt(s, "::", RunEnd(s, i))
    ensures s[i..RunEnd(s, i)] in FindAllFrom(s, p)
    decreases i - p
  {
    if p == i {
      assert FindAllFrom(s, p) == [s[i..RunEnd(s, i)]] + FindAllFrom(s, RunEnd(s, i) + 2);
    } else if IsUpper(s[p]) && OccursAt(s, "::", RunEnd(s, p)) {
      PastMatch(s, p, w, i);
      FindAllFromComplete(s, RunEnd(s, p) + 2, w, i);
      assert FindAllFrom(s, p) == [s[p..RunEnd(s, p)]] + FindAllFrom(s, RunEnd(s, p) + 2);
    } else {
      FindAllFromComplete(s, p + 1, w, i);
      assert FindAllFrom(s, p) == FindAllFrom(s, p + 1);
    }
  }

  /**
   * A class name followed by `::`, starting at the first upper-case letter
   * of its identifier and not a facade, gets its `use` line: `Bar` in
   * `Bar::find(1)` and in `fooBar::find(1)` alike.
   */
  lemma ModelNamesComplete(code: string, w: int, i: int)
    requires FirstUpperOfWord(code, w, i) && OccursAt(code, "::", RunEnd(code, i))
    requires code[i..RunEnd(code, i)] !in NonModelClasses
    ensures code[i..RunEnd(code, i)] in ModelNames(code)
  {
    FindAllFromComplete(code, 0, w, i);
  }

  // ---- the wrapper text ----

  /** Error reporting and the facade imports written before the model imports. */
  const Preamble: string :=
    "<?php\n"
    + "// Configurar manejo de errores para mostrar todos los mensajes\n"
    + "ini_set('display_errors', 1);\n"
    + "ini_set('display_startup_errors', 1);\n"
    + "error_reporting(E_ALL);\n\n"
    + "use Illuminate\\Support\\Facades\\DB;\n"
    + "use Illuminate\\Support\\Facades\\Schema;\n"
    + "use Illuminate\\Support\\Facades\\Auth;\n"
    + "use Illuminate\\Support\\Facades\\Route;\n"
    + "use Illuminate\\Support\\Facades\\Storage;\n"
    + "use Illuminate\\Support\\Facades\\Cache;\n"
    + "use Illuminate\\Support\\Facades\\Config;\n"
    + "use Illuminate\\Support\\Facades\\Log;\n"

  /** The blank line after the imports, the Laravel bootstrap and the `formatOutput` helper. */
  const Bootstrap: string :=
    "\n"
    + "try {\n"
    + "    require __DIR__.'/vendor/autoload.php';\n"
    + "    $app = require_once __DIR__.'/bootstrap/app.php';\n"
    + "    $kernel = $app->make(Illuminate\\Contracts\\Console\\Kernel::class);\n"
    + "    $kernel->bootstrap();\n"
    + "} catch (\\Exception $e) {\n"
    + "    echo \"Error al inicializar Laravel: \" . $e->getMessage() . \"\\n\";\n"
    + "    echo \"En archivo: \" . $e->getFile() . \" l\U{ed}nea: \" . $e->getLine() . \"\\n\";\n"
    + "    exit(1);\n"
    + "}\n\n"
    + "function formatOutput($data) {\n"
    + "    if (is_object($data) && method_exists($data, 'toArray')) {\n"
    + "        return json_encode($data->toArray(), JSON_PRETTY_PRINT);\n"
    + "    } elseif (is_object($data) && method_exists($data, 'toJson')) {\n"
    + "        return $data->toJson(JSON_PRETTY_PRINT);\n"
    + "    } elseif (is_array($data)) {\n"
    + "        return json_encode($data, JSON_PRETTY_PRINT);\n"
    + "    } else {\n"
    + "        return var_export($data, true);\n"
    + "    }\n"
    + "}\n\n"

  /** What is written just before the snippet. */
  const UserOpen: string := "// C\U{f3}digo del usuario:\n" + "try {\n"

  /** What is written just after the snippet. */
  const UserClose: string :=
    "\n} catch (\\Exception $e) {\n"
    + "    echo \"Error: \" . $e->getMessage() . \"\\n\";\n"
    + "    echo \"En archivo: \" . $e->getFile() . \" l\U{ed}nea: \" . $e->getLine() . \"\\n\";\n"
    + "}\n"

  function UseLine(model: string): string {
    "use App\\Models\\" + model + ";\n"
  }

  /** The model imports, in the order the set was iterated. */
  function UseLines(order: seq<string>): (r: string)
    ensures |order| == 0 ==> r == []
  {
    if order == [] then [] else UseLines(order[..|order| - 1]) + UseLine(order[|order| - 1])
  }

  /** The text of `temp_tinker.php` for a snippet, given the order in which the model names were visited. */
  function WrapperText(order: seq<string>, code: string): string {
    Preamble + (UseLines(order) + (Bootstrap + (UserOpen + (code + UserClose))))
  }

  /** Each name of `names` visited exactly once. */
  ghost predicate Enumerates(order: seq<string>, names: set<string>) {
    |order| == |names|
    && (forall n :: n in order <==> n in names)
    && (forall k, l :: 0 <= k < l < |order| ==> order[k] != order[l])
  }

  /** Appends one import line per name of `names` to `text`, in the order the set is iterated. */
  method WriteImports(start: string, names: set<string>) returns (text: string, order: seq<string>)
    ensures Enumerates(order, names)
    ensures text == start + UseLines(order)
  {
    text := start;
    order := [];
    var remaining := names;
    while remaining != {}
      invariant remaining <= names
      invariant |order| + |remaining| == |names|
      invariant forall n :: n in names <==> n in order || n in remaining
      invariant forall n :: n in order ==> n !in remaining
      invariant forall k, l :: 0 <= k < l < |order| ==> order[k] != order[l]
      invariant text == start + UseLines(order)
      decreases |remaining|
    {
      var model :| model in remaining;
      UseLinesSnoc(order, model);
      text := text + UseLine(model);
      order := order + [model];
      remaining := remaining - {model};
    }
  }

  /** Visiting one more name appends its import line. */
  lemma UseLinesSnoc(order: seq<string>, model: string)
    ensures UseLines(order + [model]) == UseLines(order) + UseLine(model)
  {
    assert (order + [model])[..|order|] == order;
  }

  /**
   * The writes of `_run_tinker` from `<?php` to the closing `}` of the
   * user's `try`, into a string buffer. `order` is the order in which the
   * set of names was iterated, which Python does not fix.
   */
  method WriteWrapper(code: string, names: set<string>) returns (text: string, order: seq<string>)
    ensures Enumerates(order, names)
    ensures text == WrapperText(order, code)
  {
    text, order := WriteImports(Preamble, names);
    text := text + Bootstrap;
    text := text + UserOpen;
    text := text + code;
    text := text + UserClose;
    AppendsAssociate(Preamble, UseLines(order), Bootstrap, UserOpen, code, UserClose);
  }

  /** Successive appends build the same text however they are grouped. */
  lemma AppendsAssociate(a: string, b: string, c: string, d: string, e: string, f: string)
    ensures a + b + c + d + e + f == a + (b + (c + (d + (e + f))))
  {
  }

  // ---- what the wrapper promises ----

  /** The `k`-th model import line sits at some offset of the import block. */
  lemma {:induction false} UseLinesAt(order: seq<string>, k: int) returns (i: int)
    requires 0 <= k < |order|
    ensures OccursAt(UseLines(order), UseLine(order[k]), i)
    decreases |order|
  {
    var init := order[..|order| - 1];
    var last := UseLine(order[|order| - 1]);
    if k == |order| - 1 {
      i := |UseLines(init)|;
      assert UseLines(order)[i..i + |last|] == last;
    } else {
      assert init[k] == order[k];
      i := UseLinesAt(init, k);
      var line := UseLine(order[k]);
      assert UseLines(order)[i..i + |line|] == UseLines(init)[i..i + |line|];
    }
  }

  /** The number of line breaks in a text. */
  function NewlineCount(s: string): nat {
    if s == [] then 0 else NewlineCount(s[..|s| - 1]) + (if s[|s| - 1] == '\n' then 1 else 0)
  }

  lemma {:induction false} NewlineCountConcat(a: string, b: string)
    ensures NewlineCount(a + b) == NewlineCount(a) + NewlineCount(b)
    decreases |b|
  {
    if b == [] {
      assert a + b == a;
    } else {
      assert (a + b)[..|a + b| - 1] == a + b[..|b| - 1];
      NewlineCountConcat(a, b[..|b| - 1]);
    }
  }

  lemma {:induction false} NoNewlineCount(s: string)
    requires '\n' !in s
    ensures NewlineCount(s) == 0
    decreases |s|
  {
    if s != [] {
      assert s[..|s| - 1] <= s;
      NoNewlineCount(s[..|s| - 1]);
    }
  }

  /** An import line is one line. */
  lemma UseLineIsOneLine(m: string)
    requires '\n' !in m
    ensures NewlineCount(UseLine(m)) == 1
  {
    var pre := "use App\\Models\\";
    var post := ";\n";
    assert UseLine(m) == pre + m + post;
    NoNewlineCount(pre);
    NoNewlineCount(m);
    NewlineCountConcat(pre, m);
    NewlineCountConcat(pre + m, post);
    assert post[..1] == ";";
    assert NewlineCount(";") == 0;
  }

  /** The import block has one line per visited name. */
  lemma {:induction false} UseLinesNewlines(order: seq<string>)
    requires forall k :: 0 <= k < |order| ==> '\n' !in order[k]
    ensures NewlineCount(UseLines(order)) == |order|
    decreases |order|
  {
    if order != [] {
      var init := order[..|order| - 1];
      UseLinesNewlines(init);
      NewlineCountConcat(UseLines(init), UseLine(order[|order| - 1]));
      UseLineIsOneLine(order[|order| - 1]);
    }
  }

  /** An import line in the block of model imports is an occurrence in any text around that block. */
  lemma ImportAround(a: string, order: seq<string>, b: string, k: int) returns (j: int)
    requires 0 <= k < |order|
    ensures OccursAt(a + (UseLines(order) + b), UseLine(order[k]), j)
  {
    var line := UseLine(order[k]);
    var i := UseLinesAt(order, k);
    OccursInLeft(UseLines(order), b, line, i);
    OccursInRight(a, UseLines(order) + b, line, i);
    j := |a| + i;
  }

  /** Every visited name has its `use App\Models\X;` line in the wrapper. */
  lemma WrapperImportsModel(code: string, order: seq<string>, k: int)
    requires 0 <= k < |order|
    ensures Contains(WrapperText(order, code), UseLine(order[k]))
  {
    var j := ImportAround(Preamble, order, Bootstrap + (UserOpen + (code + UserClose)), k);
    OccursContains(WrapperText(order, code), UseLine(order[k]), j);
  }

  /** Every extracted name has its `use App\\Models\\X;` line in the wrapper. */
  lemma WrapperImportsEachModel(code: string, order: seq<string>, names: set<string>)
    requires Enumerates(order, names)
    ensures forall n :: n in names ==> Contains(WrapperText(order, code), UseLine(n))
  {
    forall n | n in names ensures Contains(WrapperText(order, code), UseLine(n)) {
      var k :| 0 <= k < |order| && order[k] == n;
      WrapperImportsModel(code, order, k);
    }
  }

  /** The block of model imports has exactly one line per extracted name. */
  lemma ImportBlockLines(order: seq<string>, names: set<string>)
    requires Enumerates(order, names)
    requires forall m :: m in names ==> IsClassName(m)
    ensures NewlineCount(UseLines(order)) == |names|
  {
    forall k | 0 <= k < |order| ensures '\n' !in order[k] {
      assert order[k] in names;
    }
    UseLinesNewlines(order);
  }

  /** What is written just before the snippet ends with `try {` and a line break. */
  lemma UserOpenEnd()
    ensures EndsWith(UserOpen, "try {\n")
  {
  }

  /** What is written just after the snippet starts with a line break and `} catch`. */
  lemma UserCloseStart()
    ensures StartsWith(UserClose, "\n} catch")
  {
  }

  /** `code` stands verbatim in `w` at offset `i`, right after `try {\n` and right before `\n} catch`. */
  predicate EmbedsAt(w: string, code: string, i: int) {
    0 <= i && i + |code| <= |w| && w[i..i + |code|] == code
    && EndsWith(w[..i], "try {\n") && StartsWith(w[i + |code|..], "\n} catch")
  }

  /** Placed after a text ending in `try {\n` and before one starting with `\n} catch`, `code` is embedded there. */
  lemma EmbedsBetween(x: string, y: string, z: string, o: string, code: string, c: string) returns (i: int)
    requires EndsWith(o, "try {\n") && StartsWith(c, "\n} catch")
    ensures EmbedsAt(x + (y + (z + (o + (code + c)))), code, i)
  {
    i := |x| + |y| + |z| + |o|;
    var w := x + (y + (z + (o + (code + c))));
    assert w == (x + y + z + o) + code + c;
    assert w[..i] == (x + y + z) + o;
    EndsWithConcat(x + y + z, o, "try {\n");
  }

  /** The snippet stands verbatim in the wrapper, right after `try {\n` and right before `\n} catch`. */
  lemma WrapperEmbedsCode(order: seq<string>, code: string) returns (i: int)
    ensures EmbedsAt(WrapperText(order, code), code, i)
  {
    UserOpenEnd();
    UserCloseStart();
    i := EmbedsBetween(Preamble, UseLines(order), Bootstrap, UserOpen, code, UserClose);
  }
}
