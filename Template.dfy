/** Template substitution of src/getData.js. `replaceRecursive` runs
    `text.replace(/\{(.*?)\}/g, replacer)` again and again until one pass leaves
    the text unchanged; `unescapeHTML` then decodes five entities in message
    bodies and turns line feeds into `<br>`. */
module Template {
  import opened Js
  import opened Text

  /** One piece of a template as the regular expression sees it: a character
      copied through, or a `{name}` match. */
  datatype Segment = Lit(c: char) | Hole(name: string)

  /** The text `{name}`: what an unresolved placeholder looks like. */
  function Placeholder(name: string): string {
    "{" + name + "}"
  }

  /** Where the match of `\{(.*?)\}` ends when its `{` sits just before index `i`:
      the first `}` from `i` on, provided no line terminator comes before it
      (`.` matches none of them). */
  function FindClose(s: string, i: nat): (r: Option<nat>)
    requires i <= |s|
    ensures r.Some? ==> i <= r.value < |s| && s[r.value] == '}'
    ensures r.Some? ==> forall k :: i <= k < r.value ==> s[k] != '}' && !IsLineTerminator(s[k])
    ensures r.None? ==> forall q :: i <= q < |s| && s[q] == '}' ==>
      exists k :: i <= k < q && IsLineTerminator(s[k])
    decreases |s| - i
  {
    if i == |s| then None
    else if s[i] == '}' then Some(i)
    else if IsLineTerminator(s[i]) then None
    else FindClose(s, i + 1)
  }

  /** The matches one global `replace` finds, left to right: a `{` with no
      closing `}` on its line is copied and the scan moves one character on. */
  function Scan(s: string): seq<Segment>
    decreases |s|
  {
    if s == [] then []
    else if s[0] == '{' then
      match FindClose(s, 1)
      case Some(q) => [Hole(s[1..q])] + Scan(s[q + 1..])
      case None => [Lit('{')] + Scan(s[1..])
    else [Lit(s[0])] + Scan(s[1..])
  }

  /** The text a segment was scanned from. */
  function Show(seg: Segment): string {
    match seg
    case Lit(c) => [c]
    case Hole(n) => Placeholder(n)
  }

  /** The text a sequence of segments was scanned from. */
  function Unscan(segs: seq<Segment>): string
  {
    if segs == [] then "" else Show(segs[0]) + Unscan(segs[1..])
  }

  lemma UnscanCons(seg: Segment, segs: seq<Segment>)
    ensures Unscan([seg] + segs) == Show(seg) + Unscan(segs)
  {
    assert ([seg] + segs)[1..] == segs;
  }

  lemma ScanHole(s: string, q: nat)
    requires s != [] && s[0] == '{' && FindClose(s, 1) == Some(q)
    ensures Scan(s) == [Hole(s[1..q])] + Scan(s[q + 1..])
  {
  }

  lemma ScanLit(s: string)
    requires s != [] && !(s[0] == '{' && FindClose(s, 1).Some?)
    ensures Scan(s) == [Lit(s[0])] + Scan(s[1..])
  {
  }

  /** A placeholder name never holds `}` or a line terminator. */
  lemma {:induction false} ScanHoleNames(s: string)
    ensures forall i :: 0 <= i < |Scan(s)| && Scan(s)[i].Hole? ==>
      forall k :: 0 <= k < |Scan(s)[i].name| ==>
        Scan(s)[i].name[k] != '}' && !IsLineTerminator(Scan(s)[i].name[k])
    decreases |s|
  {
    if s != [] {
      if s[0] == '{' && FindClose(s, 1).Some? {
        var q := FindClose(s, 1).value;
        ScanHole(s, q);
        ScanHoleNames(s[q + 1..]);
      } else {
        ScanLit(s);
        ScanHoleNames(s[1..]);
      }
    }
  }

  lemma AroundClose(s: string, q: nat)
    requires 1 <= q < |s| && s[0] == '{' && s[q] == '}'
    ensures s == Placeholder(s[1..q]) + s[q + 1..]
  {
  }

  /** Scanning loses nothing: the segments spell out the scanned text. */
  lemma {:induction false} ScanRoundTrip(s: string)
    ensures Unscan(Scan(s)) == s
    decreases |s|
  {
    if s != [] {
      if s[0] == '{' && FindClose(s, 1).Some? {
        var q := FindClose(s, 1).value;
        var rest := s[q + 1..];
        ScanHole(s, q);
        ScanRoundTrip(rest);
        UnscanCons(Hole(s[1..q]), Scan(rest));
        AroundClose(s, q);
        calc {
          Unscan(Scan(s));
          Show(Hole(s[1..q])) + Unscan(Scan(rest));
          Placeholder(s[1..q]) + rest;
          s;
        }
      } else {
        var rest := s[1..];
        ScanLit(s);
        ScanRoundTrip(rest);
        UnscanCons(Lit(s[0]), Scan(rest));
        calc {
          Unscan(Scan(s));
          Show(Lit(s[0])) + Unscan(Scan(rest));
          [s[0]] + rest;
          s;
        }
      }
    }
  }

  /** The replacer `(_, variable) => variables[variable] ?? `{${variable}}``,
      with its result converted to a string as `replace` does. */
  function Substitute(name: string, vars: map<string, JsValue>): string
  {
    if name in vars && !IsNullish(vars[name]) then ToString(vars[name]) else Placeholder(name)
  }

  /** A name the replacer leaves as it found it. */
  predicate Unbound(name: string, vars: map<string, JsValue>) {
    name !in vars || IsNullish(vars[name])
  }

  /** What one segment contributes to the output of a pass. */
  function Emit(seg: Segment, vars: map<string, JsValue>): string
  {
    match seg
    case Lit(c) => [c]
    case Hole(n) => Substitute(n, vars)
  }

  function Fill(segs: seq<Segment>, vars: map<string, JsValue>): string
  {
    if segs == [] then "" else Emit(segs[0], vars) + Fill(segs[1..], vars)
  }

  lemma FillCons(seg: Segment, segs: seq<Segment>, vars: map<string, JsValue>)
    ensures Fill([seg] + segs, vars) == Emit(seg, vars) + Fill(segs, vars)
  {
    assert ([seg] + segs)[1..] == segs;
  }

  /** One `text.replace(/\{(.*?)\}/g, replacer)` pass. */
  function Pass(s: string, vars: map<string, JsValue>): string
  {
    Fill(Scan(s), vars)
  }

  lemma {:induction false} FillUnbound(segs: seq<Segment>, vars: map<string, JsValue>)
    requires forall i :: 0 <= i < |segs| && segs[i].Hole? ==> Unbound(segs[i].name, vars)
    ensures Fill(segs, vars) == Unscan(segs)
  {
    if segs != [] {
      FillUnbound(segs[1..], vars);
    }
  }

  /** Placeholders whose names the variables do not resolve stay verbatim, so
      a pass over a text holding only such placeholders changes nothing. */
  lemma PassUnbound(s: string, vars: map<string, JsValue>)
    requires forall i :: 0 <= i < |Scan(s)| && Scan(s)[i].Hole? ==> Unbound(Scan(s)[i].name, vars)
    ensures Pass(s, vars) == s
  {
    FillUnbound(Scan(s), vars);
    ScanRoundTrip(s);
  }

  /** `replaceRecursive` allowed at most `fuel` passes: the first text that a
      pass leaves unchanged, or None when `fuel` passes did not reach one. */
  function Render(s: string, vars: map<string, JsValue>, fuel: nat): Option<string>
    decreases fuel
  {
    if fuel == 0 then None
    else
      var t := Pass(s, vars);
      if t == s then Some(t) else Render(t, vars, fuel - 1)
  }

  /** Whatever `replaceRecursive` returns is a fixed point of one more pass. */
  lemma {:induction false} RenderFixedPoint(s: string, vars: map<string, JsValue>, fuel: nat)
    requires Render(s, vars, fuel).Some?
    ensures Pass(Render(s, vars, fuel).value, vars) == Render(s, vars, fuel).value
    decreases fuel
  {
    var t := Pass(s, vars);
    if t != s {
      RenderFixedPoint(t, vars, fuel - 1);
    }
  }

  /** The fuel bound does not change the answer once it suffices. */
  lemma {:induction false} RenderMoreFuel(s: string, vars: map<string, JsValue>, fuel: nat, more: nat)
    requires Render(s, vars, fuel).Some?
    requires fuel <= more
    ensures Render(s, vars, more) == Render(s, vars, fuel)
    decreases fuel
  {
    var t := Pass(s, vars);
    assert fuel > 0;
    if t == s {
      assert Render(s, vars, more) == Some(t);
    } else {
      assert Render(s, vars, fuel) == Render(t, vars, fuel - 1);
      assert Render(s, vars, more) == Render(t, vars, more - 1);
      RenderMoreFuel(t, vars, fuel - 1, more - 1);
    }
  }

  /** Rendering a rendered text gives it back after a single pass. */
  lemma RenderIdempotent(s: string, vars: map<string, JsValue>, fuel: nat)
    requires Render(s, vars, fuel).Some?
    ensures Render(Render(s, vars, fuel).value, vars, 1) == Render(s, vars, fuel)
  {
    RenderFixedPoint(s, vars, fuel);
  }

  /** `replaceRecursive` as the source writes it: a do/while loop that
      reassigns the text until a pass changes nothing, here cut off after
      `fuel` passes. */
  method ReplaceRecursive(text: string, vars: map<string, JsValue>, fuel: nat) returns (r: Option<string>)
    ensures r == Render(text, vars, fuel)
    ensures r.Some? ==> Pass(r.value, vars) == r.value
  {
    var current := text;
    var passes := 0;
    while passes < fuel
      invariant passes <= fuel
      invariant Render(text, vars, fuel) == Render(current, vars, fuel - passes)
      decreases fuel - passes
    {
      var previous := current;
      current := Pass(current, vars);
      passes := passes + 1;
      if current == previous {
        RenderFixedPoint(text, vars, fuel);
        return Some(current);
      }
    }
    return None;
  }

  /** `unescapeHTML`: five entity replacements, each a single left-to-right
      pass in this order, then every line feed becomes `<br>`. */
  function UnescapeHTML(text: string): (r: string)
    ensures text == "" ==> r == ""
    ensures '\n' !in r
  {
    if text == "" then ""
    else
      var lt := ReplaceAll(text, "&lt;", "<");
      var gt := ReplaceAll(lt, "&gt;", ">");
      var amp := ReplaceAll(gt, "&amp;", "&");
      var quot := ReplaceAll(amp, "&quot;", "\"");
      var apos := ReplaceAll(quot, "&#39;", "'");
      ReplaceCharRemoves(apos, '\n', "<br>");
      ReplaceAll(apos, "\n", "<br>")
  }

  /** A text with no `&` and no line feed holds nothing to unescape: it
      comes back unchanged. */
  lemma UnescapePlain(text: string)
    requires '&' !in text && '\n' !in text
    ensures UnescapeHTML(text) == text
  {
    FirstCharAbsent(text, "&lt;");
    ReplaceAbsent(text, "&lt;", "<");
    FirstCharAbsent(text, "&gt;");
    ReplaceAbsent(text, "&gt;", ">");
    FirstCharAbsent(text, "&amp;");
    ReplaceAbsent(text, "&amp;", "&");
    FirstCharAbsent(text, "&quot;");
    ReplaceAbsent(text, "&quot;", "\"");
    FirstCharAbsent(text, "&#39;");
    ReplaceAbsent(text, "&#39;", "'");
    FirstCharAbsent(text, "\n");
    ReplaceAbsent(text, "\n", "<br>");
  }

  /** The match from a `{` ends at the first `}` when no line terminator
      comes before it. */
  lemma {:induction false} FindCloseAt(s: string, i: nat, q: nat)
    requires i <= q < |s| && s[q] == '}'
    requires forall k :: i <= k < q ==> s[k] != '}' && !IsLineTerminator(s[k])
    ensures FindClose(s, i) == Some(q)
    decreases q - i
  {
    if i < q {
      FindCloseAt(s, i + 1, q);
    }
  }

  /** A placeholder at the front of a text is matched whole, whatever follows. */
  lemma ScanPlaceholder(name: string, rest: string)
    requires '}' !in name
    requires forall k :: 0 <= k < |name| ==> !IsLineTerminator(name[k])
    ensures Scan(Placeholder(name) + rest) == [Hole(name)] + Scan(rest)
  {
    var s := Placeholder(name) + rest;
    var q := |name| + 1;
    forall k | 1 <= k < q
      ensures s[k] != '}' && !IsLineTerminator(s[k])
    {
      assert s[k] == name[k - 1];
    }
    FindCloseAt(s, 1, q);
    ScanHole(s, q);
    assert s[1..q] == name;
    assert s[q + 1..] == rest;
  }

  /** Any character but `{` is copied through. */
  lemma ScanChar(c: char, rest: string)
    requires c != '{'
    ensures Scan([c] + rest) == [Lit(c)] + Scan(rest)
  {
    ScanLit([c] + rest);
    assert ([c] + rest)[1..] == rest;
  }

  /** `k` copies of `s`, one after another. */
  function Repeat(s: string, k: nat): string
  {
    if k == 0 then "" else s + Repeat(s, k - 1)
  }

  lemma {:induction false} RepeatAdd(s: string, j: nat, k: nat)
    ensures Repeat(s, j) + Repeat(s, k) == Repeat(s, j + k)
  {
    if j > 0 {
      RepeatAdd(s, j - 1, k);
    }
  }

  lemma {:induction false} RepeatLength(s: string, k: nat)
    ensures |Repeat(s, k)| == k * |s|
  {
    if k > 0 {
      RepeatLength(s, k - 1);
    }
  }

  /** A variable whose value holds its own placeholder twice. */
  const Doubling: map<string, JsValue> := map["a" := Str("{a}{a}")]

  lemma {:induction false} PassDoubles(k: nat)
    ensures Pass(Repeat("{a}", k), Doubling) == Repeat("{a}", 2 * k)
  {
    if k > 0 {
      var p := Placeholder("a");
      assert p == "{a}";
      var rest := Repeat(p, k - 1);
      assert Repeat(p, k) == p + rest;
      ScanPlaceholder("a", rest);
      FillCons(Hole("a"), Scan(rest), Doubling);
      PassDoubles(k - 1);
      assert Emit(Hole("a"), Doubling) == p + p;
      assert Repeat(p, 2) == p + p by {
        assert Repeat(p, 1) == p + "";
      }
      RepeatAdd(p, 2, 2 * (k - 1));
    }
  }

  /** The source's loop has no guard: with `a` bound to `{a}{a}`, the text
      `{a}` doubles on every pass, so no number of passes reaches a fixed
      point and `replaceRecursive` never returns. */
  lemma {:induction false} SelfGrowingNeverSettles(k: nat, fuel: nat)
    requires k >= 1
    ensures Render(Repeat("{a}", k), Doubling, fuel) == None
    decreases fuel
  {
    if fuel > 0 {
      PassDoubles(k);
      RepeatLength("{a}", k);
      RepeatLength("{a}", 2 * k);
      SelfGrowingNeverSettles(2 * k, fuel - 1);
    }
  }

  /** The segments of the two-variable example. */
  lemma ScanExample(text: string)
    requires text == "{a}-{b}"
    ensures Scan(text) == [Hole("a"), Lit('-'), Hole("b")]
  {
    var t2 := Placeholder("b") + "";
    var t1 := "-" + t2;
    assert text == Placeholder("a") + t1;
    ScanPlaceholder("b", "");
    ScanChar('-', t2);
    ScanPlaceholder("a", t1);
  }

  /** First pass of the two-variable example: `{b}` expands to `{a}`. */
  lemma RenderExampleFirstPass(text: string, vars: map<string, JsValue>)
    requires text == "{a}-{b}"
    requires vars == map["a" := Str("x"), "b" := Str("{a}")]
    ensures Pass(text, vars) == "x-{a}"
  {
    ScanExample(text);
    var segs := [Hole("a"), Lit('-'), Hole("b")];
    assert Emit(Hole("a"), vars) == "x";
    assert Emit(Hole("b"), vars) == "{a}";
    FillCons(Hole("b"), [], vars);
    FillCons(Lit('-'), segs[2..], vars);
    FillCons(Hole("a"), segs[1..], vars);
    assert Fill(segs, vars) == "x" + ("-" + ("{a}" + ""));
  }

  /** Second pass of the example: the `{a}` it produced is expanded too. */
  lemma RenderExampleSecondPass(text: string, vars: map<string, JsValue>)
    requires text == "x-{a}"
    requires vars == map["a" := Str("x"), "b" := Str("{a}")]
    ensures Pass(text, vars) == "x-x"
  {
    var pa := Placeholder("a");
    var t2 := pa + "";
    var t1 := "-" + t2;
    assert text == "x" + t1;
    ScanPlaceholder("a", "");
    ScanChar('-', t2);
    ScanChar('x', t1);
    var segs := [Lit('x'), Lit('-'), Hole("a")];
    assert Scan(text) == segs;
    FillCons(Hole("a"), [], vars);
    FillCons(Lit('-'), segs[2..], vars);
    FillCons(Lit('x'), segs[1..], vars);
  }

  /** The third pass of the example finds no placeholder left. */
  lemma RenderExampleThirdPass(text: string, vars: map<string, JsValue>)
    requires text == "x-x"
    ensures Pass(text, vars) == text
  {
    ScanChar('x', "");
    ScanChar('-', "x");
    ScanChar('x', "-x");
    assert Scan(text) == [Lit('x'), Lit('-'), Lit('x')];
    PassUnbound(text, vars);
  }

  /** `{a}-{b}` with `a = "x"` and `b = "{a}"` settles on `x-x` after the
      third pass, the first one that changes nothing. */
  lemma RenderExample(text: string, vars: map<string, JsValue>)
    requires text == "{a}-{b}"
    requires vars == map["a" := Str("x"), "b" := Str("{a}")]
    ensures Render(text, vars, 3) == Some("x-x")
  {
    RenderExampleFirstPass(text, vars);
    RenderExampleSecondPass("x-{a}", vars);
    RenderExampleThirdPass("x-x", vars);
  }

  lemma UnescapeOnceLtGt(text: string)
    requires text == "&amp;lt;"
    ensures ReplaceAll(text, "&lt;", "<") == text
    ensures ReplaceAll(text, "&gt;", ">") == text
  {
    var tail := "amp;lt;";
    assert text[1..] == tail + "";
    assert text[..4] != "&lt;" by { assert text[1] != "&lt;"[1]; }
    assert text[..4] != "&gt;" by { assert text[1] != "&gt;"[1]; }
    ReplaceAfterPrefix(tail, "", "&lt;", "<");
    ReplaceAfterPrefix(tail, "", "&gt;", ">");
    assert text == [text[0]] + tail;
  }

  lemma UnescapeOnceAmp(text: string)
    requires text == "&amp;lt;"
    ensures ReplaceAll(text, "&amp;", "&") == "&lt;"
  {
    var lt := "lt;";
    assert text[..5] == "&amp;";
    assert text[5..] == lt + "";
    ReplaceAfterPrefix(lt, "", "&amp;", "&");
  }

  lemma UnescapeOnceRest(text: string)
    requires text == "&lt;"
    ensures ReplaceAll(text, "&quot;", "\"") == text
    ensures ReplaceAll(text, "&#39;", "'") == text
    ensures ReplaceAll(text, "\n", "<br>") == text
  {
    assert |text| < |"&quot;"| && |text| < |"&#39;"|;
    ReplaceAfterPrefix(text, "", "\n", "<br>");
  }

  /** Each entity is decoded in one pass, in order, so a doubly escaped `<`
      comes out singly escaped: `&amp;lt;` becomes `&lt;`, not `<`. */
  lemma UnescapeOnce(text: string)
    requires text == "&amp;lt;"
    ensures UnescapeHTML(text) == "&lt;"
  {
    UnescapeOnceLtGt(text);
    UnescapeOnceAmp(text);
    UnescapeOnceRest("&lt;");
  }

  /** `a &amp; b` holds an `&` but no entity starting `&l` or `&g`. */
  lemma UnescapeLineStepSkip(text: string, pat: string, rep: string)
    requires text == "a &amp; b\n"
    requires |pat| == 4 && pat[0] == '&' && pat[1] != 'a'
    ensures ReplaceAll(text, pat, rep) == text
  {
    var tail := "amp; b\n";
    var rest := [text[2]] + tail;
    assert text == "a " + rest;
    assert rest[..4][1] != pat[1];
    ReplaceAfterPrefix(tail, "", pat, rep);
    assert tail + "" == tail;
    ReplaceMismatch(text[2], tail, pat, rep);
    ReplaceAfterPrefix("a ", rest, pat, rep);
  }

  lemma UnescapeLineStepAmp(text: string)
    requires text == "a &amp; b\n"
    ensures ReplaceAll(text, "&amp;", "&") == "a & b\n"
  {
    var rest := "&amp; b\n";
    assert text == "a " + rest;
    assert rest[..5] == "&amp;";
    assert rest[5..] == " b\n" + "";
    ReplaceAfterPrefix("a ", rest, "&amp;", "&");
    ReplaceAfterPrefix(" b\n", "", "&amp;", "&");
  }

  lemma UnescapeLineStepRest(text: string)
    requires text == "a & b\n"
    ensures ReplaceAll(text, "&quot;", "\"") == text
    ensures ReplaceAll(text, "&#39;", "'") == text
    ensures ReplaceAll(text, "\n", "<br>") == "a & b<br>"
  {
    var rest := "& b\n";
    assert text == "a " + rest;
    assert |rest| < |"&quot;"|;
    assert |rest| < |"&#39;"|;
    ReplaceAfterPrefix("a ", rest, "&quot;", "\"");
    ReplaceAfterPrefix("a ", rest, "&#39;", "'");
    assert text == "a & b" + "\n";
    ReplaceAfterPrefix("a & b", "\n", "\n", "<br>");
  }

  /** An escaped ampersand is decoded and the trailing line feed becomes a
      line break. */
  lemma UnescapeLineBreak(text: string)
    requires text == "a &amp; b\n"
    ensures UnescapeHTML(text) == "a & b<br>"
  {
    UnescapeLineStepSkip(text, "&lt;", "<");
    UnescapeLineStepSkip(text, "&gt;", ">");
    UnescapeLineStepAmp(text);
    UnescapeLineStepRest("a & b\n");
  }
}
