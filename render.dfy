/**
 * The e-mail renderer: HTML escaping by chained `replaceAll`, and `{{ key }}`
 * interpolation of escaped values into a template.
 */
module Render {
  import opened Wrappers
  import opened Strings
  import opened Js

  /** `s.replaceAll(c, rep)` for a one-character pattern. */
  function ReplaceChar(s: string, c: char, rep: string): (r: string)
    ensures c !in s ==> r == s
  {
    if |s| == 0 then "" else (if s[0] == c then rep else [s[0]]) + ReplaceChar(s[1..], c, rep)
  }

  lemma {:induction false} ReplaceCharAppend(a: string, b: string, c: char, rep: string)
    ensures ReplaceChar(a + b, c, rep) == ReplaceChar(a, c, rep) + ReplaceChar(b, c, rep)
  {
    if |a| > 0 {
      assert (a + b)[1..] == a[1..] + b;
      ReplaceCharAppend(a[1..], b, c, rep);
    } else {
      assert a + b == b;
    }
  }

  /** `escapeHtml(s)`: "&" first, then "<", ">", '"' and "'". */
  function EscapeHtml(s: string): string {
    var amp := ReplaceChar(s, '&', "&amp;");
    var lt := ReplaceChar(amp, '<', "&lt;");
    var gt := ReplaceChar(lt, '>', "&gt;");
    var quot := ReplaceChar(gt, '"', "&quot;");
    ReplaceChar(quot, '\'', "&#039;")
  }

  /** The chunk one character becomes. */
  function EscapeChar(c: char): string {
    match c
    case '&' => "&amp;"
    case '<' => "&lt;"
    case '>' => "&gt;"
    case '"' => "&quot;"
    case '\'' => "&#039;"
    case _ => [c]
  }

  /** Escaping one character at a time. */
  function EscapeEach(s: string): string {
    if |s| == 0 then "" else EscapeChar(s[0]) + EscapeEach(s[1..])
  }

  lemma EscapeHtmlAppend(a: string, b: string)
    ensures EscapeHtml(a + b) == EscapeHtml(a) + EscapeHtml(b)
  {
    ReplaceCharAppend(a, b, '&', "&amp;");
    var a1, b1 := ReplaceChar(a, '&', "&amp;"), ReplaceChar(b, '&', "&amp;");
    ReplaceCharAppend(a1, b1, '<', "&lt;");
    var a2, b2 := ReplaceChar(a1, '<', "&lt;"), ReplaceChar(b1, '<', "&lt;");
    ReplaceCharAppend(a2, b2, '>', "&gt;");
    var a3, b3 := ReplaceChar(a2, '>', "&gt;"), ReplaceChar(b2, '>', "&gt;");
    ReplaceCharAppend(a3, b3, '"', "&quot;");
    var a4, b4 := ReplaceChar(a3, '"', "&quot;"), ReplaceChar(b3, '"', "&quot;");
    ReplaceCharAppend(a4, b4, '\'', "&#039;");
  }

  lemma ReplaceCharSingle(c: char, d: char, rep: string)
    ensures ReplaceChar([c], d, rep) == if c == d then rep else [c]
  {
    assert [c][1..] == [];
  }

  lemma EscapeHtmlOne(c: char)
    ensures EscapeHtml([c]) == EscapeChar(c)
  {
    ReplaceCharSingle(c, '&', "&amp;");
    if c == '&' {
      assert '<' !in "&amp;" && '>' !in "&amp;" && '"' !in "&amp;" && '\'' !in "&amp;";
    } else {
      ReplaceCharSingle(c, '<', "&lt;");
      if c == '<' {
        assert '>' !in "&lt;" && '"' !in "&lt;" && '\'' !in "&lt;";
      } else {
        ReplaceCharSingle(c, '>', "&gt;");
        if c == '>' {
          assert '"' !in "&gt;" && '\'' !in "&gt;";
        } else {
          ReplaceCharSingle(c, '"', "&quot;");
          if c == '"' {
            assert '\'' !in "&quot;";
          } else {
            ReplaceCharSingle(c, '\'', "&#039;");
          }
        }
      }
    }
  }

  /** Because "&" is replaced first, the chained replacements act as one pass
      in which every input character becomes exactly one chunk: no entity the
      earlier steps produce is escaped again. */
  lemma {:induction false} EscapeHtmlIsPerCharacter(s: string)
    ensures EscapeHtml(s) == EscapeEach(s)
  {
    if |s| > 0 {
      assert s == [s[0]] + s[1..];
      EscapeHtmlAppend([s[0]], s[1..]);
      EscapeHtmlOne(s[0]);
      EscapeHtmlIsPerCharacter(s[1..]);
    }
  }

  /** No character that could open a tag or end an attribute value. */
  predicate MarkupFree(r: string) {
    forall i :: 0 <= i < |r| ==> r[i] != '<' && r[i] != '>' && r[i] != '"' && r[i] != '\''
  }

  lemma {:induction false} EscapeEachMarkupFree(s: string)
    ensures MarkupFree(EscapeEach(s))
  {
    if |s| > 0 {
      EscapeEachMarkupFree(s[1..]);
      var r := EscapeEach(s);
      assert r == EscapeChar(s[0]) + EscapeEach(s[1..]);
      forall i | 0 <= i < |r| ensures r[i] != '<' && r[i] != '>' && r[i] != '"' && r[i] != '\'' {
        if i >= |EscapeChar(s[0])| {
          assert r[i] == EscapeEach(s[1..])[i - |EscapeChar(s[0])|];
        }
      }
    }
  }

  /** Escaped text contains none of `<`, `>`, `"`, `'`. */
  lemma EscapeHtmlMarkupFree(s: string)
    ensures MarkupFree(EscapeHtml(s))
  {
    EscapeHtmlIsPerCharacter(s);
    EscapeEachMarkupFree(s);
  }

  /** The decoding of the five entities, an independent reading of escaped text. */
  function Unescape(r: string): string
    decreases |r|
  {
    if |r| == 0 then ""
    else if StartsWith(r, "&amp;") then "&" + Unescape(r[5..])
    else if StartsWith(r, "&lt;") then "<" + Unescape(r[4..])
    else if StartsWith(r, "&gt;") then ">" + Unescape(r[4..])
    else if StartsWith(r, "&quot;") then "\"" + Unescape(r[6..])
    else if StartsWith(r, "&#039;") then "'" + Unescape(r[6..])
    else [r[0]] + Unescape(r[1..])
  }

  /** A text that differs from `p` at position `i` does not start with `p`. */
  lemma DiffersAt(s: string, p: string, i: nat)
    requires i < |p| && i < |s| && s[i] != p[i]
    ensures !StartsWith(s, p)
  {
    if |p| <= |s| {
      assert s[..|p|][i] == s[i];
    }
  }

  /** An entity followed by `rest` starts with that entity and continues with `rest`. */
  lemma EntityThen(e: string, rest: string)
    ensures StartsWith(e + rest, e) && (e + rest)[|e|..] == rest
  {
    assert (e + rest)[..|e|] == e;
  }

  lemma UnescapeChunk(c: char, rest: string)
    ensures Unescape(EscapeChar(c) + rest) == [c] + Unescape(rest)
  {
    var r := EscapeChar(c) + rest;
    EntityThen(EscapeChar(c), rest);
    if c == '&' {
    } else if c == '<' {
      DiffersAt(r, "&amp;", 1);
    } else if c == '>' {
      DiffersAt(r, "&amp;", 1);
      DiffersAt(r, "&lt;", 1);
    } else if c == '"' {
      DiffersAt(r, "&amp;", 1);
      DiffersAt(r, "&lt;", 1);
      DiffersAt(r, "&gt;", 1);
    } else if c == '\'' {
      DiffersAt(r, "&amp;", 1);
      DiffersAt(r, "&lt;", 1);
      DiffersAt(r, "&gt;", 1);
      DiffersAt(r, "&quot;", 1);
    } else {
      assert r[0] == c;
      DiffersAt(r, "&amp;", 0);
      DiffersAt(r, "&lt;", 0);
      DiffersAt(r, "&gt;", 0);
      DiffersAt(r, "&quot;", 0);
      DiffersAt(r, "&#039;", 0);
    }
  }

  /** Escaping loses nothing: decoding the entities gives the input back, so
      distinct texts never escape to the same output. */
  lemma {:induction false} UnescapeEscape(s: string)
    ensures Unescape(EscapeHtml(s)) == s
  {
    EscapeHtmlIsPerCharacter(s);
    UnescapeEscapeEach(s);
  }

  lemma {:induction false} UnescapeEscapeEach(s: string)
    ensures Unescape(EscapeEach(s)) == s
  {
    if |s| > 0 {
      UnescapeChunk(s[0], EscapeEach(s[1..]));
      UnescapeEscapeEach(s[1..]);
      assert s == [s[0]] + s[1..];
    }
  }

  /** `escapeHtml(value ?? "")` for a template variable. A key the variables
      lack still finds what every plain object inherits: `String` of that
      member. */
  function ValueText(vars: map<string, JsValue>, key: string): string {
    if key !in vars && key in ObjectPrototypeKeys then EscapeHtml(InheritedText(key))
    else
      var value := if key in vars then vars[key] else Undefined;
      EscapeHtml(ToStr(Coalesce(value, Str(""))))
  }

  /** The text of an inherited member named by word characters needs no
      escaping. */
  lemma InheritedTextIsPlain(key: string)
    requires forall i :: 0 <= i < |key| ==> IsKeyChar(key[i])
    ensures EscapeHtml(InheritedText(key)) == InheritedText(key)
  {
    var t := InheritedText(key);
    if key == "__proto__" || key == "constructor" {
      assert t == "[object Object]" || t == "function Object() { [native code] }";
      PlainLiteral(t);
    } else {
      var a, b := "function ", "() { [native code] }";
      PlainLiteral(a);
      PlainLiteral(b);
      assert Plain(key);
      assert t == a + key + b;
      assert forall i :: 0 <= i < |t| ==> t[i] == (if i < |a| then a[i] else if i < |a| + |key| then key[i - |a|] else b[i - |a| - |key|]);
    }
    EscapeHtmlKeepsPlain(t);
  }

  /** No character `escapeHtml` replaces. */
  predicate Plain(s: string) {
    forall i :: 0 <= i < |s| ==> s[i] != '&' && s[i] != '<' && s[i] != '>' && s[i] != '"' && s[i] != '\''
  }

  lemma PlainLiteral(s: string)
    requires s in {"[object Object]", "function Object() { [native code] }", "function ", "() { [native code] }"}
    ensures Plain(s)
  {
    if s == "[object Object]" {
      assert Plain("[object Object]");
    } else if s == "function Object() { [native code] }" {
      assert Plain("function Object() { [native code] }");
    } else if s == "function " {
      assert Plain("function ");
    } else {
      assert Plain("() { [native code] }");
    }
  }

  /** Text with none of the five special characters escapes to itself. */
  lemma EscapeHtmlKeepsPlain(s: string)
    requires Plain(s)
    ensures EscapeHtml(s) == s
  {
    assert '&' !in s && '<' !in s && '>' !in s && '"' !in s && '\'' !in s;
  }

  /** A character of the class `[\w.]`. */
  predicate IsKeyChar(c: char) {
    ('a' <= c <= 'z') || ('A' <= c <= 'Z') || ('0' <= c <= '9') || c == '_' || c == '.'
  }

  /** Length of the run of `\s` at the start of `s`. */
  function SpaceRun(s: string): (n: nat)
    ensures n <= |s|
  {
    if |s| > 0 && IsSpace(s[0]) then 1 + SpaceRun(s[1..]) else 0
  }

  /** Length of the run of `[\w.]` at the start of `s`. */
  function KeyRun(s: string): (n: nat)
    ensures n <= |s|
  {
    if |s| > 0 && IsKeyChar(s[0]) then 1 + KeyRun(s[1..]) else 0
  }

  /** A match of `\{\{\s*([\w.]+)\s*\}\}` at the start of `s`: the key and the
      length of the match. The two classes and the braces are disjoint, so the
      greedy reading is the only one. */
  function PlaceholderAt(s: string): (r: Option<(string, nat)>)
    ensures r.Some? ==> 0 < r.value.1 <= |s|
  {
    if StartsWith(s, "{{") then
      match KeyThenClose(s[2..])
      case None => None
      case Some((key, m)) => Some((key, 2 + m))
    else None
  }

  /** `\s*([\w.]+)\s*\}\}` at the start of `t`: the key and the length matched. */
  function KeyThenClose(t: string): (r: Option<(string, nat)>)
    ensures r.Some? ==> r.value.1 <= |t|
  {
    var sp := SpaceRun(t);
    var atKey := t[sp..];
    var k := KeyRun(atKey);
    if k == 0 then None
    else match CloseAt(atKey[k..])
      case None => None
      case Some(m) => Some((atKey[..k], sp + k + m))
  }

  /** `\s*\}\}` at the start of `t`: the length matched. */
  function CloseAt(t: string): (r: Option<nat>)
    ensures r.Some? ==> r.value <= |t|
  {
    var sp := SpaceRun(t);
    if StartsWith(t[sp..], "}}") then Some(sp + 2) else None
  }

  /** `String(template).replace(/\{\{\s*([\w.]+)\s*\}\}/g, ...)`, scanning left to right. */
  function RenderText(s: string, vars: map<string, JsValue>): string
    decreases |s|
  {
    if |s| == 0 then ""
    else match PlaceholderAt(s)
      case Some((key, n)) => ValueText(vars, key) + RenderText(s[n..], vars)
      case None => [s[0]] + RenderText(s[1..], vars)
  }

  /** `renderString(template, variables)` */
  function RenderString(template: JsValue, vars: map<string, JsValue>): string {
    RenderText(ToStr(template), vars)
  }

  /** A character other than `{` cannot start a placeholder and is copied. */
  lemma RenderPlainStep(s: string, vars: map<string, JsValue>)
    requires |s| > 0 && s[0] != '{'
    ensures RenderText(s, vars) == [s[0]] + RenderText(s[1..], vars)
  {
    assert !StartsWith(s, "{{");
  }

  /** Text without a `{` passes through unchanged. */
  lemma {:induction false} RenderKeepsPlainText(a: string, rest: string, vars: map<string, JsValue>)
    requires '{' !in a
    ensures RenderText(a + rest, vars) == a + RenderText(rest, vars)
  {
    if |a| > 0 {
      var s := a + rest;
      assert s[0] == a[0];
      RenderPlainStep(s, vars);
      assert s[1..] == a[1..] + rest;
      RenderKeepsPlainText(a[1..], rest, vars);
      assert a == [a[0]] + a[1..];
    } else {
      assert a + rest == rest;
    }
  }

  /** A placeholder `{{ key }}` (any `\s` padding, a key of word characters and
      dots) becomes the escaped value of the variable named by the whole key,
      dots included; a null or undefined variable becomes "", and so does a
      missing one unless it names a member every object inherits, which
      renders as that member's text (`{{constructor}}` gives
      "function Object() { [native code] }"). */
  lemma RenderReplacesPlaceholder(left: string, key: string, right: string, rest: string, vars: map<string, JsValue>)
    requires AllSpace(left) && AllSpace(right)
    requires |key| > 0 && forall i :: 0 <= i < |key| ==> IsKeyChar(key[i])
    ensures RenderText("{{" + left + key + right + "}}" + rest, vars) == ValueText(vars, key) + RenderText(rest, vars)
    ensures (key in vars && IsNullish(vars[key])) || (key !in vars && key !in ObjectPrototypeKeys) ==> ValueText(vars, key) == ""
    ensures key !in vars && key in ObjectPrototypeKeys ==> ValueText(vars, key) == InheritedText(key)
  {
    RenderPlaceholderText(left, key, right, rest, vars);
    ValueTextCases(vars, key);
  }

  lemma RenderPlaceholderText(left: string, key: string, right: string, rest: string, vars: map<string, JsValue>)
    requires AllSpace(left) && AllSpace(right)
    requires |key| > 0 && forall i :: 0 <= i < |key| ==> IsKeyChar(key[i])
    ensures RenderText("{{" + left + key + right + "}}" + rest, vars) == ValueText(vars, key) + RenderText(rest, vars)
  {
    var s := "{{" + (left + (key + (right + ("}}" + rest))));
    assert s == "{{" + left + key + right + "}}" + rest;
    var n := PlaceholderMatch(left, key, right, rest);
    RenderPlaceholderStep(s, key, n, vars);
  }

  /** A nullish or missing variable renders as ""; an inherited member as its text. */
  lemma ValueTextCases(vars: map<string, JsValue>, key: string)
    requires forall i :: 0 <= i < |key| ==> IsKeyChar(key[i])
    ensures (key in vars && IsNullish(vars[key])) || (key !in vars && key !in ObjectPrototypeKeys) ==> ValueText(vars, key) == ""
    ensures key !in vars && key in ObjectPrototypeKeys ==> ValueText(vars, key) == InheritedText(key)
  {
    if (key in vars && IsNullish(vars[key])) || (key !in vars && key !in ObjectPrototypeKeys) {
      assert ToStr(Str("")) == "";
    } else if key !in vars {
      InheritedTextIsPlain(key);
    }
  }

  lemma RenderPlaceholderStep(s: string, key: string, n: nat, vars: map<string, JsValue>)
    requires |s| > 0 && PlaceholderAt(s) == Some((key, n))
    ensures RenderText(s, vars) == ValueText(vars, key) + RenderText(s[n..], vars)
  {
  }

  /** The placeholder is matched whole, key and padding included. */
  lemma PlaceholderMatch(left: string, key: string, right: string, rest: string) returns (n: nat)
    requires AllSpace(left) && AllSpace(right)
    requires |key| > 0 && forall i :: 0 <= i < |key| ==> IsKeyChar(key[i])
    ensures n <= |"{{" + (left + (key + (right + ("}}" + rest))))|
    ensures ("{{" + (left + (key + (right + ("}}" + rest)))))[n..] == rest
    ensures PlaceholderAt("{{" + (left + (key + (right + ("}}" + rest))))) == Some((key, n))
  {
    n := 2 + |left| + |key| + |right| + 2;
    PlaceholderParsed(left, key, right, rest);
    PlaceholderSuffix(left, key, right, rest);
  }

  lemma PlaceholderParsed(left: string, key: string, right: string, rest: string)
    requires AllSpace(left) && AllSpace(right)
    requires |key| > 0 && forall i :: 0 <= i < |key| ==> IsKeyChar(key[i])
    ensures PlaceholderAt("{{" + (left + (key + (right + ("}}" + rest))))) == Some((key, 2 + |left| + |key| + |right| + 2))
  {
    var afterKey := right + ("}}" + rest);
    CloseStartsClear(right, rest);
    CloseOf(right, rest);
    KeyThenCloseOf(left, key, afterKey, |right| + 2);
    var m := |left| + |key| + (|right| + 2);
    OpenOf(left + (key + afterKey), key, m);
    assert 2 + m == 2 + |left| + |key| + |right| + 2;
  }

  lemma PlaceholderSuffix(left: string, key: string, right: string, rest: string)
    ensures ("{{" + (left + (key + (right + ("}}" + rest)))))[2 + |left| + |key| + |right| + 2..] == rest
  {
    var afterKey := right + ("}}" + rest);
    var s := "{{" + (left + (key + afterKey));
    assert s[2..] == left + (key + afterKey);
    assert s[2..][|left|..] == key + afterKey;
    assert s[2 + |left| + |key| + |right| + 2..] == s[2..][|left|..][|key|..][|right| + 2..];
    assert (key + afterKey)[|key|..] == afterKey;
    assert afterKey[|right| + 2..] == rest;
  }

  /** What follows the key cannot continue it. */
  lemma CloseStartsClear(right: string, rest: string)
    requires AllSpace(right)
    ensures |right + ("}}" + rest)| > 0 && !IsKeyChar((right + ("}}" + rest))[0])
  {
    if |right| > 0 {
      assert IsSpace(right[0]);
    }
  }

  lemma CloseOf(right: string, rest: string)
    requires AllSpace(right)
    ensures CloseAt(right + ("}}" + rest)) == Some(|right| + 2)
  {
    SpaceRunOf(right, "}}" + rest);
    assert (right + ("}}" + rest))[|right|..] == "}}" + rest;
  }

  lemma KeyThenCloseOf(left: string, key: string, afterKey: string, m: nat)
    requires AllSpace(left)
    requires |key| > 0 && forall i :: 0 <= i < |key| ==> IsKeyChar(key[i])
    requires |afterKey| > 0 && !IsKeyChar(afterKey[0]) && CloseAt(afterKey) == Some(m)
    ensures KeyThenClose(left + (key + afterKey)) == Some((key, |left| + |key| + m))
  {
    var atKey := key + afterKey;
    KeyRunOf(key, afterKey);
    assert atKey[..|key|] == key;
    assert atKey[|key|..] == afterKey;
    SpaceRunOf(left, atKey);
    assert (left + atKey)[|left|..] == atKey;
  }

  lemma OpenOf(afterOpen: string, key: string, m: nat)
    requires KeyThenClose(afterOpen) == Some((key, m))
    ensures PlaceholderAt("{{" + afterOpen) == Some((key, 2 + m))
  {
    assert ("{{" + afterOpen)[2..] == afterOpen;
    assert StartsWith("{{" + afterOpen, "{{");
  }

  lemma {:induction false} SpaceRunOf(sp: string, rest: string)
    requires AllSpace(sp)
    requires |rest| > 0 && !IsSpace(rest[0])
    ensures SpaceRun(sp + rest) == |sp|
  {
    if |sp| > 0 {
      assert (sp + rest)[1..] == sp[1..] + rest;
      SpaceRunOf(sp[1..], rest);
    } else {
      assert sp + rest == rest;
    }
  }

  lemma {:induction false} KeyRunOf(key: string, rest: string)
    requires forall i :: 0 <= i < |key| ==> IsKeyChar(key[i])
    requires |rest| > 0 && !IsKeyChar(rest[0])
    ensures KeyRun(key + rest) == |key|
  {
    if |key| > 0 {
      assert (key + rest)[1..] == key[1..] + rest;
      KeyRunOf(key[1..], rest);
    } else {
      assert key + rest == rest;
    }
  }
}
