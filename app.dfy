/** The server branch of `createInertiaApp`: the option defaults, the
    `<div>` body that carries the page, and the head list with the optional
    `<script type="application/json">` element.

    The page object is known only through its component name and its
    `JSON.stringify` text; `setup` (which renders the app) and the
    component resolver are parameters. */
module App {
  import opened Base
  import opened Escape

  /** The page as the server branch uses it. */
  datatype PageJson = PageJson(component: string, json: string)

  /** What Svelte's `render` returns. */
  datatype RenderResult = RenderResult(head: string, body: string)

  /** The options the server branch reads; `None` is `undefined`. */
  datatype AppOptions = AppOptions(id: Option<string>, useScriptElementForInitialPage: Option<bool>, page: Option<PageJson>)

  datatype SsrOutput = SsrOutput(body: string, head: seq<string>)

  /** `id = 'app'` and `useScriptElementForInitialPage = false`. */
  datatype Settings = Settings(id: string, useScript: bool)

  function ResolveOptions(opts: AppOptions): (r: Settings)
    ensures opts.id.None? ==> r.id == "app"
    ensures opts.id.Some? ==> r.id == opts.id.value
    ensures opts.useScriptElementForInitialPage.None? ==> !r.useScript
    ensures opts.useScriptElementForInitialPage.Some? ==> r.useScript == opts.useScriptElementForInitialPage.value
  {
    Settings(opts.id.GetOr("app"), opts.useScriptElementForInitialPage.GetOr(false))
  }

  // ---------------------------------------------------------------------
  // The body element

  function DivOpen(): string { "<div id=\"" }
  function PageAttr(): string { "\" data-page=\"" }
  function ServerAttr(): string { "\" data-server-rendered=\"true\">" }
  function DivClose(): string { "</div>" }

  /** Everything after the `data-page` attribute, or after the `id` value
      when there is none. */
  function BodyTail(inner: string): string {
    ServerAttr() + (inner + DivClose())
  }

  /** Everything after the `id` attribute's value. */
  function AttrsTail(json: string, inner: string, useScript: bool): string {
    if useScript then BodyTail(inner) else PageAttr() + (Escape.Escape(json) + BodyTail(inner))
  }

  /** The `body` template. */
  function Body(id: string, json: string, inner: string, useScript: bool): (r: string)
    ensures DivOpen() <= r
    ensures |r| >= |inner + DivClose()| && r[|r| - |inner + DivClose()|..] == inner + DivClose()
  {
    AttrsTailEnds(json, inner, useScript);
    Framed(DivOpen(), Escape.Escape(id), AttrsTail(json, inner, useScript), inner + DivClose());
    DivOpen() + (Escape.Escape(id) + AttrsTail(json, inner, useScript))
  }

  /** The attributes' tail ends with the content and the closing tag. */
  lemma AttrsTailEnds(json: string, inner: string, useScript: bool)
    ensures var t := AttrsTail(json, inner, useScript);
      |t| >= |inner + DivClose()| && t[|t| - |inner + DivClose()|..] == inner + DivClose()
  {
    var tail := inner + DivClose();
    EndsWith(ServerAttr(), tail, tail);
    if !useScript {
      EndsWith(Escape.Escape(json), BodyTail(inner), tail);
      EndsWith(PageAttr(), Escape.Escape(json) + BodyTail(inner), tail);
    }
  }

  /** An element `open + (middle + rest)` starts with `open` and ends as `rest` does. */
  lemma Framed(open: string, middle: string, rest: string, tail: string)
    requires |rest| >= |tail| && rest[|rest| - |tail|..] == tail
    ensures var r := open + (middle + rest);
      open <= r && |r| >= |tail| && r[|r| - |tail|..] == tail
  {
    EndsWith(middle, rest, tail);
    EndsWith(open, middle + rest, tail);
  }

  /** A text ending in `tail` still ends in it behind a prefix. */
  lemma EndsWith(p: string, x: string, tail: string)
    requires |x| >= |tail| && x[|x| - |tail|..] == tail
    ensures |p + x| >= |tail| && (p + x)[|p + x| - |tail|..] == tail
  {
    assert (p + x)[|p + x| - |tail|..] == x[|x| - |tail|..];
  }

  /** `s` cut at its first `stop`: the part before it, and the rest starting
      at it (empty when `stop` does not occur). */
  datatype Cut = Cut(before: string, after: string)

  function CutAt(s: string, stop: char): (r: Cut)
    ensures r.before + r.after == s
    ensures stop !in r.before
    ensures r.after == [] || r.after[0] == stop
  {
    if s == [] then Cut([], [])
    else if s[0] == stop then Cut([], s)
    else
      var c := CutAt(s[1..], stop);
      Cut([s[0]] + c.before, c.after)
  }

  /** Cutting stops at the first `stop`. */
  lemma {:induction false} CutAtJoin(a: string, stop: char, b: string)
    requires stop !in a && b != [] && b[0] == stop
    ensures CutAt(a + b, stop) == Cut(a, b)
  {
    if a != [] {
      assert (a + b)[1..] == a[1..] + b;
      CutAtJoin(a[1..], stop, b);
    } else {
      assert a + b == b;
    }
  }

  lemma DropPrefix(p: string, x: string)
    ensures p <= p + x && (p + x)[|p|..] == x
  {
    assert (p + x)[..|p|] == p;
  }

  /** The attributes and content an HTML parser reads back from a body. */
  datatype BodyParts = BodyParts(id: string, page: Option<string>, inner: string)

  /** Reads what follows the last attribute value: the content. */
  function ParseInner(s: string): Option<string> {
    var n := |ServerAttr()|;
    var m := |DivClose()|;
    if ServerAttr() <= s && |s| >= n + m && s[|s| - m..] == DivClose() then Some(s[n..|s| - m])
    else None
  }

  /** Reads what follows the `id` value: the entity-decoded `data-page`
      value if there is one, and the content. */
  function ParsePage(t: string): Option<(Option<string>, string)> {
    if PageAttr() <= t then
      var pageCut := CutAt(t[|PageAttr()|..], '"');
      match ParseInner(pageCut.after)
      case None => None
      case Some(inner) => Some((Some(Unescape(pageCut.before)), inner))
    else
      match ParseInner(t)
      case None => None
      case Some(inner) => Some((None, inner))
  }

  /** Reads a body element. */
  function ParseBody(b: string): Option<BodyParts> {
    if !(DivOpen() <= b) then None
    else
      var idCut := CutAt(b[|DivOpen()|..], '"');
      match ParsePage(idCut.after)
      case None => None
      case Some(rest) => Some(BodyParts(Unescape(idCut.before), rest.0, rest.1))
  }

  lemma ParseInnerJoin(inner: string)
    ensures ParseInner(BodyTail(inner)) == Some(inner)
  {
    var s := BodyTail(inner);
    DropPrefix(ServerAttr(), inner + DivClose());
    assert s[|s| - |DivClose()|..] == DivClose();
    assert s[|ServerAttr()|..|s| - |DivClose()|] == inner;
  }

  lemma ParsePageJoin(json: string, inner: string, useScript: bool)
    ensures ParsePage(AttrsTail(json, inner, useScript)) ==
      Some((if useScript then None else Some(json), inner))
  {
    ParseInnerJoin(inner);
    var t := AttrsTail(json, inner, useScript);
    if useScript {
      assert t[7] == 's' && PageAttr()[7] == 'p';
    } else {
      var j := Escape.Escape(json);
      DropPrefix(PageAttr(), j + BodyTail(inner));
      assert '"' !in j by {
        assert forall i :: 0 <= i < |j| ==> j[i] != '"';
      }
      CutAtJoin(j, '"', BodyTail(inner));
      UnescapeEscape(json);
    }
  }

  /** The body gives back the id, the page JSON exactly when the script
      element is not used, and the rendered content. */
  lemma BodyRoundTrip(id: string, json: string, inner: string, useScript: bool)
    ensures ParseBody(Body(id, json, inner, useScript)) ==
      Some(BodyParts(id, if useScript then None else Some(json), inner))
  {
    var e := Escape.Escape(id);
    var t := AttrsTail(json, inner, useScript);
    DropPrefix(DivOpen(), e + t);
    assert '"' !in e by {
      assert forall i :: 0 <= i < |e| ==> e[i] != '"';
    }
    assert t[0] == '"';
    CutAtJoin(e, '"', t);
    ParsePageJoin(json, inner, useScript);
    UnescapeEscape(id);
  }

  // ---------------------------------------------------------------------
  // The script element

  /** The three characters the script content must not contain. */
  predicate Unsafe(c: char) {
    c == '<' || c == '\U{2028}' || c == '\U{2029}'
  }

  function LtEscape(): string { "\\u003C" }
  function LsEscape(): string { "\\u2028" }
  function PsEscape(): string { "\\u2029" }

  /** `str.replace(/c/g, rep)`. */
  function ReplaceChar(s: string, c: char, rep: string): (r: string)
    ensures c !in rep ==> c !in r
    ensures c !in s ==> r == s
  {
    if s == [] then []
    else (if s[0] == c then rep else [s[0]]) + ReplaceChar(s[1..], c, rep)
  }

  /** A replacement that does not bring `d` in keeps it out. */
  lemma {:induction false} ReplaceKeepsOut(s: string, c: char, rep: string, d: char)
    requires d !in rep && d !in s
    ensures d !in ReplaceChar(s, c, rep)
  {
    if s != [] {
      ReplaceKeepsOut(s[1..], c, rep, d);
      assert s[0] in s;
    }
  }

  /** The script content: `JSON.stringify(page)` with `<`, U+2028 and U+2029
      replaced by their six-character escapes, in that order. */
  function ScriptSafe(json: string): (r: string)
    ensures forall i :: 0 <= i < |r| ==> !Unsafe(r[i])
  {
    var r1 := ReplaceChar(json, '<', LtEscape());
    var r2 := ReplaceChar(r1, '\U{2028}', LsEscape());
    var r := ReplaceChar(r2, '\U{2029}', PsEscape());
    assert '<' !in LsEscape() && '<' !in PsEscape() && '\U{2028}' !in PsEscape();
    ReplaceKeepsOut(r1, '\U{2028}', LsEscape(), '<');
    ReplaceKeepsOut(r2, '\U{2029}', PsEscape(), '<');
    ReplaceKeepsOut(r2, '\U{2029}', PsEscape(), '\U{2028}');
    assert forall i :: 0 <= i < |r| ==> r[i] in r;
    r
  }

  /** The four hex digits of one of the three characters. */
  function Hex(c: char): (r: string)
    requires Unsafe(c)
    ensures |r| == 4 && forall i :: 0 <= i < 4 ==> r[i] != '\\' && !Unsafe(r[i])
  {
    if c == '<' then "003C" else if c == '\U{2028}' then "2028" else "2029"
  }

  /** What one character becomes in the script content. */
  function SafeChar(c: char): string {
    if Unsafe(c) then "\\u" + Hex(c) else [c]
  }

  /** The three passes, done as one. */
  function SafeChars(s: string): string {
    if s == [] then [] else SafeChar(s[0]) + SafeChars(s[1..])
  }

  lemma {:induction false} ReplaceCharAppend(a: string, b: string, d: char, rep: string)
    ensures ReplaceChar(a + b, d, rep) == ReplaceChar(a, d, rep) + ReplaceChar(b, d, rep)
  {
    if a == [] {
      assert a + b == b;
    } else {
      var h := if a[0] == d then rep else [a[0]];
      assert (a + b)[0] == a[0];
      assert (a + b)[1..] == a[1..] + b;
      ReplaceCharAppend(a[1..], b, d, rep);
      calc {
        ReplaceChar(a + b, d, rep);
        h + ReplaceChar(a[1..] + b, d, rep);
        h + (ReplaceChar(a[1..], d, rep) + ReplaceChar(b, d, rep));
        (h + ReplaceChar(a[1..], d, rep)) + ReplaceChar(b, d, rep);
      }
    }
  }

  lemma ReplaceCharOne(c: char, d: char, rep: string)
    ensures ReplaceChar([c], d, rep) == if c == d then rep else [c]
  {
    assert [c][1..] == [];
  }

  lemma ScriptSafeAppend(a: string, b: string)
    ensures ScriptSafe(a + b) == ScriptSafe(a) + ScriptSafe(b)
  {
    var r1a := ReplaceChar(a, '<', LtEscape());
    var r1b := ReplaceChar(b, '<', LtEscape());
    ReplaceCharAppend(a, b, '<', LtEscape());
    ReplaceCharAppend(r1a, r1b, '\U{2028}', LsEscape());
    var r2a := ReplaceChar(r1a, '\U{2028}', LsEscape());
    var r2b := ReplaceChar(r1b, '\U{2028}', LsEscape());
    ReplaceCharAppend(r2a, r2b, '\U{2029}', PsEscape());
  }

  lemma ScriptSafeOne(c: char)
    ensures ScriptSafe([c]) == SafeChar(c)
  {
    ReplaceCharOne(c, '<', LtEscape());
    if c == '<' {
      assert '\U{2028}' !in LtEscape() && '\U{2029}' !in LtEscape();
      assert LtEscape() == "\\u" + Hex(c);
    } else {
      ReplaceCharOne(c, '\U{2028}', LsEscape());
      if c == '\U{2028}' {
        assert '\U{2029}' !in LsEscape();
        assert LsEscape() == "\\u" + Hex(c);
      } else {
        ReplaceCharOne(c, '\U{2029}', PsEscape());
        assert c == '\U{2029}' ==> PsEscape() == "\\u" + Hex(c);
      }
    }
  }

  /** The chained replacements act character by character. */
  lemma {:induction false} ScriptSafeIsSafeChars(s: string)
    ensures ScriptSafe(s) == SafeChars(s)
  {
    if s != [] {
      ScriptSafeIsSafeChars(s[1..]);
      assert s == [s[0]] + s[1..];
      ScriptSafeAppend([s[0]], s[1..]);
      ScriptSafeOne(s[0]);
    }
  }

  /** The script content is the JSON text when it has none of the three
      characters. */
  lemma ScriptSafeIdentity(json: string)
    requires forall i :: 0 <= i < |json| ==> !Unsafe(json[i])
    ensures ScriptSafe(json) == json
  {
    assert '<' !in json && '\U{2028}' !in json && '\U{2029}' !in json;
  }

  function ScriptOpen(): string { "<script type=\"application/json\" data-page=\"" }
  function ScriptClose(): string { "</script>" }

  lemma ScriptTailEnds(text: string)
    ensures var t := "\">" + (text + ScriptClose());
      |t| >= |ScriptClose()| && t[|t| - |ScriptClose()|..] == ScriptClose()
  {
    EndsWith(text, ScriptClose(), ScriptClose());
    EndsWith("\">", text + ScriptClose(), ScriptClose());
  }

  /** The head element pushed when the script element is used. */
  function ScriptElement(id: string, json: string): (r: string)
    ensures ScriptOpen() <= r
    ensures |r| >= |ScriptClose()| && r[|r| - |ScriptClose()|..] == ScriptClose()
  {
    ScriptTailEnds(ScriptSafe(json));
    Framed(ScriptOpen(), Escape.Escape(id), "\">" + (ScriptSafe(json) + ScriptClose()), ScriptClose());
    ScriptOpen() + (Escape.Escape(id) + ("\">" + (ScriptSafe(json) + ScriptClose())))
  }

  /** What an HTML parser reads back from the script element: the entity
      decoded `data-page` value, and the raw text up to the first `<`,
      where the parser looks for the end tag. */
  function ParseScript(s: string): Option<(string, string)> {
    if !(ScriptOpen() <= s) then None
    else
      var idCut := CutAt(s[|ScriptOpen()|..], '"');
      if !("\">" <= idCut.after) then None
      else
        var text := CutAt(idCut.after[2..], '<');
        if text.after == ScriptClose() then Some((Unescape(idCut.before), text.before)) else None
  }

  /** The element gives back the id and, as its whole text, the script-safe
      JSON: nothing in it can end the element early. */
  lemma ScriptRoundTrip(id: string, json: string)
    ensures ParseScript(ScriptElement(id, json)) == Some((id, ScriptSafe(json)))
  {
    var e := Escape.Escape(id);
    var t := ScriptSafe(json);
    var after := "\">" + (t + ScriptClose());
    DropPrefix(ScriptOpen(), e + after);
    assert '"' !in e by {
      assert forall i :: 0 <= i < |e| ==> e[i] != '"';
    }
    CutAtJoin(e, '"', after);
    DropPrefix("\">", t + ScriptClose());
    assert '<' !in t by {
      assert forall i :: 0 <= i < |t| ==> t[i] != '<';
    }
    CutAtJoin(t, '<', ScriptClose());
    UnescapeEscape(id);
  }

  // ---------------------------------------------------------------------
  // Reading the script text back as JSON

  /** A JSON-text reader for the escapes the script content introduces: the
      escapes of `<`, U+2028 and U+2029 become their characters, any other
      backslash pair is kept as it is, and every other character is copied. */
  function DecodeEscapes(t: string): string
  {
    if t == [] then []
    else match EscapeAt(t)
      case Some(c) => [c] + DecodeEscapes(t[6..])
      case None =>
        if t[0] == '\\' && |t| >= 2 then t[..2] + DecodeEscapes(t[2..])
        else [t[0]] + DecodeEscapes(t[1..])
  }

  /** The character whose four hex digits these are, among the three. */
  function Code(q: string): (r: Option<char>)
    ensures r.Some? ==> Unsafe(r.value) && Hex(r.value) == q
  {
    if q == "003C" then Some('<')
    else if q == "2028" then Some('\U{2028}')
    else if q == "2029" then Some('\U{2029}')
    else None
  }

  lemma CodeHex(c: char)
    requires Unsafe(c)
    ensures Code(Hex(c)) == Some(c)
  {
  }

  /** The character whose four digits head `w`, among the three. */
  function HeadCode(w: string): Option<char> {
    if |w| >= 4 then Code(w[..4]) else None
  }

  /** The character whose escape heads `t`, among the three. */
  function EscapeAt(t: string): Option<char> {
    if |t| >= 2 && t[0] == '\\' && t[1] == 'u' then HeadCode(t[2..]) else None
  }

  /** Every backslash of `s` starts an escape whose second character is none
      of the three, as in any `JSON.stringify` output. */
  predicate EscapesClosed(s: string)
    decreases |s|
  {
    if s == [] then true
    else if s[0] == '\\' then |s| >= 2 && !Unsafe(s[1]) && EscapesClosed(s[2..])
    else EscapesClosed(s[1..])
  }

  /** A character that starts no escape is copied. */
  lemma DecodePlain(c: char, rest: string)
    requires c != '\\'
    ensures DecodeEscapes([c] + rest) == [c] + DecodeEscapes(rest)
  {
    var t := [c] + rest;
    assert t[0] == c && t[1..] == rest;
  }

  /** One of the three escapes decodes to its character. */
  lemma DecodeEscapeOf(c: char, rest: string)
    requires Unsafe(c)
    ensures DecodeEscapes(SafeChar(c) + rest) == [c] + DecodeEscapes(rest)
  {
    var t := SafeChar(c) + rest;
    assert t == [ '\\', 'u' ] + (Hex(c) + rest);
    assert t[2..] == Hex(c) + rest;
    assert (Hex(c) + rest)[..4] == Hex(c);
    CodeHex(c);
    assert t[6..] == rest;
  }

  /** A backslash pair that is none of the three escapes is kept. */
  lemma DecodePair(d: char, rest: string)
    requires EscapeAt([ '\\', d ] + rest) == None
    ensures DecodeEscapes([ '\\', d ] + rest) == [ '\\', d ] + DecodeEscapes(rest)
  {
    var t := [ '\\', d ] + rest;
    assert t[..2] == [ '\\', d ] && t[2..] == rest;
  }

  lemma {:induction false} SafeCharsAppend(a: string, b: string)
    ensures SafeChars(a + b) == SafeChars(a) + SafeChars(b)
  {
    if a == [] {
      assert a + b == b;
    } else {
      assert (a + b)[1..] == a[1..] + b;
      SafeCharsAppend(a[1..], b);
    }
  }

  /** Characters that are none of the three are copied by the replacements. */
  lemma {:induction false} PlainSame(p: string)
    requires forall i :: 0 <= i < |p| ==> !Unsafe(p[i])
    ensures SafeChars(p) == p
  {
    if p != [] {
      PlainSame(p[1..]);
    }
  }

  /** A run of plain characters heads the replaced text exactly when it
      heads the original. */
  lemma {:induction false} PlainPrefix(p: string, t: string)
    requires forall i :: 0 <= i < |p| ==> !Unsafe(p[i]) && p[i] != '\\'
    ensures p <= SafeChars(t) <==> p <= t
  {
    if p != [] && t != [] {
      if Unsafe(t[0]) {
        assert SafeChars(t)[0] == '\\';
      } else {
        assert SafeChars(t) == [t[0]] + SafeChars(t[1..]);
        PlainPrefix(p[1..], t[1..]);
        assert p <= SafeChars(t) <==> p[0] == t[0] && p[1..] <= SafeChars(t[1..]);
        assert p <= t <==> p[0] == t[0] && p[1..] <= t[1..];
      }
    }
  }

  lemma {:induction false} EscapesClosedPlain(p: string, v: string)
    requires forall i :: 0 <= i < |p| ==> p[i] != '\\'
    requires EscapesClosed(p + v)
    ensures EscapesClosed(v)
  {
    if p != [] {
      assert (p + v)[1..] == p[1..] + v;
      EscapesClosedPlain(p[1..], v);
    } else {
      assert p + v == v;
    }
  }

  /** A backslash pair is copied by the replacements. */
  lemma SafePair(d: char, w: string)
    requires !Unsafe(d)
    ensures SafeChars([ '\\', d ] + w) == [ '\\', d ] + SafeChars(w)
  {
    SafeCharsAppend([ '\\', d ], w);
    PlainSame([ '\\', d ]);
  }

  /** Four digits head a text exactly when their character's code does. */
  lemma HeadCodeIs(w: string, c: char)
    requires Unsafe(c)
    ensures HeadCode(w) == Some(c) <==> Hex(c) <= w
  {
    CodeHex(c);
  }

  /** The replacements do not change which digits head a text. */
  lemma HeadCodeSafe(w: string)
    ensures HeadCode(SafeChars(w)) == HeadCode(w)
  {
    forall c | Unsafe(c)
      ensures HeadCode(w) == Some(c) <==> HeadCode(SafeChars(w)) == Some(c)
    {
      PlainPrefix(Hex(c), w);
      HeadCodeIs(w, c);
      HeadCodeIs(SafeChars(w), c);
    }
  }

  /** The replacements do not change which escape a backslash pair starts. */
  lemma EscapeAtSafe(d: char, w: string)
    requires !Unsafe(d)
    ensures SafeChars([ '\\', d ] + w) == [ '\\', d ] + SafeChars(w)
    ensures EscapeAt(SafeChars([ '\\', d ] + w)) == EscapeAt([ '\\', d ] + w)
  {
    SafePair(d, w);
    var t := [ '\\', d ] + w;
    var u := [ '\\', d ] + SafeChars(w);
    assert t[2..] == w && u[2..] == SafeChars(w);
    HeadCodeSafe(w);
  }

  /** A text headed by one of the three escapes is that escape and a rest. */
  lemma EscapeShape(s: string, c: char)
    requires EscapeAt(s) == Some(c)
    ensures Unsafe(c) && |s| >= 6 && s[2..] == Hex(c) + s[6..] && s == SafeChar(c) + s[6..]
  {
    assert s[2..6] == Hex(c);
    assert s[2..] == s[2..6] + s[6..];
    assert s == [ '\\', 'u' ] + s[2..];
  }

  /** The replacements copy a backslash-`u` and four plain characters. */
  lemma SafeCharsOfPlainEscape(q: string, v: string)
    requires forall i :: 0 <= i < |q| ==> !Unsafe(q[i])
    ensures SafeChars([ '\\', 'u' ] + q + v) == [ '\\', 'u' ] + q + SafeChars(v)
  {
    var p := [ '\\', 'u' ];
    var x := q + v;
    SafePair('u', x);
    SafeCharsAppend(q, v);
    PlainSame(q);
    calc {
      SafeChars(p + q + v);
      { assert p + q + v == p + x; }
      SafeChars(p + x);
      p + SafeChars(x);
      p + (q + SafeChars(v));
      p + q + SafeChars(v);
    }
  }

  /** The replacements copy one of the three escapes. */
  lemma SafeCharsOfEscape(c: char, v: string)
    requires Unsafe(c)
    ensures SafeChars(SafeChar(c) + v) == SafeChar(c) + SafeChars(v)
  {
    var q := Hex(c);
    assert SafeChar(c) == [ '\\', 'u' ] + q;
    SafeCharsOfPlainEscape(q, v);
  }

  /** An escape among the three is left as it is. */
  lemma DecodeKeptEscape(s: string, c: char)
    requires EscapeAt(s) == Some(c)
    ensures Unsafe(c) && s == SafeChar(c) + s[6..]
    ensures SafeChars(s) == SafeChar(c) + SafeChars(s[6..])
    ensures EscapesClosed(s) ==> EscapesClosed(s[6..])
  {
    EscapeShape(s, c);
    SafeCharsOfEscape(c, s[6..]);
    if EscapesClosed(s) {
      EscapesClosedPlain(Hex(c), s[6..]);
    }
  }

  /** `DecodeEscapes` reads the replaced text as it reads the original:
      `JSON.parse` sees the same value. */
  lemma {:induction false} DecodeSafeChars(s: string)
    requires EscapesClosed(s)
    ensures DecodeEscapes(SafeChars(s)) == DecodeEscapes(s)
    decreases |s|
  {
    if s != [] {
      var c := s[0];
      if c == '\\' {
        var d := s[1];
        var w := s[2..];
        assert s == [ '\\', d ] + w;
        EscapeAtSafe(d, w);
        match EscapeAt(s)
        case Some(e) =>
          DecodeKeptEscape(s, e);
          DecodeSafeChars(s[6..]);
          DecodeEscapeOf(e, s[6..]);
          DecodeEscapeOf(e, SafeChars(s[6..]));
        case None =>
          DecodeSafeChars(w);
          DecodePair(d, w);
          DecodePair(d, SafeChars(w));
      } else {
        assert s == [c] + s[1..];
        SafeCharsAppend([c], s[1..]);
        assert SafeChars([c]) == SafeChar(c);
        DecodeSafeChars(s[1..]);
        DecodePlain(c, s[1..]);
        if Unsafe(c) {
          DecodeEscapeOf(c, SafeChars(s[1..]));
        } else {
          DecodePlain(c, SafeChars(s[1..]));
        }
      }
    }
  }

  /** The script content reads back as the page JSON. */
  lemma DecodeScriptSafe(json: string)
    requires EscapesClosed(json)
    ensures DecodeEscapes(ScriptSafe(json)) == DecodeEscapes(json)
  {
    ScriptSafeIsSafeChars(json);
    DecodeSafeChars(json);
  }

  // ---------------------------------------------------------------------
  // The server branch

  /** The server branch of `createInertiaApp`: renders the page with `setup`
      and builds `body` and `head`. Without a page, `page!.component` throws. */
  method CreateServerApp(opts: AppOptions, setup: PageJson -> RenderResult) returns (r: Result<SsrOutput>)
    ensures opts.page.None? <==> r.Err?
    ensures r.Ok? ==>
      var s := ResolveOptions(opts);
      var page := opts.page.value;
      var result := setup(page);
      && r.value.body == Body(s.id, page.json, result.body, s.useScript)
      && |r.value.head| == (if s.useScript then 2 else 1)
      && r.value.head[0] == result.head
      && (s.useScript ==> r.value.head[1] == ScriptElement(s.id, page.json))
  {
    if opts.page.None? {
      return Err("Cannot read properties of undefined (reading 'component')");
    }
    var s := ResolveOptions(opts);
    var page := opts.page.value;
    var result := setup(page);
    var body := Body(s.id, page.json, result.body, s.useScript);
    var head := [result.head];
    if s.useScript {
      head := head + [ScriptElement(s.id, page.json)];
    }
    r := Ok(SsrOutput(body, head));
  }
}
