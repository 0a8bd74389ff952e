/** The HTML escaper `e`: every `&`, `<`, `>`, `"` and `'` is replaced by its
    entity, every other character is copied. */
module Escape {

  /** The five characters the escaper's pattern matches. */
  predicate IsDanger(c: char) {
    c == '&' || c == '<' || c == '>' || c == '"' || c == '\''
  }

  /** The replacement table. */
  function Entity(c: char): string
    requires IsDanger(c)
  {
    match c
    case '&' => "&amp;"
    case '<' => "&lt;"
    case '>' => "&gt;"
    case '"' => "&quot;"
    case '\'' => "&#39;"
  }

  /** What one character becomes. */
  function EscapeChar(c: char): (r: string)
    ensures IsDanger(c) ==> |r| >= 4 && r[0] == '&' && r[|r| - 1] == ';'
    ensures !IsDanger(c) ==> r == [c]
    ensures forall i :: 0 <= i < |r| ==> r[i] != '<' && r[i] != '>' && r[i] != '"' && r[i] != '\''
  {
    if IsDanger(c) then Entity(c) else [c]
  }

  /** `e(str)`: a global replace of the danger pattern, one character at a time. */
  function Escape(s: string): (r: string)
    ensures |r| >= |s|
    ensures forall i :: 0 <= i < |r| ==> r[i] != '<' && r[i] != '>' && r[i] != '"' && r[i] != '\''
    ensures (forall i :: 0 <= i < |s| ==> !IsDanger(s[i])) ==> r == s
  {
    if s == [] then [] else EscapeChar(s[0]) + Escape(s[1..])
  }

  /** Escaping works character by character. */
  lemma {:induction false} EscapeAppend(a: string, b: string)
    ensures Escape(a + b) == Escape(a) + Escape(b)
  {
    if a == [] {
      assert a + b == b;
    } else {
      var h := EscapeChar(a[0]);
      assert (a + b)[0] == a[0];
      assert (a + b)[1..] == a[1..] + b;
      EscapeAppend(a[1..], b);
      calc {
        Escape(a + b);
        h + Escape(a[1..] + b);
        h + (Escape(a[1..]) + Escape(b));
        (h + Escape(a[1..])) + Escape(b);
      }
    }
  }

  /** Decoding of the five entities, the inverse the HTML parser applies. */
  function Unescape(t: string): string
  {
    if t == [] then []
    else if "&amp;" <= t then "&" + Unescape(t[5..])
    else if "&lt;" <= t then "<" + Unescape(t[4..])
    else if "&gt;" <= t then ">" + Unescape(t[4..])
    else if "&quot;" <= t then "\"" + Unescape(t[6..])
    else if "&#39;" <= t then "'" + Unescape(t[5..])
    else [t[0]] + Unescape(t[1..])
  }

  /** Decoding an entity gives back its character. */
  lemma UnescapeEntity(c: char, rest: string)
    requires IsDanger(c)
    ensures Unescape(Entity(c) + rest) == [c] + Unescape(rest)
  {
    var t := Entity(c) + rest;
    var n := |Entity(c)|;
    assert t[..n] == Entity(c) && t[n..] == rest;
    if c != '&' {
      assert t[1] != 'a';
    }
    if c != '<' && c != '>' {
      assert t[1] != 'l' && t[1] != 'g';
    }
    if c == '\'' {
      assert t[1] != 'q';
    }
  }

  /** A character that is not `&` is copied by the decoder. */
  lemma UnescapePlain(c: char, rest: string)
    requires c != '&'
    ensures Unescape([c] + rest) == [c] + Unescape(rest)
  {
    var t := [c] + rest;
    assert t[0] == c && t[1..] == rest;
  }

  /** Replacing the entities back recovers the original string. */
  lemma {:induction false} UnescapeEscape(s: string)
    ensures Unescape(Escape(s)) == s
  {
    if s != [] {
      var c, rest := s[0], s[1..];
      assert Escape(s) == EscapeChar(c) + Escape(rest);
      UnescapeEscape(rest);
      if IsDanger(c) {
        assert EscapeChar(c) == Entity(c);
        UnescapeEntity(c, Escape(rest));
      } else {
        assert EscapeChar(c) == [c];
        UnescapePlain(c, Escape(rest));
      }
      assert s == [c] + rest;
    }
  }
}
