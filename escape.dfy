/** The card renderer's narrow HTML escaping: `&`, `<` and `>` become entities, nothing else changes. */
module Escape {

  /** `s.replaceAll(c, rep)` for a one-character pattern: every occurrence of `c` becomes `rep`. */
  function ReplaceAll(s: string, c: char, rep: string): (r: string)
    ensures forall x :: x in r ==> (x in s && x != c) || x in rep
    ensures forall x :: x in s && x != c ==> x in r
  {
    if s == [] then [] else (if s[0] == c then rep else [s[0]]) + ReplaceAll(s[1..], c, rep)
  }

  /** `escapeHtml` as written: three `replaceAll` passes, `&` first; a falsy (empty) input gives "".
      The escaped text never holds a raw `<` or `>`, so it cannot open or close a tag, and every
      character other than the three escaped ones survives. */
  function EscapeHtml(s: string): (r: string)
    ensures '<' !in r && '>' !in r
    ensures forall x :: x in s && x != '&' && x != '<' && x != '>' ==> x in r
  {
    ReplaceAll(ReplaceAll(ReplaceAll(s, '&', "&amp;"), '<', "&lt;"), '>', "&gt;")
  }

  /** The entity a single character escapes to. */
  function EscapeChar(c: char): string {
    if c == '&' then "&amp;" else if c == '<' then "&lt;" else if c == '>' then "&gt;" else [c]
  }

  /** Reference definition: escape character by character. */
  function EscapeEach(s: string): string {
    if s == [] then [] else EscapeChar(s[0]) + EscapeEach(s[1..])
  }

  /** The inverse of the escaping: the three entities are decoded, other characters copied. */
  function Unescape(s: string): string {
    if |s| >= 5 && s[..5] == "&amp;" then "&" + Unescape(s[5..])
    else if |s| >= 4 && s[..4] == "&lt;" then "<" + Unescape(s[4..])
    else if |s| >= 4 && s[..4] == "&gt;" then ">" + Unescape(s[4..])
    else if s == [] then []
    else [s[0]] + Unescape(s[1..])
  }

  lemma {:induction false} ReplaceAllAppend(a: string, b: string, c: char, rep: string)
    ensures ReplaceAll(a + b, c, rep) == ReplaceAll(a, c, rep) + ReplaceAll(b, c, rep)
  {
    if a == [] {
      assert a + b == b;
    } else {
      var ab := a + b;
      assert ab[0] == a[0] && ab[1..] == a[1..] + b;
      ReplaceAllAppend(a[1..], b, c, rep);
    }
  }

  lemma {:induction false} ReplaceAllAbsent(s: string, c: char, rep: string)
    requires c !in s
    ensures ReplaceAll(s, c, rep) == s
  {
    if s != [] {
      ReplaceAllAbsent(s[1..], c, rep);
    }
  }

  /** Each pass distributes over concatenation, so the whole escaping does. */
  lemma EscapeHtmlAppend(a: string, b: string)
    ensures EscapeHtml(a + b) == EscapeHtml(a) + EscapeHtml(b)
  {
    var a1, b1 := ReplaceAll(a, '&', "&amp;"), ReplaceAll(b, '&', "&amp;");
    ReplaceAllAppend(a, b, '&', "&amp;");
    var a2, b2 := ReplaceAll(a1, '<', "&lt;"), ReplaceAll(b1, '<', "&lt;");
    ReplaceAllAppend(a1, b1, '<', "&lt;");
    ReplaceAllAppend(a2, b2, '>', "&gt;");
  }

  /** On one character the three passes produce that character's entity. */
  lemma EscapeHtmlChar(x: char)
    ensures EscapeHtml([x]) == EscapeChar(x)
  {
    var e1 := if x == '&' then "&amp;" else [x];
    assert ReplaceAll([x], '&', "&amp;") == e1;
    var e2 := if x == '&' then "&amp;" else if x == '<' then "&lt;" else [x];
    if x == '&' {
      ReplaceAllAbsent("&amp;", '<', "&lt;");
      ReplaceAllAbsent("&amp;", '>', "&gt;");
    } else if x == '<' {
      assert ReplaceAll(e1, '<', "&lt;") == "&lt;";
      ReplaceAllAbsent("&lt;", '>', "&gt;");
    } else {
      assert ReplaceAll(e1, '<', "&lt;") == [x];
      assert ReplaceAll([x], '>', "&gt;") == if x == '>' then "&gt;" else [x];
    }
  }

  /** The three sequential passes do not interfere: they escape each character independently. */
  lemma {:induction false} EscapeHtmlPerChar(s: string)
    ensures EscapeHtml(s) == EscapeEach(s)
  {
    if s != [] {
      assert s == [s[0]] + s[1..];
      EscapeHtmlAppend([s[0]], s[1..]);
      EscapeHtmlChar(s[0]);
      EscapeHtmlPerChar(s[1..]);
    }
  }

  /** Decoding the entity of `x` in front of `e` yields `x` and then the decoding of `e`. */
  lemma UnescapeEntity(x: char, e: string)
    ensures Unescape(EscapeChar(x) + e) == [x] + Unescape(e)
  {
    var t := EscapeChar(x) + e;
    if x == '&' {
      assert t[..5] == "&amp;" && t[5..] == e;
    } else if x == '<' {
      assert t[..4] == "&lt;" && t[4..] == e;
      assert |t| >= 5 ==> t[..5][1] == 'l';
    } else if x == '>' {
      assert t[..4] == "&gt;" && t[4..] == e;
      assert |t| >= 5 ==> t[..5][1] == 'g';
    } else {
      assert t[0] == x && t[1..] == e;
      assert |t| >= 5 ==> t[..5][0] == x;
      assert |t| >= 4 ==> t[..4][0] == x;
    }
  }

  lemma {:induction false} UnescapeEscapeEach(s: string)
    ensures Unescape(EscapeEach(s)) == s
  {
    if s != [] {
      UnescapeEscapeEach(s[1..]);
      UnescapeEntity(s[0], EscapeEach(s[1..]));
      assert s == [s[0]] + s[1..];
    }
  }

  /** Escaping loses nothing: decoding the three entities gives the original text back. */
  lemma EscapeHtmlRoundTrip(s: string)
    ensures Unescape(EscapeHtml(s)) == s
  {
    EscapeHtmlPerChar(s);
    UnescapeEscapeEach(s);
  }

  lemma {:induction false} EscapeEachPlain(s: string)
    requires '&' !in s && '<' !in s && '>' !in s
    ensures EscapeEach(s) == s
  {
    if s != [] {
      EscapeEachPlain(s[1..]);
      assert s == [s[0]] + s[1..];
    }
  }

  /** Text without `&`, `<` and `>` is copied unchanged: the escaping is deliberately narrow. */
  lemma EscapeHtmlPlain(s: string)
    requires '&' !in s && '<' !in s && '>' !in s
    ensures EscapeHtml(s) == s
  {
    EscapeHtmlPerChar(s);
    EscapeEachPlain(s);
  }
}
