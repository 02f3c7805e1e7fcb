/** `htmlEscape`, defined identically in the gift-card sender and in the redeem form:
    `String(text).replace(/[&<>"']/g, m => map[m])` with the five-entry entity map. */
module HtmlEscape {

  predicate IsSpecial(c: char)
  {
    c == '&' || c == '<' || c == '>' || c == '"' || c == '\''
  }

  /** The entity map of the source. */
  function Entity(c: char): (r: string)
    requires IsSpecial(c)
  {
    match c
    case '&' => "&amp;"
    case '<' => "&lt;"
    case '>' => "&gt;"
    case '"' => "&quot;"
    case _ => "&#039;"
  }

  function EscapeChar(c: char): string
  {
    if IsSpecial(c) then Entity(c) else [c]
  }

  /** Every special character becomes its entity; every other character is copied. */
  function Escape(s: string): (r: string)
    ensures forall i :: 0 <= i < |r| ==> r[i] != '<' && r[i] != '>' && r[i] != '"' && r[i] != '\''
    ensures |r| >= |s|
  {
    if s == [] then [] else EscapeChar(s[0]) + Escape(s[1..])
  }

  /** Reads the entities back: the decoding that a browser applies to escaped text. */
  function Unescape(s: string): string
  {
    if s == [] then []
    else if |s| >= 5 && s[..5] == "&amp;" then "&" + Unescape(s[5..])
    else if |s| >= 4 && s[..4] == "&lt;" then "<" + Unescape(s[4..])
    else if |s| >= 4 && s[..4] == "&gt;" then ">" + Unescape(s[4..])
    else if |s| >= 6 && s[..6] == "&quot;" then "\"" + Unescape(s[6..])
    else if |s| >= 6 && s[..6] == "&#039;" then "'" + Unescape(s[6..])
    else [s[0]] + Unescape(s[1..])
  }

  /** Escaping distributes over concatenation, so it works character by character. */
  lemma {:induction false} EscapeAppend(a: string, b: string)
    ensures Escape(a + b) == Escape(a) + Escape(b)
  {
    if a != [] {
      assert (a + b)[0] == a[0];
      assert (a + b)[1..] == a[1..] + b;
      EscapeAppend(a[1..], b);
    } else {
      assert a + b == b;
    }
  }

  /** Decoding the escape of one character gives that character back and leaves the text
      after it to be decoded on its own. */
  lemma UnescapeEscapeChar(c: char, rest: string)
    ensures Unescape(EscapeChar(c) + rest) == [c] + Unescape(rest)
  {
    if c == '&' || c == '<' || c == '>' {
      UnescapeShortEntity(c, rest);
    } else if c == '"' || c == '\'' {
      UnescapeQuoteEntity(c, rest);
    } else {
      UnescapePlainChar(c, rest);
    }
  }

  lemma UnescapeShortEntity(c: char, rest: string)
    requires c == '&' || c == '<' || c == '>'
    ensures Unescape(EscapeChar(c) + rest) == [c] + Unescape(rest)
  {
    var e := EscapeChar(c) + rest;
    if c == '&' {
      assert e[..5] == "&amp;" && e[5..] == rest;
    } else if c == '<' {
      assert e[..4] == "&lt;" && e[4..] == rest;
      assert !(|e| >= 5 && e[..5] == "&amp;") by { assert e[1] == 'l'; }
    } else {
      assert e[..4] == "&gt;" && e[4..] == rest;
      assert !(|e| >= 5 && e[..5] == "&amp;") && e[..4] != "&lt;" by { assert e[1] == 'g'; }
    }
  }

  lemma UnescapeQuoteEntity(c: char, rest: string)
    requires c == '"' || c == '\''
    ensures Unescape(EscapeChar(c) + rest) == [c] + Unescape(rest)
  {
    var e := EscapeChar(c) + rest;
    if c == '"' {
      assert e[..6] == "&quot;" && e[6..] == rest;
      assert e[..5] != "&amp;" && e[..4] != "&lt;" && e[..4] != "&gt;" by { assert e[1] == 'q'; }
    } else {
      assert e[..6] == "&#039;" && e[6..] == rest;
      assert e[..5] != "&amp;" && e[..4] != "&lt;" && e[..4] != "&gt;" && e[..6] != "&quot;" by { assert e[1] == '#'; }
    }
  }

  lemma UnescapePlainChar(c: char, rest: string)
    requires !IsSpecial(c)
    ensures Unescape(EscapeChar(c) + rest) == [c] + Unescape(rest)
  {
    var e := EscapeChar(c) + rest;
    assert e[0] == c && e[1..] == rest;
    assert !(|e| >= 4 && (e[..4] == "&lt;" || e[..4] == "&gt;")) && !(|e| >= 5 && e[..5] == "&amp;")
      && !(|e| >= 6 && (e[..6] == "&quot;" || e[..6] == "&#039;")) by { assert e[0] != '&'; }
  }

  /** Escaping loses nothing: the displayed text is exactly the original text. */
  lemma {:induction false} UnescapeEscape(s: string)
    ensures Unescape(Escape(s)) == s
  {
    if s != [] {
      UnescapeEscape(s[1..]);
      assert Escape(s) == EscapeChar(s[0]) + Escape(s[1..]);
      UnescapeEscapeChar(s[0], Escape(s[1..]));
      assert [s[0]] + s[1..] == s;
    }
  }


  /** Text without special characters is displayed unchanged. */
  lemma {:induction false} EscapePlain(s: string)
    requires forall i :: 0 <= i < |s| ==> !IsSpecial(s[i])
    ensures Escape(s) == s
  {
    if s != [] {
      EscapePlain(s[1..]);
      assert [s[0]] + s[1..] == s;
    }
  }
}
