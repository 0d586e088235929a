/** The escaper of index.js: the six characters `& < > " ' `` ` are replaced
    by entities in one left-to-right pass; replacement text is never scanned
    again. */
module Escape {

  predicate IsSpecial(c: char)
  {
    c == '&' || c == '<' || c == '>' || c == '"' || c == '\'' || c == '`'
  }

  /** The entity table `ENTITIES`; every other character stands for itself. */
  function Entity(c: char): (r: string)
    ensures IsSpecial(c) ==> |r| > 1 && r[0] == '&'
    ensures !IsSpecial(c) ==> r == [c]
  {
    match c
    case '&' => "&amp;"
    case '<' => "&lt;"
    case '>' => "&gt;"
    case '"' => "&quot;"
    case '\'' => "&#x27;"
    case '`' => "&#x60;"
    case _ => [c]
  }

  /** `String(unsafe).replace(ENTITIES_RE, …)` on a string. */
  function EscapeText(s: string): string
  {
    if s == [] then "" else Entity(s[0]) + EscapeText(s[1..])
  }

  /** Reads entities back: the inverse of EscapeText. */
  function Unescape(t: string): string
  {
    if t == [] then ""
    else if t[0] != '&' then [t[0]] + Unescape(t[1..])
    else if |t| >= 5 && t[..5] == "&amp;" then "&" + Unescape(t[5..])
    else if |t| >= 4 && t[..4] == "&lt;" then "<" + Unescape(t[4..])
    else if |t| >= 4 && t[..4] == "&gt;" then ">" + Unescape(t[4..])
    else if |t| >= 6 && t[..6] == "&quot;" then "\"" + Unescape(t[6..])
    else if |t| >= 6 && t[..6] == "&#x27;" then "'" + Unescape(t[6..])
    else if |t| >= 6 && t[..6] == "&#x60;" then "`" + Unescape(t[6..])
    else [t[0]] + Unescape(t[1..])
  }

  /** Escaping works character by character, so escaping a concatenation is
      the concatenation of the escaped parts: `'&&'` becomes `'&amp;&amp;'`. */
  lemma {:induction false} EscapeAppend(a: string, b: string)
    ensures EscapeText(a + b) == EscapeText(a) + EscapeText(b)
  {
    if a != [] {
      EscapeAppend(a[1..], b);
      assert (a + b)[1..] == a[1..] + b;
      assert (a + b)[0] == a[0];
    } else {
      assert a + b == b;
    }
  }

  /** A string with none of the six characters is left as it is. */
  lemma {:induction false} EscapePlain(s: string)
    requires forall i :: 0 <= i < |s| ==> !IsSpecial(s[i])
    ensures EscapeText(s) == s
  {
    if s != [] {
      EscapePlain(s[1..]);
      assert [s[0]] + s[1..] == s;
    }
  }

  /** Escaped text contains none of the characters that could end a text node
      or a quoted attribute value. */
  lemma {:induction false} EscapedIsInert(s: string)
    ensures forall i :: 0 <= i < |EscapeText(s)| ==> EscapeText(s)[i] !in "<>\"'`"
  {
    if s != [] {
      EscapedIsInert(s[1..]);
      var head, tail := Entity(s[0]), EscapeText(s[1..]);
      forall i | 0 <= i < |head|
        ensures head[i] !in "<>\"'`"
      {
      }
      assert EscapeText(s) == head + tail;
    }
  }

  /** Reading back one entity, or one plain character, in front of `rest`. */
  lemma UnescapeEntity(c: char, rest: string)
    ensures Unescape(Entity(c) + rest) == [c] + Unescape(rest)
  {
    var t := Entity(c) + rest;
    if !IsSpecial(c) {
      assert t[0] == c && t[1..] == rest;
    } else if c == '&' {
      assert t[..5] == "&amp;" && t[5..] == rest;
    } else if c == '<' {
      assert t[..4] == "&lt;" && t[4..] == rest;
      assert t[1] == 'l';
    } else if c == '>' {
      assert t[..4] == "&gt;" && t[4..] == rest;
      assert t[1] == 'g';
    } else {
      UnescapeLongEntity(c, rest);
    }
  }

  lemma UnescapeLongEntity(c: char, rest: string)
    requires c == '"' || c == '\'' || c == '`'
    ensures Unescape(Entity(c) + rest) == [c] + Unescape(rest)
  {
    var t := Entity(c) + rest;
    if c == '"' {
      assert t[1] == 'q';
      assert t[..6] == "&quot;" && t[6..] == rest;
    } else if c == '\'' {
      assert t[1] == '#' && t[4] == '7';
      assert t[..6] == "&#x27;" && t[6..] == rest;
    } else {
      assert t[1] == '#' && t[4] == '0';
      assert t[..6] == "&#x60;" && t[6..] == rest;
    }
  }

  /** Nothing is lost: the original text can always be read back. */
  lemma {:induction false} UnescapeEscape(s: string)
    ensures Unescape(EscapeText(s)) == s
  {
    if s != [] {
      UnescapeEscape(s[1..]);
      UnescapeEntity(s[0], EscapeText(s[1..]));
      assert [s[0]] + s[1..] == s;
    }
  }

  /** Escaping is not idempotent: an ampersand is escaped again. */
  lemma EscapeTwice()
    ensures EscapeText(EscapeText("&")) == "&amp;amp;"
  {
    assert EscapeText("&") == "&amp;";
    assert "&amp;" == "&" + "amp;";
    EscapeAppend("&", "amp;");
    EscapePlain("amp;");
  }
}
