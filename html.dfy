/** `escapeHtml`: three global replace passes over the text, `&` first. */
module Html {
  import opened Wrappers
  import opened Text

  /** `s.replace(/c/g, rep)`: every occurrence of the character `c` replaced by `rep`. */
  function ReplaceAll(s: string, c: char, rep: string): (r: string)
    ensures forall d :: d in r ==> (d in s && d != c) || d in rep
  {
    if s == [] then [] else (if s[0] == c then rep else [s[0]]) + ReplaceAll(s[1..], c, rep)
  }

  /** The three passes in the order main.js applies them. */
  function EscapeText(s: string): string
  {
    ReplaceAll(ReplaceAll(ReplaceAll(s, '&', "&amp;"), '<', "&lt;"), '>', "&gt;")
  }

  /** `escapeHtml(str)`: a missing or empty argument gives "". */
  function EscapeHtml(str: Option<string>): string
  {
    EscapeText(Fallback(str, ""))
  }

  /** The entity that stands for one character in the escaped text. */
  function EscapeChar(c: char): string
  {
    if c == '&' then "&amp;" else if c == '<' then "&lt;" else if c == '>' then "&gt;" else [c]
  }

  /** Reference definition: every character escaped on its own, in a single pass. */
  function EscapeEach(s: string): string
  {
    if s == [] then [] else EscapeChar(s[0]) + EscapeEach(s[1..])
  }

  /** The inverse of escaping: decode the three entities, keep every other character. */
  function Unescape(s: string): string
    decreases |s|
  {
    if StartsWith(s, "&amp;") then "&" + Unescape(s[5..])
    else if StartsWith(s, "&lt;") then "<" + Unescape(s[4..])
    else if StartsWith(s, "&gt;") then ">" + Unescape(s[4..])
    else if s == [] then []
    else [s[0]] + Unescape(s[1..])
  }

  lemma {:induction false} ReplaceAllAppend(a: string, b: string, c: char, rep: string)
    ensures ReplaceAll(a + b, c, rep) == ReplaceAll(a, c, rep) + ReplaceAll(b, c, rep)
  {
    if a == [] {
      assert a + b == b;
    } else {
      assert (a + b)[1..] == a[1..] + b;
      ReplaceAllAppend(a[1..], b, c, rep);
    }
  }

  lemma {:induction false} ReplaceAllAbsent(s: string, c: char, rep: string)
    requires c !in s
    ensures ReplaceAll(s, c, rep) == s
  {
    if s != [] {
      ReplaceAllAbsent(s[1..], c, rep);
    }
  }

  lemma ReplaceAllOne(c: char, d: char, rep: string)
    ensures ReplaceAll([c], d, rep) == if c == d then rep else [c]
  {
    assert [c][1..] == [];
    assert ReplaceAll([c], d, rep) == (if c == d then rep else [c]) + ReplaceAll([], d, rep);
  }

  lemma EscapeTextOneChar(c: char)
    ensures EscapeText([c]) == EscapeChar(c)
  {
    ReplaceAllOne(c, '&', "&amp;");
    if c == '&' {
      ReplaceAllAbsent("&amp;", '<', "&lt;");
      ReplaceAllAbsent("&amp;", '>', "&gt;");
    } else {
      ReplaceAllOne(c, '<', "&lt;");
      if c == '<' {
        ReplaceAllAbsent("&lt;", '>', "&gt;");
      } else {
        ReplaceAllOne(c, '>', "&gt;");
      }
    }
  }

  /**
   * Because `&` is replaced first, the three passes escape every character
   * exactly once: the `&` that the later passes introduce is never re-escaped.
   */
  lemma {:induction false} EscapeTextIsEscapeEach(s: string)
    ensures EscapeText(s) == EscapeEach(s)
  {
    if s != [] {
      var x, rest := [s[0]], s[1..];
      assert s == x + rest;
      ReplaceAllAppend(x, rest, '&', "&amp;");
      var a1, b1 := ReplaceAll(x, '&', "&amp;"), ReplaceAll(rest, '&', "&amp;");
      ReplaceAllAppend(a1, b1, '<', "&lt;");
      var a2, b2 := ReplaceAll(a1, '<', "&lt;"), ReplaceAll(b1, '<', "&lt;");
      ReplaceAllAppend(a2, b2, '>', "&gt;");
      EscapeTextOneChar(s[0]);
      EscapeTextIsEscapeEach(rest);
    }
  }

  lemma {:induction false} EscapeEachHasNoAngles(s: string)
    ensures '<' !in EscapeEach(s) && '>' !in EscapeEach(s)
  {
    if s != [] {
      EscapeEachHasNoAngles(s[1..]);
    }
  }

  /** `escapeHtml(null)` and `escapeHtml(undefined)` are "". */
  lemma EscapeHtmlOfMissing()
    ensures EscapeHtml(None) == ""
  {
  }

  /** The escaped text never contains `<` or `>`, so it cannot open or close a tag. */
  lemma EscapeHtmlHasNoAngles(str: Option<string>)
    ensures '<' !in EscapeHtml(str) && '>' !in EscapeHtml(str)
  {
    EscapeTextIsEscapeEach(Fallback(str, ""));
    EscapeEachHasNoAngles(Fallback(str, ""));
  }

  /** Text without `&`, `<` and `>` comes back unchanged. */
  lemma EscapeHtmlKeepsPlainText(s: string)
    requires '&' !in s && '<' !in s && '>' !in s
    ensures EscapeHtml(Some(s)) == s
  {
    ReplaceAllAbsent(s, '&', "&amp;");
    ReplaceAllAbsent(s, '<', "&lt;");
    ReplaceAllAbsent(s, '>', "&gt;");
  }

  /** Decoding the entity for `&`. */
  lemma UnescapeAmp(rest: string)
    ensures Unescape("&amp;" + rest) == "&" + Unescape(rest)
  {
    assert StartsWith("&amp;" + rest, "&amp;");
    assert ("&amp;" + rest)[5..] == rest;
  }

  /** Decoding the entity for `<`. */
  lemma UnescapeLt(rest: string)
    ensures Unescape("&lt;" + rest) == "<" + Unescape(rest)
  {
    var t := "&lt;" + rest;
    assert t[1] == 'l';
    assert !StartsWith(t, "&amp;");
    assert StartsWith(t, "&lt;");
    assert t[4..] == rest;
  }

  /** Decoding the entity for `>`. */
  lemma UnescapeGt(rest: string)
    ensures Unescape("&gt;" + rest) == ">" + Unescape(rest)
  {
    var t := "&gt;" + rest;
    assert t[1] == 'g';
    assert !StartsWith(t, "&amp;") && !StartsWith(t, "&lt;");
    assert StartsWith(t, "&gt;");
    assert t[4..] == rest;
  }

  /** Any other character decodes to itself. */
  lemma UnescapePlain(c: char, rest: string)
    requires c != '&'
    ensures Unescape([c] + rest) == [c] + Unescape(rest)
  {
    var t := [c] + rest;
    assert t[0] == c;
    assert t[1..] == rest;
  }

  /** Decoding undoes the escape of one character in front of any text. */
  lemma UnescapeEscapeChar(c: char, rest: string)
    ensures Unescape(EscapeChar(c) + rest) == [c] + Unescape(rest)
  {
    if c == '&' {
      UnescapeAmp(rest);
    } else if c == '<' {
      UnescapeLt(rest);
    } else if c == '>' {
      UnescapeGt(rest);
    } else {
      UnescapePlain(c, rest);
    }
  }

  lemma {:induction false} UnescapeEscapeEach(s: string)
    ensures Unescape(EscapeEach(s)) == s
  {
    if s != [] {
      assert EscapeEach(s) == EscapeChar(s[0]) + EscapeEach(s[1..]);
      UnescapeEscapeChar(s[0], EscapeEach(s[1..]));
      UnescapeEscapeEach(s[1..]);
      assert [s[0]] + s[1..] == s;
    }
  }

  /** Escaping loses nothing: decoding the three entities gives the original text back. */
  lemma EscapeHtmlRoundTrip(s: string)
    ensures Unescape(EscapeHtml(Some(s))) == s
  {
    EscapeTextIsEscapeEach(Fallback(Some(s), ""));
    UnescapeEscapeEach(s);
  }
}
