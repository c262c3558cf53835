/**
 * The XML escaper of src/wifiqr/services/xml_utils.py: the five predefined
 * entities of section 4.6 of XML 1.0, with `&` replaced first.
 */
module XmlUtils {
  import opened Text

  /** The chain of `str.replace` calls of `xml_escape`, in the source's order. */
  function XmlReplaceChain(value: string): string
  {
    Replace(Replace(Replace(Replace(Replace(value,
      '&', "&amp;"), '<', "&lt;"), '>', "&gt;"), '"', "&quot;"), '\'', "&apos;")
  }

  /**
   * `xml_escape`: the replace chain, which escapes every character on its
   * own because `&` is replaced first.
   */
  function XmlEscape(value: string): (escaped: string)
    ensures escaped == EscapeXmlChars(value)
  {
    XmlEscapeIsPerCharacter(value);
    XmlReplaceChain(value)
  }

  predicate IsXmlSpecial(c: char) {
    c == '&' || c == '<' || c == '>' || c == '"' || c == '\''
  }

  /** A string that contains none of the five characters XML escapes. */
  predicate IsPlainXmlText(s: string) {
    forall i :: 0 <= i < |s| ==> !IsXmlSpecial(s[i])
  }

  lemma PlainAppend(a: string, b: string)
    requires IsPlainXmlText(a) && IsPlainXmlText(b)
    ensures IsPlainXmlText(a + b)
  {
    forall i | 0 <= i < |a + b|
      ensures !IsXmlSpecial((a + b)[i])
    {
      if i < |a| {
        assert (a + b)[i] == a[i];
      } else {
        assert (a + b)[i] == b[i - |a|];
      }
    }
  }

  /** The entity a single character is written as. */
  function EscapeXmlChar(c: char): (e: string)
    ensures IsXmlSpecial(c) ==> |e| > 1 && e[0] == '&' && e[|e| - 1] == ';'
    ensures !IsXmlSpecial(c) ==> e == [c]
  {
    match c
    case '&' => "&amp;"
    case '<' => "&lt;"
    case '>' => "&gt;"
    case '"' => "&quot;"
    case '\'' => "&apos;"
    case _ => [c]
  }

  /** Reference escaper: every character replaced by its entity, one at a time. */
  function EscapeXmlChars(s: string): string
  {
    if s == [] then [] else EscapeXmlChar(s[0]) + EscapeXmlChars(s[1..])
  }

  lemma {:induction false} ReplaceChainAppend(a: string, b: string)
    ensures XmlReplaceChain(a + b) == XmlReplaceChain(a) + XmlReplaceChain(b)
  {
    ReplaceAppend(a, b, '&', "&amp;");
    var a1, b1 := Replace(a, '&', "&amp;"), Replace(b, '&', "&amp;");
    ReplaceAppend(a1, b1, '<', "&lt;");
    var a2, b2 := Replace(a1, '<', "&lt;"), Replace(b1, '<', "&lt;");
    ReplaceAppend(a2, b2, '>', "&gt;");
    var a3, b3 := Replace(a2, '>', "&gt;"), Replace(b2, '>', "&gt;");
    ReplaceAppend(a3, b3, '"', "&quot;");
    var a4, b4 := Replace(a3, '"', "&quot;"), Replace(b3, '"', "&quot;");
    ReplaceAppend(a4, b4, '\'', "&apos;");
  }

  /** Escaping distributes over concatenation. */
  lemma XmlEscapeAppend(a: string, b: string)
    ensures XmlEscape(a + b) == XmlEscape(a) + XmlEscape(b)
  {
    ReplaceChainAppend(a, b);
  }

  lemma ReplaceSingle(x: char, c: char, r: string)
    ensures Replace([x], c, r) == if x == c then r else [x]
  {
    assert [x][1..] == [];
  }

  /** The steps of the chain after the one that produced entity `e` leave it alone. */
  lemma ChainAfterAmp(e: string)
    requires '<' !in e && '>' !in e && '"' !in e && '\'' !in e
    ensures Replace(Replace(Replace(Replace(e, '<', "&lt;"), '>', "&gt;"), '"', "&quot;"), '\'', "&apos;") == e
  {
    ReplaceAbsent(e, '<', "&lt;");
    ReplaceAbsent(e, '>', "&gt;");
    ReplaceAbsent(e, '"', "&quot;");
    ReplaceAbsent(e, '\'', "&apos;");
  }

  lemma ChainAfterLt(e: string)
    requires '>' !in e && '"' !in e && '\'' !in e
    ensures Replace(Replace(Replace(e, '>', "&gt;"), '"', "&quot;"), '\'', "&apos;") == e
  {
    ReplaceAbsent(e, '>', "&gt;");
    ReplaceAbsent(e, '"', "&quot;");
    ReplaceAbsent(e, '\'', "&apos;");
  }

  lemma ChainAfterGt(e: string)
    requires '"' !in e && '\'' !in e
    ensures Replace(Replace(e, '"', "&quot;"), '\'', "&apos;") == e
  {
    ReplaceAbsent(e, '"', "&quot;");
    ReplaceAbsent(e, '\'', "&apos;");
  }

  lemma ReplaceChainChar(c: char)
    ensures XmlReplaceChain([c]) == EscapeXmlChar(c)
  {
    ReplaceSingle(c, '&', "&amp;");
    if c == '&' {
      ChainAfterAmp("&amp;");
      return;
    }
    ReplaceSingle(c, '<', "&lt;");
    if c == '<' {
      ChainAfterLt("&lt;");
      return;
    }
    ReplaceSingle(c, '>', "&gt;");
    if c == '>' {
      ChainAfterGt("&gt;");
      return;
    }
    ReplaceSingle(c, '"', "&quot;");
    if c == '"' {
      ReplaceAbsent("&quot;", '\'', "&apos;");
      return;
    }
    ReplaceSingle(c, '\'', "&apos;");
  }

  /** The replace chain escapes each character independently (because `&` goes first). */
  lemma {:induction false} XmlEscapeIsPerCharacter(s: string)
    ensures XmlReplaceChain(s) == EscapeXmlChars(s)
  {
    if s != [] {
      assert s == [s[0]] + s[1..];
      ReplaceChainAppend([s[0]], s[1..]);
      ReplaceChainChar(s[0]);
      XmlEscapeIsPerCharacter(s[1..]);
    }
  }

  /** No `<`, `>`, `"` or `'` anywhere in `t`. */
  predicate HasNoMarkupChars(t: string) {
    forall i :: 0 <= i < |t| ==> t[i] != '<' && t[i] != '>' && t[i] != '"' && t[i] != '\''
  }

  /** `t` begins with one of the five predefined entities. */
  predicate StartsWithEntity(t: string) {
    IsPrefix("&amp;", t) || IsPrefix("&lt;", t) || IsPrefix("&gt;", t)
    || IsPrefix("&quot;", t) || IsPrefix("&apos;", t)
  }

  /** Every `&` in `t` is the start of a predefined entity. */
  predicate AmpersandsStartEntities(t: string) {
    forall i :: 0 <= i < |t| && t[i] == '&' ==> StartsWithEntity(t[i..])
  }

  lemma {:induction false} EscapeXmlCharsNoMarkup(s: string)
    ensures HasNoMarkupChars(EscapeXmlChars(s))
  {
    if s != [] {
      EscapeXmlCharsNoMarkup(s[1..]);
      var e, t := EscapeXmlChar(s[0]), EscapeXmlChars(s[1..]);
      assert forall i :: 0 <= i < |e| ==> e[i] != '<' && e[i] != '>' && e[i] != '"' && e[i] != '\'';
      assert forall i :: |e| <= i < |e + t| ==> (e + t)[i] == t[i - |e|];
    }
  }

  /** The output holds no `<`, `>`, `"` or `'`: they are all written as entities. */
  lemma XmlEscapeNoMarkup(s: string)
    ensures HasNoMarkupChars(XmlEscape(s))
  {
    EscapeXmlCharsNoMarkup(s);
  }

  lemma {:induction false} EscapeXmlCharsEntities(s: string)
    ensures AmpersandsStartEntities(EscapeXmlChars(s))
  {
    if s != [] {
      EscapeXmlCharsEntities(s[1..]);
      var e, t := EscapeXmlChar(s[0]), EscapeXmlChars(s[1..]);
      assert EscapeXmlChars(s) == e + t;
      forall i | 0 <= i < |e + t| && (e + t)[i] == '&'
        ensures StartsWithEntity((e + t)[i..])
      {
        if i < |e| {
          assert i == 0 && (e + t)[i..] == e + t;
          assert IsPrefix(e, e + t);
        } else {
          assert (e + t)[i..] == t[i - |e|..];
        }
      }
    }
  }

  /**
   * Every `&` in the output starts one of the five entities: because `&` is
   * replaced first, no entity written by a later step is escaped again.
   */
  lemma XmlEscapeAmpersandsStartEntities(s: string)
    ensures AmpersandsStartEntities(XmlEscape(s))
  {
    EscapeXmlCharsEntities(s);
  }

  /** Plain text is left unchanged. */
  lemma {:induction false} XmlEscapePlainUnchanged(s: string)
    requires IsPlainXmlText(s)
    ensures XmlEscape(s) == s
  {
    EscapeXmlCharsPlain(s);
  }

  lemma {:induction false} EscapeXmlCharsPlain(s: string)
    requires IsPlainXmlText(s)
    ensures EscapeXmlChars(s) == s
  {
    if s != [] {
      EscapeXmlCharsPlain(s[1..]);
    }
  }

  /** Each `&` grows by 4 characters, `<` and `>` by 3, `"` and `'` by 5. */
  function EscapedLength(s: string): nat {
    |s| + 4 * Count(s, '&') + 3 * Count(s, '<') + 3 * Count(s, '>')
    + 5 * Count(s, '"') + 5 * Count(s, '\'')
  }

  lemma {:induction false} EscapeXmlCharsLength(s: string)
    ensures |EscapeXmlChars(s)| == EscapedLength(s)
  {
    if s != [] {
      EscapeXmlCharsLength(s[1..]);
    }
  }

  lemma XmlEscapeLength(s: string)
    ensures |XmlEscape(s)| == EscapedLength(s)
  {
    EscapeXmlCharsLength(s);
  }

  /** Entity decoding: the five predefined entities back to their characters. */
  function XmlUnescape(t: string): string
  {
    if t == [] then []
    else if IsPrefix("&amp;", t) then "&" + XmlUnescape(t[5..])
    else if IsPrefix("&lt;", t) then "<" + XmlUnescape(t[4..])
    else if IsPrefix("&gt;", t) then ">" + XmlUnescape(t[4..])
    else if IsPrefix("&quot;", t) then "\"" + XmlUnescape(t[6..])
    else if IsPrefix("&apos;", t) then "'" + XmlUnescape(t[6..])
    else [t[0]] + XmlUnescape(t[1..])
  }

  /** Decoding an entity followed by more text. */
  lemma UnescapeAmp(rest: string)
    ensures XmlUnescape("&amp;" + rest) == "&" + XmlUnescape(rest)
  {
    var t := "&amp;" + rest;
    assert t[..5] == "&amp;" && t[5..] == rest;
  }

  lemma UnescapeLt(rest: string)
    ensures XmlUnescape("&lt;" + rest) == "<" + XmlUnescape(rest)
  {
    var t := "&lt;" + rest;
    assert t[..4] == "&lt;" && t[4..] == rest && t[1] == 'l';
  }

  lemma UnescapeGt(rest: string)
    ensures XmlUnescape("&gt;" + rest) == ">" + XmlUnescape(rest)
  {
    var t := "&gt;" + rest;
    assert t[..4] == "&gt;" && t[4..] == rest && t[1] == 'g';
  }

  lemma UnescapeQuot(rest: string)
    ensures XmlUnescape("&quot;" + rest) == "\"" + XmlUnescape(rest)
  {
    var t := "&quot;" + rest;
    assert t[..6] == "&quot;" && t[6..] == rest && t[1] == 'q';
  }

  lemma UnescapeApos(rest: string)
    ensures XmlUnescape("&apos;" + rest) == "'" + XmlUnescape(rest)
  {
    var t := "&apos;" + rest;
    assert t[..6] == "&apos;" && t[6..] == rest && t[1] == 'a' && t[2] == 'p';
  }

  lemma UnescapeOneChar(c: char, rest: string)
    ensures XmlUnescape(EscapeXmlChar(c) + rest) == [c] + XmlUnescape(rest)
  {
    match c
    case '&' => UnescapeAmp(rest);
    case '<' => UnescapeLt(rest);
    case '>' => UnescapeGt(rest);
    case '"' => UnescapeQuot(rest);
    case '\'' => UnescapeApos(rest);
    case _ => UnescapePlain(c, rest);
  }

  /** A character that starts no entity decodes to itself. */
  lemma UnescapePlain(c: char, rest: string)
    requires c != '&'
    ensures XmlUnescape([c] + rest) == [c] + XmlUnescape(rest)
  {
    var t := [c] + rest;
    assert t[0] == c && t[1..] == rest;
    assert !IsPrefix("&amp;", t) by { if |t| >= 5 { assert t[..5][0] == c; } }
    assert !IsPrefix("&lt;", t) by { if |t| >= 4 { assert t[..4][0] == c; } }
    assert !IsPrefix("&gt;", t) by { if |t| >= 4 { assert t[..4][0] == c; } }
    assert !IsPrefix("&quot;", t) by { if |t| >= 6 { assert t[..6][0] == c; } }
    assert !IsPrefix("&apos;", t) by { if |t| >= 6 { assert t[..6][0] == c; } }
  }

  /** Decoding the entities of the escaped text gives back the input. */
  lemma {:induction false} XmlEscapeRoundTrip(s: string)
    ensures XmlUnescape(XmlEscape(s)) == s
  {
    EscapeXmlCharsRoundTrip(s);
  }

  lemma {:induction false} EscapeXmlCharsRoundTrip(s: string)
    ensures XmlUnescape(EscapeXmlChars(s)) == s
  {
    if s != [] {
      UnescapeOneChar(s[0], EscapeXmlChars(s[1..]));
      EscapeXmlCharsRoundTrip(s[1..]);
    }
  }

  /**
   * The examples of the test suite, on the per-character form that
   * `XmlEscapeIsPerCharacter` proves equal to `XmlEscape`.
   */
  lemma XmlEscapeExamples()
    ensures EscapeXmlChars("AC&ME") == "AC&amp;ME"
    ensures EscapeXmlChars("p<>") == "p&lt;&gt;"
  {
  }
}
