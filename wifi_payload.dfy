/**
 * The Wi-Fi QR payload of src/wifiqr/services/wifi_payload.py: the network
 * record, security-label normalisation and the `WIFI:` barcode string
 * (the ZXing convention: `WIFI:T:<type>;S:<ssid>;P:<password>;H:<hidden>;;`).
 */
module WifiPayload {
  import opened Wrappers
  import opened Text
  import opened Constants

  /** One saved network; `imageData` is an optional base64 centre image. */
  datatype WifiConfig = WifiConfig(
    location: string,
    ssid: string,
    password: string,
    security: string,
    hidden: bool,
    imageData: Option<string>)

  // ---------------------------------------------------------------------
  // Delimiter escaping

  /** The chain of `str.replace` calls of `_escape`, in the source's order: backslash first. */
  function EscapeReplaceChain(value: string): string
  {
    Replace(Replace(Replace(Replace(value, '\\', "\\\\"), ';', "\\;"), ',', "\\,"), ':', "\\:")
  }

  /**
   * `_escape`: the replace chain, which puts one backslash before each
   * reserved character and leaves every other character as it is.
   */
  function Escape(value: string): (escaped: string)
    ensures escaped == EscapePayloadChars(value)
  {
    EscapeIsPerCharacter(value);
    EscapeReplaceChain(value)
  }

  /** The characters the payload grammar reserves. */
  predicate IsDelimiter(c: char) {
    c == '\\' || c == ';' || c == ',' || c == ':'
  }

  predicate HasNoDelimiters(s: string) {
    forall i :: 0 <= i < |s| ==> !IsDelimiter(s[i])
  }

  /** A reserved character gets one backslash in front of it; others stay. */
  function EscapePayloadChar(c: char): string
  {
    if IsDelimiter(c) then ['\\', c] else [c]
  }

  /** Reference escaper: one character at a time. */
  function EscapePayloadChars(s: string): string
  {
    if s == [] then [] else EscapePayloadChar(s[0]) + EscapePayloadChars(s[1..])
  }

  lemma {:induction false} ChainAppend(a: string, b: string)
    ensures EscapeReplaceChain(a + b) == EscapeReplaceChain(a) + EscapeReplaceChain(b)
  {
    ReplaceAppend(a, b, '\\', "\\\\");
    var a1, b1 := Replace(a, '\\', "\\\\"), Replace(b, '\\', "\\\\");
    ReplaceAppend(a1, b1, ';', "\\;");
    var a2, b2 := Replace(a1, ';', "\\;"), Replace(b1, ';', "\\;");
    ReplaceAppend(a2, b2, ',', "\\,");
    var a3, b3 := Replace(a2, ',', "\\,"), Replace(b2, ',', "\\,");
    ReplaceAppend(a3, b3, ':', "\\:");
  }

  /** Escaping distributes over concatenation. */
  lemma EscapeAppend(a: string, b: string)
    ensures Escape(a + b) == Escape(a) + Escape(b)
  {
    ChainAppend(a, b);
  }

  lemma ReplaceOne(x: char, c: char, r: string)
    ensures Replace([x], c, r) == if x == c then r else [x]
  {
    assert [x][1..] == [];
  }

  /** The steps after the one that escaped `c` find nothing more to replace. */
  lemma ChainAfterBackslash(e: string)
    requires ';' !in e && ',' !in e && ':' !in e
    ensures Replace(Replace(Replace(e, ';', "\\;"), ',', "\\,"), ':', "\\:") == e
  {
    ReplaceAbsent(e, ';', "\\;");
    ReplaceAbsent(e, ',', "\\,");
    ReplaceAbsent(e, ':', "\\:");
  }

  lemma ChainAfterSemicolon(e: string)
    requires ',' !in e && ':' !in e
    ensures Replace(Replace(e, ',', "\\,"), ':', "\\:") == e
  {
    ReplaceAbsent(e, ',', "\\,");
    ReplaceAbsent(e, ':', "\\:");
  }

  lemma EscapeOneChar(c: char)
    ensures EscapeReplaceChain([c]) == EscapePayloadChar(c)
  {
    ReplaceOne(c, '\\', "\\\\");
    if c == '\\' {
      ChainAfterBackslash("\\\\");
      return;
    }
    ReplaceOne(c, ';', "\\;");
    if c == ';' {
      ChainAfterSemicolon("\\;");
      return;
    }
    ReplaceOne(c, ',', "\\,");
    if c == ',' {
      ReplaceAbsent("\\,", ':', "\\:");
      return;
    }
    ReplaceOne(c, ':', "\\:");
  }

  /**
   * The replace chain escapes every character on its own: because the
   * backslash is doubled first, the backslashes added by the later steps are
   * not escaped again.
   */
  lemma {:induction false} EscapeIsPerCharacter(s: string)
    ensures EscapeReplaceChain(s) == EscapePayloadChars(s)
  {
    if s != [] {
      assert s == [s[0]] + s[1..];
      ChainAppend([s[0]], s[1..]);
      EscapeOneChar(s[0]);
      EscapeIsPerCharacter(s[1..]);
    }
  }

  lemma {:induction false} EscapeWithoutDelimiters(s: string)
    requires HasNoDelimiters(s)
    ensures Escape(s) == s
  {
    EscapeCharsWithoutDelimiters(s);
  }

  lemma {:induction false} EscapeCharsWithoutDelimiters(s: string)
    requires HasNoDelimiters(s)
    ensures EscapePayloadChars(s) == s
  {
    if s != [] {
      EscapeCharsWithoutDelimiters(s[1..]);
    }
  }

  /** Removes every escaping backslash: `\x` becomes `x`. */
  function Unescape(t: string): string
  {
    if t == [] then []
    else if t[0] == '\\' && |t| >= 2 then [t[1]] + Unescape(t[2..])
    else [t[0]] + Unescape(t[1..])
  }

  lemma {:induction false} UnescapeEscapeChars(s: string)
    ensures Unescape(EscapePayloadChars(s)) == s
  {
    if s != [] {
      var t := EscapePayloadChars(s);
      var rest := EscapePayloadChars(s[1..]);
      UnescapeEscapeChars(s[1..]);
      if IsDelimiter(s[0]) {
        assert t == ['\\', s[0]] + rest && t[2..] == rest;
      } else {
        assert t == [s[0]] + rest && t[1..] == rest;
      }
    }
  }

  /** Removing each escaping backslash recovers the input. */
  lemma EscapeRoundTrip(s: string)
    ensures Unescape(Escape(s)) == s
  {
    UnescapeEscapeChars(s);
  }

  // ---------------------------------------------------------------------
  // Security labels

  /**
   * `normalize_security`: upper-case, trim, then fold through the alias
   * table. The result is upper-case and trimmed, and it is never itself an
   * alias key.
   */
  function NormalizeSecurity(value: string): (n: string)
    ensures IsUpperCase(n) && IsStripped(n)
    ensures n !in SecurityAliases
  {
    UpperStripUpper(value);
    AliasOfCanonicalText(Strip(Upper(value)));
    AliasFor(Strip(Upper(value)))
  }

  lemma UpperStripUpper(value: string)
    ensures IsUpperCase(Strip(Upper(value))) && IsStripped(Strip(Upper(value)))
  {
    var k := Strip(Upper(value));
    forall i | 0 <= i < |k| ensures !('a' <= k[i] <= 'z') {
      StripChars(Upper(value), i);
    }
  }

  /** Folding upper-case, trimmed text gives upper-case, trimmed text that is no alias key. */
  lemma AliasOfCanonicalText(key: string)
    requires IsUpperCase(key) && IsStripped(key)
    ensures var t := AliasFor(key);
      IsUpperCase(t) && IsStripped(t) && t !in SecurityAliases
  {
    if key in SecurityAliases {
      CanonicalTokenText(AliasFor(key));
      TargetsAreNotAliases(AliasFor(key));
    }
  }

  lemma CanonicalTokenText(t: string)
    requires t in {"WPA", "NOPASS"}
    ensures IsUpperCase(t) && IsStripped(t)
  {
  }

  lemma TargetsAreNotAliases(t: string)
    requires t in {"WPA", "NOPASS"}
    ensures t !in SecurityAliases
  {
  }

  /** Upper-case, trimmed text outside the alias table normalises to itself. */
  lemma NormalizeFixesCanonicalText(n: string)
    requires IsUpperCase(n) && IsStripped(n) && n !in SecurityAliases
    ensures NormalizeSecurity(n) == n
  {
    UpperOfUpperCase(n);
    StripOfStripped(n);
  }

  /** Normalising an already normalised label changes nothing. */
  lemma NormalizeSecurityIdempotent(value: string)
    ensures NormalizeSecurity(NormalizeSecurity(value)) == NormalizeSecurity(value)
  {
    NormalizeFixesCanonicalText(NormalizeSecurity(value));
  }

  /** Labels outside the alias table, such as `WEP`, pass through upper-cased and trimmed. */
  lemma NormalizeSecurityPassThrough(value: string)
    requires Strip(Upper(value)) !in SecurityAliases
    ensures NormalizeSecurity(value) == Strip(Upper(value))
  {
  }

  /** The upper-cased, trimmed labels that mean an open network. */
  const OpenLabels: set<string> := {"NOPASS", "OPEN", "NONE", "NO PASSWORD"}

  /**
   * `is_open_security`: a label is open exactly when its upper-cased,
   * trimmed form is `NOPASS` itself or one of the aliases folded into it.
   */
  predicate IsOpenSecurity(value: string)
    ensures IsOpenSecurity(value) <==> Strip(Upper(value)) in OpenLabels
  {
    NormalizeSecurity(value) == "NOPASS"
  }

  /** `security_for_qr`: the `T:` token, `nopass` for open networks. */
  function SecurityForQr(value: string): (token: string)
    ensures token == "nopass" <==> IsOpenSecurity(value)
    ensures !IsOpenSecurity(value) ==> token == NormalizeSecurity(value)
  {
    var normalized := NormalizeSecurity(value);
    if normalized == "NOPASS" then "nopass" else normalized
  }

  /** How a label whose upper-case form is already trimmed normalises. */
  lemma NormalizeTrimmedLabel(value: string, upper: string, token: string)
    requires Upper(value) == upper && IsStripped(upper) && AliasFor(upper) == token
    ensures NormalizeSecurity(value) == token
  {
    StripOfStripped(upper);
  }

  lemma NormalizeOptionLabel()
    ensures NormalizeSecurity("WPA/WPA2/WPA3") == "WPA"
  {
    assert Upper("WPA/WPA2/WPA3") == "WPA/WPA2/WPA3";
    NormalizeTrimmedLabel("WPA/WPA2/WPA3", "WPA/WPA2/WPA3", "WPA");
  }

  lemma NormalizeWepLabel()
    ensures NormalizeSecurity("WEP") == "WEP"
  {
    assert Upper("WEP") == "WEP";
    NormalizeTrimmedLabel("WEP", "WEP", "WEP");
  }

  lemma NormalizeNoneLabel()
    ensures NormalizeSecurity("None") == "NOPASS"
  {
    assert Upper("None") == "NONE";
    NormalizeTrimmedLabel("None", "NONE", "NOPASS");
  }

  lemma NormalizeOpenLabel()
    ensures NormalizeSecurity("open") == "NOPASS"
  {
    assert Upper("open") == "OPEN";
    NormalizeTrimmedLabel("open", "OPEN", "NOPASS");
  }

  lemma NormalizeWpaLabel()
    ensures NormalizeSecurity("WPA") == "WPA"
  {
    assert Upper("WPA") == "WPA";
    NormalizeTrimmedLabel("WPA", "WPA", "WPA");
  }

  /** What each offered label normalises to. */
  lemma OptionNormalizes(o: string)
    requires o in SecurityOptions
    ensures NormalizeSecurity(o) == (if o == "WPA/WPA2/WPA3" then "WPA" else if o == "WEP" then "WEP" else "NOPASS")
  {
    if o == "WPA/WPA2/WPA3" {
      NormalizeOptionLabel();
    } else if o == "WEP" {
      NormalizeWepLabel();
    } else {
      assert o == "None";
      NormalizeNoneLabel();
    }
  }

  /**
   * Every offered label normalises into a canonical token; the default
   * option is a secured one.
   */
  lemma SecurityOptionsNormalize()
    ensures forall o :: o in SecurityOptions ==> NormalizeSecurity(o) in CanonicalTokens
    ensures SecurityOptions[0] == "WPA/WPA2/WPA3" && NormalizeSecurity(SecurityOptions[0]) == "WPA"
    ensures NormalizeSecurity("WEP") == "WEP" && NormalizeSecurity("None") == "NOPASS"
    ensures !IsOpenSecurity(SecurityOptions[0])
  {
    NormalizeOptionLabel();
    NormalizeWepLabel();
    NormalizeNoneLabel();
    forall o | o in SecurityOptions
      ensures NormalizeSecurity(o) in CanonicalTokens
    {
      OptionNormalizes(o);
    }
  }

  /** `"open"` is an open label and `"WPA"` is not. */
  lemma OpenSecurityExamples()
    ensures IsOpenSecurity("open")
    ensures !IsOpenSecurity("WPA")
  {
    NormalizeOpenLabel();
    NormalizeWpaLabel();
  }

  /** The `T:` token of every offered label is free of reserved characters. */
  lemma SecurityOptionTokens()
    ensures forall o :: o in SecurityOptions ==> HasNoDelimiters(SecurityForQr(o))
  {
    forall o | o in SecurityOptions
      ensures HasNoDelimiters(SecurityForQr(o))
    {
      OptionNormalizes(o);
      var t := NormalizeSecurity(o);
      assert SecurityForQr(o) == if t == "NOPASS" then "nopass" else t;
      TokenTextHasNoDelimiters(SecurityForQr(o));
    }
  }

  lemma TokenTextHasNoDelimiters(t: string)
    requires t in {"WPA", "WEP", "nopass"}
    ensures HasNoDelimiters(t)
  {
  }

  // ---------------------------------------------------------------------
  // The payload

  function BoolText(b: bool): string {
    if b then "true" else "false"
  }

  /** `build_wifi_payload`: every payload is framed by `WIFI:T:` and the closing `;;`. */
  function BuildWifiPayload(config: WifiConfig): (p: string)
    ensures IsPrefix("WIFI:T:", p)
    ensures |p| >= 2 && p[|p| - 2..] == ";;"
  {
    var ssid := Escape(Strip(config.ssid));
    var password := Escape(config.password);
    var security := SecurityForQr(config.security);
    var hidden := BoolText(config.hidden);
    if security == "nopass" then
      OpenTemplateFraming(ssid, hidden);
      "WIFI:T:nopass;S:" + ssid + ";H:" + hidden + ";;"
    else
      SecuredTemplateFraming(security, ssid, password, hidden);
      "WIFI:T:" + security + ";S:" + ssid + ";P:" + password + ";H:" + hidden + ";;"
  }

  lemma OpenTemplateFraming(ssid: string, hidden: string)
    ensures var p := "WIFI:T:nopass;S:" + ssid + ";H:" + hidden + ";;";
      IsPrefix("WIFI:T:", p) && p[|p| - 2..] == ";;"
  {
  }

  lemma SecuredTemplateFraming(token: string, ssid: string, password: string, hidden: string)
    ensures var p := "WIFI:T:" + token + ";S:" + ssid + ";P:" + password + ";H:" + hidden + ";;";
      IsPrefix("WIFI:T:", p) && p[|p| - 2..] == ";;"
  {
  }

  // A decoder for the payload grammar, the partner of the encoder.

  /** A decoded `K:value` field. */
  type Field = (string, string)

  /**
   * Reads a field value up to the first `;` not preceded by an escaping
   * backslash; returns the unescaped value and what follows the `;`.
   */
  function ReadValue(s: string): (r: Option<(string, string)>)
    ensures r.Some? ==> |r.value.1| < |s|
  {
    if s == [] then None
    else if s[0] == ';' then Some(([], s[1..]))
    else if s[0] == '\\' && |s| >= 2 then
      match ReadValue(s[2..])
      case None => None
      case Some((v, rest)) => Some(([s[1]] + v, rest))
    else
      match ReadValue(s[1..])
      case None => None
      case Some((v, rest)) => Some(([s[0]] + v, rest))
  }

  /** Reads `K:value;` fields until the closing `;`. */
  function ParseFields(s: string): Option<seq<Field>>
    decreases |s|
  {
    if s == ";" then Some([])
    else if |s| >= 2 && s[1] == ':' then
      match ReadValue(s[2..])
      case None => None
      case Some((v, rest)) =>
        match ParseFields(rest)
        case None => None
        case Some(fs) => Some([([s[0]], v)] + fs)
    else None
  }

  /** Decodes a `WIFI:` payload into its fields, in order. */
  function DecodePayload(p: string): Option<seq<Field>>
  {
    if IsPrefix("WIFI:", p) then ParseFields(p[5..]) else None
  }

  /** The fields a payload of `config` is meant to carry. */
  function PayloadFieldsOf(config: WifiConfig): seq<Field>
  {
    var token, ssid, hidden := SecurityForQr(config.security), Strip(config.ssid), BoolText(config.hidden);
    if IsOpenSecurity(config.security) then [("T", token), ("S", ssid), ("H", hidden)]
    else [("T", token), ("S", ssid), ("P", config.password), ("H", hidden)]
  }

  lemma {:induction false} ReadEscapedValue(v: string, rest: string)
    ensures ReadValue(EscapePayloadChars(v) + ";" + rest) == Some((v, rest))
  {
    var s := EscapePayloadChars(v) + ";" + rest;
    if v == [] {
      assert s == ";" + rest && s[1..] == rest;
    } else {
      var tail := EscapePayloadChars(v[1..]) + ";" + rest;
      ReadEscapedValue(v[1..], rest);
      if IsDelimiter(v[0]) {
        assert s == ['\\', v[0]] + tail && s[2..] == tail;
      } else {
        assert s == [v[0]] + tail && s[1..] == tail;
      }
      assert [v[0]] + v[1..] == v;
    }
  }

  /** One field as the payload writes it: `K:escaped-value;`. */
  function FieldText(f: Field): string
  {
    f.0 + ":" + EscapePayloadChars(f.1) + ";"
  }

  /** The encoding of a field list, field after field. */
  function EncodeFields(fs: seq<Field>): string
  {
    if fs == [] then [] else FieldText(fs[0]) + EncodeFields(fs[1..])
  }

  /** One encoded field, then the rest: the field is read and parsing goes on. */
  lemma ParseOneField(k: string, v: string, rest: string)
    requires |k| == 1
    ensures ParseFields(FieldText((k, v)) + rest)
         == match ParseFields(rest)
            case None => None
            case Some(fs) => Some([(k, v)] + fs)
  {
    var e := EscapePayloadChars(v);
    var s := FieldText((k, v)) + rest;
    SplitField(k, e, rest);
    assert s[2..] == e + ";" + rest;
    ReadEscapedValue(v, rest);
    assert [s[0]] == k;
  }

  lemma SplitField(k: string, e: string, rest: string)
    requires |k| == 1
    ensures var s := k + ":" + e + ";" + rest;
      s != ";" && |s| >= 2 && s[1] == ':' && s[0] == k[0] && s[2..] == e + ";" + rest
  {
  }

  lemma {:induction false} ParseEncodedFields(fs: seq<Field>)
    requires SingleLetterKeys(fs)
    ensures ParseFields(EncodeFields(fs) + ";") == Some(fs)
  {
    if fs != [] {
      var rest := EncodeFields(fs[1..]) + ";";
      assert EncodeFields(fs) + ";" == FieldText(fs[0]) + rest;
      ParseOneField(fs[0].0, fs[0].1, rest);
      ParseEncodedFields(fs[1..]);
      assert [(fs[0].0, fs[0].1)] + fs[1..] == fs;
    }
  }

  lemma OpenTemplateFields(ssid: string, hidden: string)
    ensures "WIFI:T:nopass;S:" + ssid + ";H:" + hidden + ";;"
         == "WIFI:" + (("T" + ":" + "nopass" + ";") + (("S" + ":" + ssid + ";") + (("H" + ":" + hidden + ";") + []))) + ";"
  {
  }

  lemma SecuredTemplateFields(token: string, ssid: string, password: string, hidden: string)
    ensures "WIFI:T:" + token + ";S:" + ssid + ";P:" + password + ";H:" + hidden + ";;"
         == "WIFI:" + (("T" + ":" + token + ";") + (("S" + ":" + ssid + ";")
            + (("P" + ":" + password + ";") + (("H" + ":" + hidden + ";") + [])))) + ";"
  {
  }

  lemma EncodeFieldsCons(f: Field, rest: seq<Field>)
    ensures EncodeFields([f] + rest) == FieldText(f) + EncodeFields(rest)
  {
    assert ([f] + rest)[1..] == rest;
  }

  lemma EncodeThreeFields(a: Field, b: Field, c: Field)
    ensures EncodeFields([a, b, c]) == FieldText(a) + (FieldText(b) + (FieldText(c) + []))
  {
    EncodeFieldsCons(c, []);
    assert [b] + [c] == [b, c];
    EncodeFieldsCons(b, [c]);
    assert [a] + [b, c] == [a, b, c];
    EncodeFieldsCons(a, [b, c]);
  }

  lemma EncodeFourFields(a: Field, b: Field, c: Field, d: Field)
    ensures EncodeFields([a, b, c, d]) == FieldText(a) + (FieldText(b) + (FieldText(c) + (FieldText(d) + [])))
  {
    EncodeThreeFields(b, c, d);
    assert [a] + [b, c, d] == [a, b, c, d];
    EncodeFieldsCons(a, [b, c, d]);
  }

  /** A field whose value has no reserved character is written as it is. */
  lemma PlainFieldText(k: string, v: string)
    requires HasNoDelimiters(v)
    ensures FieldText((k, v)) == k + ":" + v + ";"
  {
    EscapeCharsWithoutDelimiters(v);
  }

  lemma EscapedFieldText(k: string, v: string)
    ensures FieldText((k, v)) == k + ":" + Escape(v) + ";"
  {
  }

  lemma BoolTextHasNoDelimiters(b: bool)
    ensures HasNoDelimiters(BoolText(b))
  {
  }

  lemma OpenPayloadText(config: WifiConfig)
    requires IsOpenSecurity(config.security)
    ensures BuildWifiPayload(config) == "WIFI:T:nopass;S:" + Escape(Strip(config.ssid)) + ";H:" + BoolText(config.hidden) + ";;"
    ensures PayloadFieldsOf(config) == [("T", "nopass"), ("S", Strip(config.ssid)), ("H", BoolText(config.hidden))]
  {
  }

  lemma SecuredPayloadText(config: WifiConfig)
    requires !IsOpenSecurity(config.security)
    ensures var token := SecurityForQr(config.security);
      BuildWifiPayload(config) == "WIFI:T:" + token + ";S:" + Escape(Strip(config.ssid))
        + ";P:" + Escape(config.password) + ";H:" + BoolText(config.hidden) + ";;"
    ensures PayloadFieldsOf(config) == [("T", SecurityForQr(config.security)), ("S", Strip(config.ssid)),
      ("P", config.password), ("H", BoolText(config.hidden))]
  {
  }

  /** The payload is `WIFI:`, the encoded fields of `config`, then `;`. */
  lemma PayloadIsEncodedFields(config: WifiConfig)
    requires HasNoDelimiters(SecurityForQr(config.security))
    ensures BuildWifiPayload(config) == "WIFI:" + EncodeFields(PayloadFieldsOf(config)) + ";"
  {
    var token := SecurityForQr(config.security);
    var ssid, password := Strip(config.ssid), config.password;
    var h := BoolText(config.hidden);
    BoolTextHasNoDelimiters(config.hidden);
    PlainFieldText("T", token);
    EscapedFieldText("S", ssid);
    PlainFieldText("H", h);
    if IsOpenSecurity(config.security) {
      OpenPayloadText(config);
      EncodeThreeFields(("T", token), ("S", ssid), ("H", h));
      OpenTemplateFields(Escape(ssid), h);
    } else {
      SecuredPayloadText(config);
      EscapedFieldText("P", password);
      EncodeFourFields(("T", token), ("S", ssid), ("P", password), ("H", h));
      SecuredTemplateFields(token, Escape(ssid), Escape(password), h);
    }
  }

  /**
   * Decoding a payload gives back its fields in order: the token, the
   * trimmed SSID, the untrimmed password unless the network is open (then
   * there is no `P:` field at all), and the hidden flag. It holds whenever
   * the token has no reserved character, which is so for every offered
   * label (`SecurityOptionTokens`); the token is the one field written
   * without escaping.
   */
  lemma PayloadRoundTrip(config: WifiConfig)
    requires HasNoDelimiters(SecurityForQr(config.security))
    ensures DecodePayload(BuildWifiPayload(config)) == Some(PayloadFieldsOf(config))
  {
    PayloadIsEncodedFields(config);
    FieldKeysAreSingleLetters(config);
    DecodeEncoded(BuildWifiPayload(config), PayloadFieldsOf(config));
  }

  /** Every key of the list is one character long, as `T`, `S`, `P` and `H` are. */
  predicate SingleLetterKeys(fs: seq<Field>)
  {
    forall i :: 0 <= i < |fs| ==> |fs[i].0| == 1
  }

  lemma DecodeEncoded(p: string, fs: seq<Field>)
    requires SingleLetterKeys(fs)
    requires p == "WIFI:" + EncodeFields(fs) + ";"
    ensures DecodePayload(p) == Some(fs)
  {
    ParseEncodedFields(fs);
    DecodeFramed(EncodeFields(fs) + ";");
    assert p == "WIFI:" + (EncodeFields(fs) + ";");
  }

  lemma FieldKeysAreSingleLetters(config: WifiConfig)
    ensures SingleLetterKeys(PayloadFieldsOf(config))
  {
    var ssid, h := Strip(config.ssid), BoolText(config.hidden);
    if IsOpenSecurity(config.security) {
      OpenPayloadText(config);
      ThreeKeys("nopass", ssid, h);
    } else {
      SecuredPayloadText(config);
      FourKeys(SecurityForQr(config.security), ssid, config.password, h);
    }
  }

  lemma ThreeKeys(t: string, s: string, h: string)
    ensures SingleLetterKeys([("T", t), ("S", s), ("H", h)])
  {
  }

  lemma FourKeys(t: string, s: string, p: string, h: string)
    ensures SingleLetterKeys([("T", t), ("S", s), ("P", p), ("H", h)])
  {
  }

  lemma DecodeFramed(body: string)
    ensures DecodePayload("WIFI:" + body) == ParseFields(body)
  {
    assert ("WIFI:" + body)[..5] == "WIFI:" && ("WIFI:" + body)[5..] == body;
  }
}
