/**
 * The Windows WLAN profile document of src/wifiqr/services/wifi_profiles.py:
 * the profile XML that `netsh wlan add profile` imports.
 */
module WifiProfiles {
  import opened Wrappers
  import opened Text
  import opened Constants
  import opened XmlUtils
  import opened XmlTree
  import opened WifiPayload

  /** `_security_to_profile`: the authentication, encryption and key type of a config. */
  function SecurityToProfile(config: WifiConfig): (w: WindowsSecurity)
    ensures w.keyType.None? <==> IsOpenSecurity(config.security)
    ensures IsOpenSecurity(config.security) ==> w == WindowsSecurity("open", "none", None)
    ensures NormalizeSecurity(config.security) == "WEP" ==> w == WindowsSecurity("open", "WEP", Some("networkKey"))
    ensures NormalizeSecurity(config.security) !in {"NOPASS", "WEP"} ==> w == WindowsSecurity("WPA2PSK", "AES", Some("passPhrase"))
  {
    WindowsSecurityFor(NormalizeSecurity(config.security))
  }

  const XmlDeclaration: string := "<?xml version=\"1.0\"?>"

  /**
   * The namespace of version 1 WLAN profiles. It is written as its URL
   * segments because the verifier handles short literals far more cheaply
   * than one long one; `NamespaceIsPlain` checks it segment by segment.
   */
  const WlanNamespace: string := "http://www." + "microsoft.com/" + "networking/" + "WLAN/profile/v1"

  /** The `<sharedKey>` block, present only when there is a key type; its pieces. */
  function KeyMaterialPieces(keyType: Option<string>, password: string): seq<string>
  {
    if keyType.Some? && keyType.value != [] then
      ["<sharedKey>", "<keyType>", keyType.value, "</keyType>", "<protected>", "false", "</protected>",
       "<keyMaterial>", password, "</keyMaterial>", "</sharedKey>"]
    else []
  }

  /**
   * The profile template after the XML declaration, cut at its tags, with
   * the already-escaped values and the key material block filled in.
   */
  function ProfilePieces(ssid: string, hidden: string, auth: string, encryption: string, keyMaterial: seq<string>): seq<string>
  {
    ["<WLANProfile xmlns=\"" + WlanNamespace + "\">"]
    + (["<name>", ssid, "</name>"]
    + (["<SSIDConfig>",
        "<SSID>",
        "<name>", ssid, "</name>",
        "</SSID>",
        "<nonBroadcast>", hidden, "</nonBroadcast>",
        "</SSIDConfig>"]
    + (["<connectionType>", "ESS", "</connectionType>"]
    + (["<connectionMode>", "auto", "</connectionMode>"]
    + (["<MSM>",
        "<security>"]
       + ["<authEncryption>",
          "<authentication>", auth, "</authentication>",
          "<encryption>", encryption, "</encryption>",
          "<useOneX>", "false", "</useOneX>",
          "</authEncryption>"]
       + keyMaterial
       + ["</security>",
          "</MSM>"])))))
    + ["</WLANProfile>"]
  }

  /**
   * `build_wlan_profile_xml`: the profile text is the XML declaration
   * followed by the serialisation of `WlanTree(config)`; the template is
   * well-formed, its SSID and password are escaped character data, and its
   * shape is the tree's.
   */
  function BuildWlanProfileXml(config: WifiConfig): (xml: string)
    ensures xml == XmlDeclaration + Render(WlanTree(config))
  {
    var w := SecurityToProfile(config);
    var ssid := XmlEscape(config.ssid);
    var password := XmlEscape(config.password);
    var hidden := BoolText(config.hidden);
    WindowsValuesArePlain(NormalizeSecurity(config.security));
    BoolTextIsPlain(config.hidden);
    ProfileNodePieces(config.ssid, hidden, w, config.password);
    XmlDeclaration + Concat(ProfilePieces(ssid, hidden, w.authentication, w.encryption, KeyMaterialPieces(w.keyType, password)))
  }

  // ---------------------------------------------------------------------
  // The profile as an element tree

  function SharedKeyNodes(keyType: Option<string>, password: string): seq<Node>
  {
    if keyType.Some? && keyType.value != [] then
      [Element("sharedKey", [], [Leaf("keyType", keyType.value), Leaf("protected", "false"), Leaf("keyMaterial", password)])]
    else []
  }

  function SsidConfigNode(ssid: string, hidden: string): Node
  {
    Element("SSIDConfig", [], [Element("SSID", [], [Leaf("name", ssid)]), Leaf("nonBroadcast", hidden)])
  }

  function AuthEncryptionNode(auth: string, encryption: string): Node
  {
    Element("authEncryption", [], [Leaf("authentication", auth), Leaf("encryption", encryption), Leaf("useOneX", "false")])
  }

  function MsmNode(w: WindowsSecurity, password: string): Node
  {
    Element("MSM", [], [Element("security", [],
      [AuthEncryptionNode(w.authentication, w.encryption)] + SharedKeyNodes(w.keyType, password))])
  }

  function ProfileNode(ssid: string, hidden: string, w: WindowsSecurity, password: string): Node
  {
    Element("WLANProfile", [("xmlns", WlanNamespace)], [
      Leaf("name", ssid),
      SsidConfigNode(ssid, hidden),
      Leaf("connectionType", "ESS"),
      Leaf("connectionMode", "auto"),
      MsmNode(w, password)])
  }

  /** The profile a config describes, holding the raw (unescaped) SSID and password. */
  function WlanTree(config: WifiConfig): Node
  {
    ProfileNode(config.ssid, BoolText(config.hidden), SecurityToProfile(config), config.password)
  }

  // ---------------------------------------------------------------------
  // The template is the tree, written out

  /** Every value the security table puts into a profile is plain text. */
  lemma WindowsValuesArePlain(token: string)
    ensures var w := WindowsSecurityFor(token);
      IsPlainXmlText(w.authentication) && IsPlainXmlText(w.encryption)
      && (w.keyType.Some? ==> IsPlainXmlText(w.keyType.value))
  {
    if token == "NOPASS" {
      assert IsPlainXmlText("open") && IsPlainXmlText("none");
    } else if token == "WEP" {
      assert IsPlainXmlText("open") && IsPlainXmlText("WEP") && IsPlainXmlText("networkKey");
    } else {
      assert IsPlainXmlText("WPA2PSK") && IsPlainXmlText("AES") && IsPlainXmlText("passPhrase");
    }
  }

  lemma BoolTextIsPlain(b: bool)
    ensures IsPlainXmlText(BoolText(b))
  {
    assert IsPlainXmlText("true") && IsPlainXmlText("false");
  }

  lemma NamespaceIsPlain()
    ensures IsPlainXmlText(WlanNamespace)
  {
    var a, b, c, d := "http://www.", "microsoft.com/", "networking/", "WLAN/profile/v1";
    SegmentsArePlain();
    PlainAppend(a, b);
    PlainAppend(a + b, c);
    PlainAppend(a + b + c, d);
  }

  lemma SegmentsArePlain()
    ensures IsPlainXmlText("http://www.") && IsPlainXmlText("microsoft.com/")
    ensures IsPlainXmlText("networking/") && IsPlainXmlText("WLAN/profile/v1")
  {
  }

  lemma NameTags()
    ensures StartTag("name", []) == "<name>" && CloseTag("name") == "</name>"
    ensures StartTag("nonBroadcast", []) == "<nonBroadcast>" && CloseTag("nonBroadcast") == "</nonBroadcast>"
  {
  }

  lemma SsidElementTags()
    ensures StartTag("SSID", []) == "<SSID>" && CloseTag("SSID") == "</SSID>"
    ensures StartTag("SSIDConfig", []) == "<SSIDConfig>" && CloseTag("SSIDConfig") == "</SSIDConfig>"
  {
  }

  lemma ConnectionTags()
    ensures StartTag("connectionType", []) == "<connectionType>" && CloseTag("connectionType") == "</connectionType>"
    ensures StartTag("connectionMode", []) == "<connectionMode>" && CloseTag("connectionMode") == "</connectionMode>"
  {
  }

  lemma FlagTags()
    ensures StartTag("useOneX", []) == "<useOneX>" && CloseTag("useOneX") == "</useOneX>"
    ensures StartTag("protected", []) == "<protected>" && CloseTag("protected") == "</protected>"
  {
  }

  lemma SecurityTags()
    ensures StartTag("MSM", []) == "<MSM>" && CloseTag("MSM") == "</MSM>"
    ensures StartTag("security", []) == "<security>" && CloseTag("security") == "</security>"
  {
  }

  lemma AuthEncryptionTags()
    ensures StartTag("authEncryption", []) == "<authEncryption>" && CloseTag("authEncryption") == "</authEncryption>"
  {
  }

  lemma AuthenticationTags()
    ensures StartTag("authentication", []) == "<authentication>" && CloseTag("authentication") == "</authentication>"
  {
  }

  lemma KeyTags()
    ensures StartTag("encryption", []) == "<encryption>" && CloseTag("encryption") == "</encryption>"
    ensures StartTag("sharedKey", []) == "<sharedKey>" && CloseTag("sharedKey") == "</sharedKey>"
  {
  }

  lemma KeyFieldTags()
    ensures StartTag("keyType", []) == "<keyType>" && CloseTag("keyType") == "</keyType>"
    ensures StartTag("keyMaterial", []) == "<keyMaterial>" && CloseTag("keyMaterial") == "</keyMaterial>"
  {
  }

  lemma RootTagLiterals(ns: string)
    ensures "<" + "WLANProfile" + " " + "xmlns" + "=\"" + ns + "\">" == "<WLANProfile xmlns=\"" + ns + "\">"
    ensures CloseTag("WLANProfile") == "</WLANProfile>"
  {
  }

  lemma RootStartTag()
    ensures StartTag("WLANProfile", [("xmlns", WlanNamespace)]) == "<WLANProfile xmlns=\"" + WlanNamespace + "\">"
  {
    NamespaceIsPlain();
    AttributedStartTag("WLANProfile", "xmlns", WlanNamespace);
    RootTagLiterals(WlanNamespace);
  }

  lemma SsidConfigPieces(ssid: string, hidden: string)
    requires IsPlainXmlText(hidden)
    ensures Pieces(SsidConfigNode(ssid, hidden))
         == ["<SSIDConfig>", "<SSID>", "<name>", EscapeXmlChars(ssid), "</name>", "</SSID>",
             "<nonBroadcast>", hidden, "</nonBroadcast>", "</SSIDConfig>"]
  {
    var name, flag := Leaf("name", ssid), Leaf("nonBroadcast", hidden);
    var ssidElement := Element("SSID", [], [name]);
    NameTags();
    SsidElementTags();
    LeafPieces("name", ssid);
    PlainLeafPieces("nonBroadcast", hidden);
    ChildPiecesOne(name);
    ChildPiecesTwo(ssidElement, flag);
    assert Pieces(ssidElement) == ["<SSID>"] + Pieces(name) + ["</SSID>"];
  }

  lemma ConnectionPieces()
    ensures Pieces(Leaf("connectionType", "ESS")) == ["<connectionType>", "ESS", "</connectionType>"]
    ensures Pieces(Leaf("connectionMode", "auto")) == ["<connectionMode>", "auto", "</connectionMode>"]
  {
    ConnectionTags();
    FlagTags();
    assert IsPlainXmlText("ESS") && IsPlainXmlText("auto");
    PlainLeafPieces("connectionType", "ESS");
    PlainLeafPieces("connectionMode", "auto");
  }

  lemma AuthEncryptionPieces(auth: string, encryption: string)
    requires IsPlainXmlText(auth) && IsPlainXmlText(encryption)
    ensures Pieces(AuthEncryptionNode(auth, encryption))
         == ["<authEncryption>", "<authentication>", auth, "</authentication>",
             "<encryption>", encryption, "</encryption>", "<useOneX>", "false", "</useOneX>", "</authEncryption>"]
  {
    AuthEncryptionTags();
    AuthenticationTags();
    KeyTags();
    FalseLeafPieces();
    PlainLeafPieces("authentication", auth);
    PlainLeafPieces("encryption", encryption);
    ChildPiecesThree(Leaf("authentication", auth), Leaf("encryption", encryption), Leaf("useOneX", "false"));
  }

  lemma FalseLeafPieces()
    ensures Pieces(Leaf("protected", "false")) == ["<protected>", "false", "</protected>"]
    ensures Pieces(Leaf("useOneX", "false")) == ["<useOneX>", "false", "</useOneX>"]
  {
    FlagTags();
    assert IsPlainXmlText("false");
    PlainLeafPieces("protected", "false");
    PlainLeafPieces("useOneX", "false");
  }

  lemma SharedKeyElementPieces(keyType: string, password: string)
    requires IsPlainXmlText(keyType)
    ensures Pieces(Element("sharedKey", [], [Leaf("keyType", keyType), Leaf("protected", "false"), Leaf("keyMaterial", password)]))
         == ["<sharedKey>", "<keyType>", keyType, "</keyType>", "<protected>", "false", "</protected>",
             "<keyMaterial>", EscapeXmlChars(password), "</keyMaterial>", "</sharedKey>"]
  {
    var k, p, m := Leaf("keyType", keyType), Leaf("protected", "false"), Leaf("keyMaterial", password);
    KeyTags();
    KeyFieldTags();
    FalseLeafPieces();
    PlainLeafPieces("keyType", keyType);
    LeafPieces("keyMaterial", password);
    ChildPiecesThree(k, p, m);
  }

  lemma SharedKeyPieces(keyType: Option<string>, password: string)
    requires keyType.Some? ==> IsPlainXmlText(keyType.value)
    ensures ChildPieces(SharedKeyNodes(keyType, password)) == KeyMaterialPieces(keyType, EscapeXmlChars(password))
  {
    if keyType.Some? && keyType.value != [] {
      var k := keyType.value;
      SharedKeyElementPieces(k, password);
      ChildPiecesOne(Element("sharedKey", [], [Leaf("keyType", k), Leaf("protected", "false"), Leaf("keyMaterial", password)]));
    }
  }

  lemma MsmPieces(w: WindowsSecurity, password: string)
    requires IsPlainXmlText(w.authentication) && IsPlainXmlText(w.encryption)
    requires w.keyType.Some? ==> IsPlainXmlText(w.keyType.value)
    ensures Pieces(MsmNode(w, password))
         == ["<MSM>", "<security>"] + Pieces(AuthEncryptionNode(w.authentication, w.encryption))
            + KeyMaterialPieces(w.keyType, EscapeXmlChars(password)) + ["</security>", "</MSM>"]
  {
    var ae := AuthEncryptionNode(w.authentication, w.encryption);
    var sk := SharedKeyNodes(w.keyType, password);
    SecurityTags();
    AuthEncryptionTags();
    AuthenticationTags();
    SharedKeyPieces(w.keyType, password);
    ChildPiecesCons(ae, sk);
    ChildPiecesOne(Element("security", [], [ae] + sk));
  }

  /** The serialisation of the tree, piece by piece. */
  lemma ProfileNodePieces(ssid: string, hidden: string, w: WindowsSecurity, password: string)
    requires IsPlainXmlText(hidden)
    requires IsPlainXmlText(w.authentication) && IsPlainXmlText(w.encryption)
    requires w.keyType.Some? ==> IsPlainXmlText(w.keyType.value)
    ensures Pieces(ProfileNode(ssid, hidden, w, password))
         == ProfilePieces(EscapeXmlChars(ssid), hidden, w.authentication, w.encryption,
                        KeyMaterialPieces(w.keyType, EscapeXmlChars(password)))
  {
    var name, ssidConfig := Leaf("name", ssid), SsidConfigNode(ssid, hidden);
    var ct, cm := Leaf("connectionType", "ESS"), Leaf("connectionMode", "auto");
    var msm := MsmNode(w, password);
    NameTags();
    SsidElementTags();
    RootStartTag();
    RootTagLiterals(WlanNamespace);
    LeafPieces("name", ssid);
    SsidConfigPieces(ssid, hidden);
    ConnectionPieces();
    AuthEncryptionPieces(w.authentication, w.encryption);
    MsmPieces(w, password);
    ChildPiecesFive(name, ssidConfig, ct, cm, msm);
  }

  // ---------------------------------------------------------------------
  // What the profile says, element by element

  /** Both `<name>` elements hold the SSID, and `<nonBroadcast>` the hidden flag. */
  lemma ProfileNodeNames(ssid: string, hidden: string, w: WindowsSecurity, password: string)
    ensures var p := ProfileNode(ssid, hidden, w, password);
      Find(p, ["name"]) == Some(Leaf("name", ssid))
      && Find(p, ["SSIDConfig", "SSID", "name"]) == Some(Leaf("name", ssid))
      && Find(p, ["SSIDConfig", "nonBroadcast"]) == Some(Leaf("nonBroadcast", hidden))
  {
    var p := ProfileNode(ssid, hidden, w, password);
    var sc := SsidConfigNode(ssid, hidden);
    FindStep(p, ["name"], Leaf("name", ssid));
    assert ["name"][1..] == [];
    var path := ["SSIDConfig", "SSID", "name"];
    var flag := ["SSIDConfig", "nonBroadcast"];
    assert "name"[0] != "SSIDConfig"[0];
    ChildNamedSkip(p.children, "SSIDConfig");
    FindStep(p, path, sc);
    FindStep(p, flag, sc);
    assert path[1..] == ["SSID", "name"] && flag[1..] == ["nonBroadcast"];
    SsidConfigPaths(ssid, hidden);
  }

  /** Inside `<SSIDConfig>`, `SSID/name` holds the SSID and `nonBroadcast` the hidden flag. */
  lemma SsidConfigPaths(ssid: string, hidden: string)
    ensures Find(SsidConfigNode(ssid, hidden), ["SSID", "name"]) == Some(Leaf("name", ssid))
    ensures Find(SsidConfigNode(ssid, hidden), ["nonBroadcast"]) == Some(Leaf("nonBroadcast", hidden))
  {
    var sc := SsidConfigNode(ssid, hidden);
    var se := Element("SSID", [], [Leaf("name", ssid)]);
    var path := ["SSID", "name"];
    FindStep(sc, path, se);
    FindStep(se, path[1..], Leaf("name", ssid));
    assert path[1..][1..] == [];
    var flag := ["nonBroadcast"];
    FindStep(sc, flag, Leaf("nonBroadcast", hidden));
    assert flag[1..] == [];
  }

  /** `<MSM>` is the only child of the root with that tag, and it comes last. */
  lemma MsmChild(ssid: string, hidden: string, w: WindowsSecurity, password: string)
    ensures ChildNamed(ProfileNode(ssid, hidden, w, password).children, "MSM") == Some(MsmNode(w, password))
  {
    var ns := ProfileNode(ssid, hidden, w, password).children;
    assert "name"[0] != "MSM"[0] && "SSIDConfig"[2] != "MSM"[2];
    assert "connectionType"[0] != "MSM"[0] && "connectionMode"[0] != "MSM"[0];
    ChildNamedSkip(ns, "MSM");
    ChildNamedSkip(ns[1..], "MSM");
    ChildNamedSkip(ns[1..][1..], "MSM");
    ChildNamedSkip(ns[1..][1..][1..], "MSM");
    assert ns[1..][1..][1..][1..] == [MsmNode(w, password)];
  }

  /** The `<security>` element of a profile, under `<MSM>`. */
  lemma FindSecurity(ssid: string, hidden: string, w: WindowsSecurity, password: string, path: seq<string>)
    requires |path| >= 2 && path[0] == "MSM" && path[1] == "security"
    ensures Find(ProfileNode(ssid, hidden, w, password), path)
         == Find(Element("security", [], [AuthEncryptionNode(w.authentication, w.encryption)] + SharedKeyNodes(w.keyType, password)), path[2..])
  {
    var p := ProfileNode(ssid, hidden, w, password);
    var m := MsmNode(w, password);
    var sec := Element("security", [], [AuthEncryptionNode(w.authentication, w.encryption)] + SharedKeyNodes(w.keyType, password));
    MsmChild(ssid, hidden, w, password);
    FindStep(p, path, m);
    FindStep(m, path[1..], sec);
    assert path[1..][1..] == path[2..];
  }

  /** `<authentication>` and `<encryption>` carry the values of the security table. */
  lemma ProfileNodeAuthentication(ssid: string, hidden: string, w: WindowsSecurity, password: string)
    ensures var p := ProfileNode(ssid, hidden, w, password);
      Find(p, ["MSM", "security", "authEncryption", "authentication"]) == Some(Leaf("authentication", w.authentication))
      && Find(p, ["MSM", "security", "authEncryption", "encryption"]) == Some(Leaf("encryption", w.encryption))
  {
    var ae := AuthEncryptionNode(w.authentication, w.encryption);
    var sec := Element("security", [], [ae] + SharedKeyNodes(w.keyType, password));
    var a := ["MSM", "security", "authEncryption", "authentication"];
    var e := ["MSM", "security", "authEncryption", "encryption"];
    FindSecurity(ssid, hidden, w, password, a);
    FindSecurity(ssid, hidden, w, password, e);
    FindStep(sec, a[2..], ae);
    FindStep(sec, e[2..], ae);
    FindStep(ae, a[2..][1..], Leaf("authentication", w.authentication));
    FindStep(ae, e[2..][1..], Leaf("encryption", w.encryption));
    assert a[2..][1..][1..] == [] && e[2..][1..][1..] == [];
  }

  /** The two leaves of a `<sharedKey>` element that carry data. */
  lemma SharedKeyLeaves(keyType: string, password: string)
    ensures var e := Element("sharedKey", [], [Leaf("keyType", keyType), Leaf("protected", "false"), Leaf("keyMaterial", password)]);
      Find(e, ["keyType"]) == Some(Leaf("keyType", keyType)) && Find(e, ["keyMaterial"]) == Some(Leaf("keyMaterial", password))
  {
    var k := Leaf("keyType", keyType);
    var m := Leaf("keyMaterial", password);
    var e := Element("sharedKey", [], [k, Leaf("protected", "false"), m]);
    assert "keyType"[3] != "keyMaterial"[3] && "protected"[0] != "keyMaterial"[0];
    ChildNamedSkip(e.children, "keyMaterial");
    ChildNamedSkip(e.children[1..], "keyMaterial");
    assert e.children[1..][1..] == [m];
    FindStep(e, ["keyType"], k);
    FindStep(e, ["keyMaterial"], m);
  }

  /** Looking below `MSM/security/sharedKey` looks into the shared-key element, when there is one. */
  lemma FindSharedKey(ssid: string, hidden: string, w: WindowsSecurity, password: string, path: seq<string>)
    requires |path| >= 3 && path[0] == "MSM" && path[1] == "security" && path[2] == "sharedKey"
    ensures var p := ProfileNode(ssid, hidden, w, password);
      if w.keyType.Some? && w.keyType.value != [] then
        Find(p, path) == Find(SharedKeyNodes(w.keyType, password)[0], path[3..])
      else Find(p, path) == None
  {
    var ae := AuthEncryptionNode(w.authentication, w.encryption);
    var sk := SharedKeyNodes(w.keyType, password);
    var sec := Element("security", [], [ae] + sk);
    FindSecurity(ssid, hidden, w, password, path);
    assert ([ae] + sk)[1..] == sk;
    if w.keyType.Some? && w.keyType.value != [] {
      FindStep(sec, path[2..], sk[0]);
      assert path[2..][1..] == path[3..];
    }
  }

  /**
   * There is a `<sharedKey>` element exactly when the security table gives
   * a key type; it then holds that key type and the password.
   */
  lemma ProfileNodeSharedKey(ssid: string, hidden: string, w: WindowsSecurity, password: string)
    ensures var p := ProfileNode(ssid, hidden, w, password);
      (Find(p, ["MSM", "security", "sharedKey"]).Some? <==> w.keyType.Some? && w.keyType.value != [])
      && (w.keyType.Some? && w.keyType.value != [] ==>
            Find(p, ["MSM", "security", "sharedKey", "keyType"]) == Some(Leaf("keyType", w.keyType.value))
            && Find(p, ["MSM", "security", "sharedKey", "keyMaterial"]) == Some(Leaf("keyMaterial", password)))
  {
    var s := ["MSM", "security", "sharedKey"];
    var kt := ["MSM", "security", "sharedKey", "keyType"];
    var km := ["MSM", "security", "sharedKey", "keyMaterial"];
    FindSharedKey(ssid, hidden, w, password, s);
    FindSharedKey(ssid, hidden, w, password, kt);
    FindSharedKey(ssid, hidden, w, password, km);
    if w.keyType.Some? && w.keyType.value != [] {
      assert s[3..] == [] && kt[3..] == ["keyType"] && km[3..] == ["keyMaterial"];
      SharedKeyLeaves(w.keyType.value, password);
    }
  }

  /** A secured network has a key type, from the security table, and it is never empty. */
  lemma SecuredKeyType(config: WifiConfig)
    ensures var w := SecurityToProfile(config);
      !IsOpenSecurity(config.security) ==> w.keyType.Some? && w.keyType.value != []
  {
  }

  /**
   * What a profile built from `config` records: the SSID under both `<name>`
   * elements, the hidden flag, the authentication and encryption of the
   * security table, and a `<sharedKey>` holding the key type and the raw
   * password exactly when the network is not open.
   */
  lemma WlanTreeFields(config: WifiConfig)
    ensures var t := WlanTree(config);
      var w := SecurityToProfile(config);
      TextAt(t, ["name"]) == Some(config.ssid)
      && TextAt(t, ["SSIDConfig", "SSID", "name"]) == Some(config.ssid)
      && TextAt(t, ["SSIDConfig", "nonBroadcast"]) == Some(BoolText(config.hidden))
      && TextAt(t, ["MSM", "security", "authEncryption", "authentication"]) == Some(w.authentication)
      && TextAt(t, ["MSM", "security", "authEncryption", "encryption"]) == Some(w.encryption)
      && (Find(t, ["MSM", "security", "sharedKey"]).Some? <==> !IsOpenSecurity(config.security))
      && (!IsOpenSecurity(config.security) ==>
            TextAt(t, ["MSM", "security", "sharedKey", "keyType"]) == w.keyType
            && TextAt(t, ["MSM", "security", "sharedKey", "keyMaterial"]) == Some(config.password))
  {
    var w := SecurityToProfile(config);
    var hidden := BoolText(config.hidden);
    SecuredKeyType(config);
    ProfileNodeNames(config.ssid, hidden, w, config.password);
    ProfileNodeAuthentication(config.ssid, hidden, w, config.password);
    ProfileNodeSharedKey(config.ssid, hidden, w, config.password);
    LeafText("name", config.ssid);
    LeafText("nonBroadcast", hidden);
    LeafText("authentication", w.authentication);
    LeafText("encryption", w.encryption);
    if w.keyType.Some? {
      LeafText("keyType", w.keyType.value);
      LeafText("keyMaterial", config.password);
    }
  }

  // ---------------------------------------------------------------------
  // The profile text

  /** Whatever `Find` reaches in the tree appears, rendered, in the profile text. */
  lemma NodeInProfile(config: WifiConfig, path: seq<string>, n: Node)
    requires Find(WlanTree(config), path) == Some(n)
    ensures Contains(BuildWlanProfileXml(config), Render(n))
  {
    var r := Render(WlanTree(config));
    ContainsInfix(XmlDeclaration, r, []);
    assert XmlDeclaration + r + [] == BuildWlanProfileXml(config);
    FindContained(WlanTree(config), path);
    ContainsTransitive(BuildWlanProfileXml(config), r, Render(n));
  }

  /** A leaf that `Find` reaches in the tree appears, rendered, in the profile text. */
  lemma LeafInProfile(config: WifiConfig, path: seq<string>, tag: string, content: string)
    requires Find(WlanTree(config), path) == Some(Leaf(tag, content))
    ensures Contains(BuildWlanProfileXml(config), StartTag(tag, []) + EscapeXmlChars(content) + CloseTag(tag))
  {
    NodeInProfile(config, path, Leaf(tag, content));
    RenderLeaf(tag, content);
  }

  /** The profile text names the network, escaped, and gives its hidden flag. */
  lemma WlanProfileNamesNetwork(config: WifiConfig)
    ensures var xml := BuildWlanProfileXml(config);
      Contains(xml, "<name>" + XmlEscape(config.ssid) + "</name>")
      && Contains(xml, "<nonBroadcast>" + BoolText(config.hidden) + "</nonBroadcast>")
  {
    var hidden := BoolText(config.hidden);
    ProfileNodeNames(config.ssid, hidden, SecurityToProfile(config), config.password);
    LeafInProfile(config, ["name"], "name", config.ssid);
    LeafInProfile(config, ["SSIDConfig", "nonBroadcast"], "nonBroadcast", hidden);
    NameTags();
    BoolTextIsPlain(config.hidden);
    EscapeXmlCharsPlain(hidden);
  }

  /** The profile text gives the authentication and encryption of the security table. */
  lemma WlanProfileSecurityText(config: WifiConfig)
    ensures var xml := BuildWlanProfileXml(config);
      var w := SecurityToProfile(config);
      Contains(xml, "<authentication>" + w.authentication + "</authentication>")
      && Contains(xml, "<encryption>" + w.encryption + "</encryption>")
  {
    var w := SecurityToProfile(config);
    ProfileNodeAuthentication(config.ssid, BoolText(config.hidden), w, config.password);
    LeafInProfile(config, ["MSM", "security", "authEncryption", "authentication"], "authentication", w.authentication);
    LeafInProfile(config, ["MSM", "security", "authEncryption", "encryption"], "encryption", w.encryption);
    AuthEncryptionTags();
    AuthenticationTags();
    KeyTags();
    WindowsValuesArePlain(NormalizeSecurity(config.security));
    EscapeXmlCharsPlain(w.authentication);
    EscapeXmlCharsPlain(w.encryption);
  }

  /** With a key type, the rendered profile holds a `<sharedKey>` element. */
  lemma ProfileNodeHasSharedKey(ssid: string, hidden: string, w: WindowsSecurity, password: string)
    requires w.keyType.Some? && w.keyType.value != []
    ensures Contains(Render(ProfileNode(ssid, hidden, w, password)), "<sharedKey>")
  {
    var p := ProfileNode(ssid, hidden, w, password);
    var sk := Element("sharedKey", [], [Leaf("keyType", w.keyType.value), Leaf("protected", "false"), Leaf("keyMaterial", password)]);
    FindSharedKey(ssid, hidden, w, password, ["MSM", "security", "sharedKey"]);
    assert ["MSM", "security", "sharedKey"][3..] == [];
    FindContained(p, ["MSM", "security", "sharedKey"]);
    RenderContainsStartTag(sk);
    assert StartTag("sharedKey", []) == "<sharedKey>" by { KeyTags(); }
    ContainsTransitive(Render(p), Render(sk), "<sharedKey>");
  }

  /** A secured network's profile text holds a `<sharedKey>` element. */
  lemma WlanProfileSharedKeyText(config: WifiConfig)
    requires !IsOpenSecurity(config.security)
    ensures Contains(BuildWlanProfileXml(config), "<sharedKey>")
  {
    var r := Render(WlanTree(config));
    SecuredKeyType(config);
    ProfileNodeHasSharedKey(config.ssid, BoolText(config.hidden), SecurityToProfile(config), config.password);
    ContainsInfix(XmlDeclaration, r, []);
    assert XmlDeclaration + r + [] == BuildWlanProfileXml(config);
    ContainsTransitive(BuildWlanProfileXml(config), r, "<sharedKey>");
  }

  /** A secured network's profile text gives the key type of the security table. */
  lemma WlanProfileKeyTypeText(config: WifiConfig)
    requires !IsOpenSecurity(config.security)
    ensures var w := SecurityToProfile(config);
      w.keyType.Some? && Contains(BuildWlanProfileXml(config), "<keyType>" + w.keyType.value + "</keyType>")
  {
    var w := SecurityToProfile(config);
    SecuredKeyType(config);
    ProfileNodeSharedKey(config.ssid, BoolText(config.hidden), w, config.password);
    LeafInProfile(config, ["MSM", "security", "sharedKey", "keyType"], "keyType", w.keyType.value);
    KeyFieldTags();
    WindowsValuesArePlain(NormalizeSecurity(config.security));
    EscapeXmlCharsPlain(w.keyType.value);
  }
}
