/**
 * The macOS configuration profile of src/wifiqr/services/macos_profile.py:
 * a property list whose `PayloadContent` array holds one Wi-Fi payload
 * dictionary per network. The random UUIDs the source draws are parameters.
 */
module MacosProfile {
  import opened Wrappers
  import opened Text
  import opened Constants
  import opened XmlUtils
  import opened WifiPayload

  datatype MacProfileExport = MacProfileExport(identifier: string, content: string)

  // ---------------------------------------------------------------------
  // Property lists

  /** The property list values the profiles use. */
  datatype Plist =
    | PString(text: string)
    | PInteger(number: nat)
    | PBool(flag: bool)
    | PArray(items: seq<Plist>)
    | PDict(entries: seq<Entry>)

  datatype Entry = Entry(key: string, value: Plist)

  /**
   * The XML form of a property list value, as a list of pieces (tags and
   * entity-escaped text); `RenderPlist` joins them. Keys are written as
   * they are: every key of the profiles is a fixed name without markup.
   */
  function PlistPieces(v: Plist): seq<string>
    decreases v
  {
    match v
    case PString(t) => ["<string>", EscapeXmlChars(t), "</string>"]
    case PInteger(n) => ["<integer>", NatToString(n), "</integer>"]
    case PBool(b) => ["<", if b then "true" else "false", "/>"]
    case PArray(items) => ["<array>"] + ItemPieces(items) + ["</array>"]
    case PDict(entries) => ["<dict>"] + EntryPieces(entries) + ["</dict>"]
  }

  function ItemPieces(items: seq<Plist>): seq<string>
    decreases items
  {
    if items == [] then [] else PlistPieces(items[0]) + ItemPieces(items[1..])
  }

  function EntryPieces(entries: seq<Entry>): seq<string>
    decreases entries
  {
    if entries == [] then []
    else ["<key>", entries[0].key, "</key>"] + PlistPieces(entries[0].value) + EntryPieces(entries[1..])
  }

  function RenderPlist(v: Plist): string {
    Concat(PlistPieces(v))
  }

  /** The value stored under `key`: the first entry with that key. */
  function Lookup(entries: seq<Entry>, key: string): (r: Option<Plist>)
    ensures r.Some? <==> exists i :: 0 <= i < |entries| && entries[i].key == key
  {
    if entries == [] then None
    else if entries[0].key == key then Some(entries[0].value)
    else Lookup(entries[1..], key)
  }

  /** No key is stored twice. */
  predicate DistinctKeys(entries: seq<Entry>) {
    forall i, j :: 0 <= i < j < |entries| ==> entries[i].key != entries[j].key
  }

  /** The whole document around a root value. */
  const XmlPrologue: string := "<?xml version=\"1.0\" encoding=\"UTF-8\"?>"
  const PlistDoctype: string :=
    "<!DOCTYPE plist PUBLIC \"-//Apple//DTD PLIST 1.0//EN\" \"http://www.apple.com/DTDs/PropertyList-1.0.dtd\">"

  function PlistDocument(root: Plist): string {
    XmlPrologue + PlistDoctype + Concat(["<plist version=\"1.0\">"] + PlistPieces(root) + ["</plist>"])
  }

  // ---------------------------------------------------------------------
  // The builders, as the source writes them

  /** `MACOS_SECURITY_MAP.get(normalize_security(...), MACOS_SECURITY_DEFAULT)`. */
  function MacosEncryption(config: WifiConfig): string {
    MacosEncryptionFor(NormalizeSecurity(config.security))
  }

  /**
   * The text of `_build_wifi_payload` with its values filled in (the SSID
   * and the password already escaped), cut at its tags.
   */
  function PayloadPieces(payloadIdentifier: string, wifiUuid: string, ssid: string, hidden: string,
                         encryption: string, passwordPieces: seq<string>): seq<string>
  {
    ["<dict>"]
    + ((["<key>", "PayloadType", "</key>", "<string>", "com.apple.wifi.managed", "</string>"]
        + ["<key>", "PayloadVersion", "</key>", "<integer>", "1", "</integer>"]
        + ["<key>", "PayloadIdentifier", "</key>", "<string>", payloadIdentifier, "</string>"]
        + ["<key>", "PayloadUUID", "</key>", "<string>", wifiUuid, "</string>"])
     + (["<key>", "PayloadDisplayName", "</key>", "<string>", "WiFi " + ssid, "</string>"]
        + ["<key>", "SSID_STR", "</key>", "<string>", ssid, "</string>"]
        + ["<key>", "HIDDEN_NETWORK", "</key>", "<", hidden, "/>"]
        + ["<key>", "EncryptionType", "</key>", "<string>", encryption, "</string>"])
     + passwordPieces)
    + ["</dict>"]
  }

  /**
   * `_build_wifi_payload`: the Wi-Fi payload dictionary of one network. For
   * identifiers that need no escaping (UUIDs and the identifiers built from
   * them) the text is the property list dictionary of the network, which
   * holds its raw SSID and password.
   */
  function BuildWifiPayloadDict(config: WifiConfig, payloadIdentifier: string, wifiUuid: string): (d: string)
    ensures IsPlainXmlText(payloadIdentifier) && IsPlainXmlText(wifiUuid)
        ==> d == RenderPlist(WifiPayloadPlist(config, payloadIdentifier, wifiUuid))
  {
    var ssid := XmlEscape(config.ssid);
    var password := XmlEscape(config.password);
    var hidden := if config.hidden then "true" else "false";
    var encryption := MacosEncryption(config);
    var passwordPieces := if encryption != "None" then ["<key>", "Password", "</key>", "<string>", password, "</string>"] else [];
    var d := Concat(PayloadPieces(payloadIdentifier, wifiUuid, ssid, hidden, encryption, passwordPieces));
    if IsPlainXmlText(payloadIdentifier) && IsPlainXmlText(wifiUuid) then
      MacosEncryptionIsPlain(config);
      PayloadPiecesArePlist(payloadIdentifier, wifiUuid, config.ssid, config.hidden, encryption, config.password);
      d
    else d
  }

  /** The keys of the profile after its payloads, cut at their tags. */
  function ProfileFieldPieces(identifier: string, profileUuid: string): seq<string>
  {
    (["<key>", "PayloadType", "</key>", "<string>", "Configuration", "</string>"]
     + ["<key>", "PayloadVersion", "</key>", "<integer>", "1", "</integer>"]
     + ["<key>", "PayloadIdentifier", "</key>", "<string>", identifier, "</string>"]
     + ["<key>", "PayloadUUID", "</key>", "<string>", profileUuid, "</string>"])
    + (["<key>", "PayloadDisplayName", "</key>", "<string>", "WifiQR Wi-Fi", "</string>"]
       + ["<key>", "PayloadOrganization", "</key>", "<string>", "WifiQR", "</string>"]
       + ["<key>", "PayloadRemovalDisallowed", "</key>", "<", "false", "/>"])
  }

  /**
   * The profile document around the joined payloads, cut at its tags; both
   * builders write the same text.
   */
  function ProfileDocument(payloads: string, identifier: string, profileUuid: string): string
  {
    XmlPrologue + PlistDoctype
    + Concat(["<plist version=\"1.0\">", "<dict>", "<key>", "PayloadContent", "</key>", "<array>", payloads, "</array>"]
             + ProfileFieldPieces(identifier, profileUuid)
             + ["</dict>", "</plist>"])
  }

  const IdentifierPrefix: string := "com.wifiqr.profile."

  /** `f"com.wifiqr.profile.{profile_uuid}"`. */
  function ProfileIdentifier(profileUuid: string): string {
    IdentifierPrefix + profileUuid
  }

  /**
   * `build_macos_mobileconfig`, with the two UUIDs it draws given: the
   * profile is named after its UUID, and (for UUIDs that need no escaping)
   * its text is the property list of a profile holding one Wi-Fi payload,
   * named after the profile.
   */
  function BuildMacosMobileconfig(config: WifiConfig, profileUuid: string, wifiUuid: string): (e: MacProfileExport)
    ensures e.identifier == IdentifierPrefix + profileUuid
    ensures IsPlainXmlText(profileUuid) && IsPlainXmlText(wifiUuid)
        ==> e.content == PlistDocument(SingleProfilePlist(config, profileUuid, wifiUuid))
  {
    var identifier := ProfileIdentifier(profileUuid);
    var payload := BuildWifiPayloadDict(config, identifier + ".wifi", wifiUuid);
    var e := MacProfileExport(identifier, ProfileDocument(payload, identifier, profileUuid));
    if IsPlainXmlText(profileUuid) && IsPlainXmlText(wifiUuid) then
      SingleProfileIsPlist(config, profileUuid, wifiUuid);
      e
    else e
  }

  /** The identifier of the `i`-th payload of a multi-network profile. */
  function MultiPayloadIdentifier(identifier: string, wifiUuid: string): string {
    identifier + ".wifi." + wifiUuid
  }

  /** The payload of each network, in order, as `build` writes it. */
  function BuiltPayloads(configs: seq<WifiConfig>, identifier: string, wifiUuids: seq<string>,
                         build: (WifiConfig, string, string) -> string): (ps: seq<string>)
    requires |wifiUuids| == |configs|
    ensures |ps| == |configs|
  {
    seq(|configs|, i requires 0 <= i < |configs| =>
      build(configs[i], MultiPayloadIdentifier(identifier, wifiUuids[i]), wifiUuids[i]))
  }

  /** The Wi-Fi payload dictionaries of a multi-network profile, in order. */
  function MultiPayloads(configs: seq<WifiConfig>, identifier: string, wifiUuids: seq<string>): (ps: seq<string>)
    requires |wifiUuids| == |configs|
    ensures |ps| == |configs|
  {
    BuiltPayloads(configs, identifier, wifiUuids, BuildWifiPayloadDict)
  }

  /**
   * What `build_macos_mobileconfig_multi` returns for a non-empty list: the
   * profile is named after its UUID, and (for UUIDs that need no escaping)
   * its text is the property list of a profile holding one Wi-Fi payload
   * per network, in order.
   */
  function MultiMobileconfig(configs: seq<WifiConfig>, profileUuid: string, wifiUuids: seq<string>): (e: MacProfileExport)
    requires |wifiUuids| == |configs|
    ensures e.identifier == IdentifierPrefix + profileUuid
    ensures IsPlainXmlText(profileUuid) && (forall i :: 0 <= i < |wifiUuids| ==> IsPlainXmlText(wifiUuids[i]))
        ==> e.content == PlistDocument(MultiProfilePlist(configs, profileUuid, wifiUuids))
  {
    var identifier := ProfileIdentifier(profileUuid);
    var e := MacProfileExport(identifier, ProfileDocument(Concat(MultiPayloads(configs, identifier, wifiUuids)), identifier, profileUuid));
    if IsPlainXmlText(profileUuid) && (forall i :: 0 <= i < |wifiUuids| ==> IsPlainXmlText(wifiUuids[i])) then
      MultiProfileIsPlist(configs, profileUuid, wifiUuids);
      e
    else e
  }

  /**
   * The loop of `build_macos_mobileconfig_multi`, with the payload builder
   * passed in and the profile UUID and one Wi-Fi UUID per network given:
   * fails on an empty list (the source raises `ValueError`), otherwise
   * collects one payload per network, in order, each under its own UUID.
   */
  method BuildMultiProfile(configs: seq<WifiConfig>, profileUuid: string, wifiUuids: seq<string>,
                           build: (WifiConfig, string, string) -> string)
    returns (r: Result<MacProfileExport, string>)
    requires |wifiUuids| == |configs|
    ensures configs == [] <==> r.Failure?
    ensures r.Failure? ==> r.error == "No networks provided"
    ensures r.Success? ==> r.value == MacProfileExport(ProfileIdentifier(profileUuid),
      ProfileDocument(Concat(BuiltPayloads(configs, ProfileIdentifier(profileUuid), wifiUuids, build)),
                      ProfileIdentifier(profileUuid), profileUuid))
  {
    if configs == [] {
      return Failure("No networks provided");
    }
    var identifier := ProfileIdentifier(profileUuid);
    ghost var all := BuiltPayloads(configs, identifier, wifiUuids, build);
    var payloads: seq<string> := [];
    var i := 0;
    while i < |configs|
      invariant 0 <= i <= |configs|
      invariant payloads == all[..i]
    {
      var wifiUuid := wifiUuids[i];
      var payload := build(configs[i], MultiPayloadIdentifier(identifier, wifiUuid), wifiUuid);
      assert all[..i + 1] == all[..i] + [payload];
      payloads := payloads + [payload];
      i := i + 1;
    }
    assert payloads == all;
    return Success(MacProfileExport(identifier, ProfileDocument(Concat(payloads), identifier, profileUuid)));
  }

  /** `build_macos_mobileconfig_multi`. */
  method BuildMacosMobileconfigMulti(configs: seq<WifiConfig>, profileUuid: string, wifiUuids: seq<string>)
    returns (r: Result<MacProfileExport, string>)
    requires |wifiUuids| == |configs|
    ensures configs == [] <==> r.Failure?
    ensures r.Failure? ==> r.error == "No networks provided"
    ensures r.Success? ==> r.value == MultiMobileconfig(configs, profileUuid, wifiUuids)
  {
    r := BuildMultiProfile(configs, profileUuid, wifiUuids, BuildWifiPayloadDict);
  }

  // ---------------------------------------------------------------------
  // The profiles as property lists

  /** The password entry, present unless the network is open. */
  function PasswordEntries(encryption: string, password: string): seq<Entry>
  {
    if encryption != "None" then [Entry("Password", PString(password))] else []
  }

  /** The entries naming the payload. */
  function PayloadHeadEntries(payloadType: string, identifier: string, uuid: string): seq<Entry>
  {
    [Entry("PayloadType", PString(payloadType)),
     Entry("PayloadVersion", PInteger(1)),
     Entry("PayloadIdentifier", PString(identifier)),
     Entry("PayloadUUID", PString(uuid))]
  }

  /** The entries describing the network. */
  function NetworkEntries(ssid: string, hidden: bool, encryption: string): seq<Entry>
  {
    [Entry("PayloadDisplayName", PString("WiFi " + ssid)),
     Entry("SSID_STR", PString(ssid)),
     Entry("HIDDEN_NETWORK", PBool(hidden)),
     Entry("EncryptionType", PString(encryption))]
  }

  /** The entries of the Wi-Fi payload dictionary, holding the raw SSID and password. */
  function WifiPayloadEntries(config: WifiConfig, payloadIdentifier: string, wifiUuid: string): seq<Entry>
  {
    PayloadHeadEntries("com.apple.wifi.managed", payloadIdentifier, wifiUuid)
    + NetworkEntries(config.ssid, config.hidden, MacosEncryption(config))
    + PasswordEntries(MacosEncryption(config), config.password)
  }

  function WifiPayloadPlist(config: WifiConfig, payloadIdentifier: string, wifiUuid: string): Plist {
    PDict(WifiPayloadEntries(config, payloadIdentifier, wifiUuid))
  }

  function ProfileTailEntries(): seq<Entry>
  {
    [Entry("PayloadDisplayName", PString("WifiQR Wi-Fi")),
     Entry("PayloadOrganization", PString("WifiQR")),
     Entry("PayloadRemovalDisallowed", PBool(false))]
  }

  /** The entries of the profile dictionary. */
  function ProfileEntries(payloads: seq<Plist>, identifier: string, profileUuid: string): seq<Entry>
  {
    [Entry("PayloadContent", PArray(payloads))]
    + PayloadHeadEntries("Configuration", identifier, profileUuid)
    + ProfileTailEntries()
  }

  // ---------------------------------------------------------------------
  // The templates are the property lists, written out

  lemma {:induction false} EntryPiecesAppend(a: seq<Entry>, b: seq<Entry>)
    ensures EntryPieces(a + b) == EntryPieces(a) + EntryPieces(b)
  {
    if a == [] {
      assert a + b == b;
    } else {
      assert (a + b)[1..] == a[1..] + b;
      EntryPiecesAppend(a[1..], b);
    }
  }

  /** One entry: its key, then its value. */
  lemma EntryPiecesOne(e: Entry)
    ensures EntryPieces([e]) == ["<key>", e.key, "</key>"] + PlistPieces(e.value)
  {
    assert [e][1..] == [];
  }

  /** A key and its string value. */
  lemma StringEntryPieces(key: string, value: string)
    ensures EntryPieces([Entry(key, PString(value))]) == ["<key>", key, "</key>", "<string>", EscapeXmlChars(value), "</string>"]
  {
    EntryPiecesOne(Entry(key, PString(value)));
  }

  lemma EntryPiecesFour(a: Entry, b: Entry, c: Entry, d: Entry)
    ensures EntryPieces([a, b, c, d]) == EntryPieces([a]) + EntryPieces([b]) + EntryPieces([c]) + EntryPieces([d])
  {
    assert [a, b, c, d] == [a] + [b] + [c] + [d];
    EntryPiecesAppend([a], [b]);
    EntryPiecesAppend([a] + [b], [c]);
    EntryPiecesAppend([a] + [b] + [c], [d]);
  }

  lemma VersionEntryPieces()
    ensures EntryPieces([Entry("PayloadVersion", PInteger(1))]) == ["<key>", "PayloadVersion", "</key>", "<integer>", "1", "</integer>"]
  {
    EntryPiecesOne(Entry("PayloadVersion", PInteger(1)));
    OneText();
  }

  lemma OneText()
    ensures NatToString(1) == "1"
  {
  }

  /** The head entries, written out. */
  lemma PayloadHeadPieces(payloadType: string, identifier: string, uuid: string)
    requires IsPlainXmlText(payloadType) && IsPlainXmlText(identifier) && IsPlainXmlText(uuid)
    ensures EntryPieces(PayloadHeadEntries(payloadType, identifier, uuid))
         == ["<key>", "PayloadType", "</key>", "<string>", payloadType, "</string>"]
          + ["<key>", "PayloadVersion", "</key>", "<integer>", "1", "</integer>"]
          + ["<key>", "PayloadIdentifier", "</key>", "<string>", identifier, "</string>"]
          + ["<key>", "PayloadUUID", "</key>", "<string>", uuid, "</string>"]
  {
    EntryPiecesFour(Entry("PayloadType", PString(payloadType)), Entry("PayloadVersion", PInteger(1)),
      Entry("PayloadIdentifier", PString(identifier)), Entry("PayloadUUID", PString(uuid)));
    StringEntryPieces("PayloadType", payloadType);
    EscapeXmlCharsPlain(payloadType);
    VersionEntryPieces();
    StringEntryPieces("PayloadIdentifier", identifier);
    EscapeXmlCharsPlain(identifier);
    StringEntryPieces("PayloadUUID", uuid);
    EscapeXmlCharsPlain(uuid);
  }

  lemma EscapeAfterPlain(p: string, s: string)
    requires IsPlainXmlText(p)
    ensures EscapeXmlChars(p + s) == p + XmlEscape(s)
  {
    XmlEscapeAppend(p, s);
    XmlEscapePlainUnchanged(p);
  }

  lemma BoolEntryPieces(key: string, b: bool)
    ensures EntryPieces([Entry(key, PBool(b))]) == ["<key>", key, "</key>", "<", if b then "true" else "false", "/>"]
  {
    EntryPiecesOne(Entry(key, PBool(b)));
  }

  /** The network entries, written out with the SSID escaped. */
  lemma NetworkPieces(ssid: string, hidden: bool, encryption: string)
    requires IsPlainXmlText(encryption)
    ensures EntryPieces(NetworkEntries(ssid, hidden, encryption))
         == ["<key>", "PayloadDisplayName", "</key>", "<string>", "WiFi " + XmlEscape(ssid), "</string>"]
          + ["<key>", "SSID_STR", "</key>", "<string>", XmlEscape(ssid), "</string>"]
          + ["<key>", "HIDDEN_NETWORK", "</key>", "<", if hidden then "true" else "false", "/>"]
          + ["<key>", "EncryptionType", "</key>", "<string>", encryption, "</string>"]
  {
    assert IsPlainXmlText("WiFi ");
    EntryPiecesFour(Entry("PayloadDisplayName", PString("WiFi " + ssid)), Entry("SSID_STR", PString(ssid)),
      Entry("HIDDEN_NETWORK", PBool(hidden)), Entry("EncryptionType", PString(encryption)));
    StringEntryPieces("PayloadDisplayName", "WiFi " + ssid);
    EscapeAfterPlain("WiFi ", ssid);
    StringEntryPieces("SSID_STR", ssid);
    BoolEntryPieces("HIDDEN_NETWORK", hidden);
    StringEntryPieces("EncryptionType", encryption);
    EscapeXmlCharsPlain(encryption);
  }

  /** The password entry, written out with the password escaped. */
  lemma PasswordPieces(encryption: string, password: string)
    ensures EntryPieces(PasswordEntries(encryption, password))
         == if encryption != "None" then ["<key>", "Password", "</key>", "<string>", XmlEscape(password), "</string>"] else []
  {
    if encryption != "None" {
      StringEntryPieces("Password", password);
    }
  }

  /** Every encryption type the table gives is plain text. */
  lemma MacosEncryptionIsPlain(config: WifiConfig)
    ensures MacosEncryption(config) in {"None", "WEP", "WPA"}
    ensures IsPlainXmlText(MacosEncryption(config))
  {
    assert IsPlainXmlText("None") && IsPlainXmlText("WEP") && IsPlainXmlText("WPA");
  }

  /** The payload template, filled with a network's values, is the dictionary's pieces. */
  lemma PayloadPiecesArePlist(payloadIdentifier: string, wifiUuid: string, ssid: string, hidden: bool,
                              encryption: string, password: string)
    requires IsPlainXmlText(payloadIdentifier) && IsPlainXmlText(wifiUuid) && IsPlainXmlText(encryption)
    ensures PlistPieces(PDict(PayloadHeadEntries("com.apple.wifi.managed", payloadIdentifier, wifiUuid)
                              + NetworkEntries(ssid, hidden, encryption) + PasswordEntries(encryption, password)))
         == PayloadPieces(payloadIdentifier, wifiUuid, XmlEscape(ssid), if hidden then "true" else "false", encryption,
              if encryption != "None" then ["<key>", "Password", "</key>", "<string>", XmlEscape(password), "</string>"] else [])
  {
    var head := PayloadHeadEntries("com.apple.wifi.managed", payloadIdentifier, wifiUuid);
    var network := NetworkEntries(ssid, hidden, encryption);
    assert IsPlainXmlText("com.apple.wifi.managed");
    PayloadHeadPieces("com.apple.wifi.managed", payloadIdentifier, wifiUuid);
    NetworkPieces(ssid, hidden, encryption);
    PasswordPieces(encryption, password);
    EntryPiecesAppend(head, network);
    EntryPiecesAppend(head + network, PasswordEntries(encryption, password));
  }

  lemma BrandingIsPlain()
    ensures IsPlainXmlText("WifiQR Wi-Fi") && IsPlainXmlText("WifiQR") && IsPlainXmlText("Configuration")
  {
  }

  lemma TailPieces(displayName: string, organization: string)
    requires IsPlainXmlText(displayName) && IsPlainXmlText(organization)
    ensures EntryPieces([Entry("PayloadDisplayName", PString(displayName)), Entry("PayloadOrganization", PString(organization)),
                         Entry("PayloadRemovalDisallowed", PBool(false))])
         == ["<key>", "PayloadDisplayName", "</key>", "<string>", displayName, "</string>"]
          + ["<key>", "PayloadOrganization", "</key>", "<string>", organization, "</string>"]
          + ["<key>", "PayloadRemovalDisallowed", "</key>", "<", "false", "/>"]
  {
    var a, b, c := Entry("PayloadDisplayName", PString(displayName)), Entry("PayloadOrganization", PString(organization)),
      Entry("PayloadRemovalDisallowed", PBool(false));
    assert [a, b, c] == [a] + [b] + [c];
    EntryPiecesAppend([a], [b]);
    EntryPiecesAppend([a] + [b], [c]);
    StringEntryPieces("PayloadDisplayName", displayName);
    StringEntryPieces("PayloadOrganization", organization);
    EscapeXmlCharsPlain(displayName);
    EscapeXmlCharsPlain(organization);
    BoolEntryPieces("PayloadRemovalDisallowed", false);
  }

  /** The fields after the payloads are those of the profile's fixed entries. */
  lemma FieldPieces(identifier: string, profileUuid: string)
    requires IsPlainXmlText(identifier) && IsPlainXmlText(profileUuid)
    ensures ProfileFieldPieces(identifier, profileUuid)
         == EntryPieces(PayloadHeadEntries("Configuration", identifier, profileUuid) + ProfileTailEntries())
  {
    BrandingIsPlain();
    PayloadHeadPieces("Configuration", identifier, profileUuid);
    TailPieces("WifiQR Wi-Fi", "WifiQR");
    EntryPiecesAppend(PayloadHeadEntries("Configuration", identifier, profileUuid), ProfileTailEntries());
  }

  /** A dictionary that opens with an array of payloads: the payloads' pieces inside the others. */
  lemma ContentDictPieces(payloads: seq<Plist>, rest: seq<Entry>)
    ensures PlistPieces(PDict([Entry("PayloadContent", PArray(payloads))] + rest))
         == ["<dict>", "<key>", "PayloadContent", "</key>", "<array>"] + ItemPieces(payloads)
            + (["</array>"] + EntryPieces(rest) + ["</dict>"])
  {
    var content := Entry("PayloadContent", PArray(payloads));
    EntryPiecesOne(content);
    EntryPiecesAppend([content], rest);
  }

  lemma ConcatSplice(a: seq<string>, b: seq<string>, c: seq<string>)
    ensures Concat(a + [Concat(b)] + c) == Concat(a + b + c)
  {
    ConcatAppend(a + [Concat(b)], c);
    ConcatAppend(a, [Concat(b)]);
    assert [Concat(b)][1..] == [];
    ConcatAppend(a + b, c);
    ConcatAppend(a, b);
  }

  lemma DocumentSplice(items: seq<string>, fields: seq<string>)
    ensures Concat(["<plist version=\"1.0\">", "<dict>", "<key>", "PayloadContent", "</key>", "<array>", Concat(items), "</array>"]
                   + fields + ["</dict>", "</plist>"])
         == Concat(["<plist version=\"1.0\">"]
                   + (["<dict>", "<key>", "PayloadContent", "</key>", "<array>"] + items + (["</array>"] + fields + ["</dict>"]))
                   + ["</plist>"])
  {
    var a := ["<plist version=\"1.0\">", "<dict>", "<key>", "PayloadContent", "</key>", "<array>"];
    var c := ["</array>"] + fields + ["</dict>", "</plist>"];
    ConcatSplice(a, items, c);
    assert ["<plist version=\"1.0\">", "<dict>", "<key>", "PayloadContent", "</key>", "<array>", Concat(items), "</array>"]
           + fields + ["</dict>", "</plist>"]
        == a + [Concat(items)] + c;
    assert ["<plist version=\"1.0\">"]
           + (["<dict>", "<key>", "PayloadContent", "</key>", "<array>"] + items + (["</array>"] + fields + ["</dict>"]))
           + ["</plist>"]
        == a + items + c;
  }

  /** The profile document is the property list document of the profile dictionary. */
  lemma DocumentIsPlist(payloads: seq<Plist>, identifier: string, profileUuid: string)
    requires IsPlainXmlText(identifier) && IsPlainXmlText(profileUuid)
    ensures ProfileDocument(Concat(ItemPieces(payloads)), identifier, profileUuid)
         == PlistDocument(PDict(ProfileEntries(payloads, identifier, profileUuid)))
  {
    var rest := PayloadHeadEntries("Configuration", identifier, profileUuid) + ProfileTailEntries();
    assert ProfileEntries(payloads, identifier, profileUuid) == [Entry("PayloadContent", PArray(payloads))] + rest;
    ContentDictPieces(payloads, rest);
    FieldPieces(identifier, profileUuid);
    DocumentSplice(ItemPieces(payloads), ProfileFieldPieces(identifier, profileUuid));
  }

  /** Payload texts that each render their tree join to the rendering of the trees' array body. */
  lemma {:induction false} ItemsText(texts: seq<string>, items: seq<Plist>)
    requires |texts| == |items|
    requires forall i :: 0 <= i < |items| ==> texts[i] == RenderPlist(items[i])
    ensures Concat(texts) == Concat(ItemPieces(items))
    decreases |items|
  {
    if items != [] {
      ItemsText(texts[1..], items[1..]);
      ConcatAppend(PlistPieces(items[0]), ItemPieces(items[1..]));
    }
  }

  /** The identifiers the profile builders derive from plain UUIDs are plain. */
  lemma IdentifiersArePlain(profileUuid: string, wifiUuid: string)
    requires IsPlainXmlText(profileUuid) && IsPlainXmlText(wifiUuid)
    ensures IsPlainXmlText(ProfileIdentifier(profileUuid))
    ensures IsPlainXmlText(ProfileIdentifier(profileUuid) + ".wifi")
    ensures IsPlainXmlText(MultiPayloadIdentifier(ProfileIdentifier(profileUuid), wifiUuid))
  {
    assert IsPlainXmlText(IdentifierPrefix) && IsPlainXmlText(".wifi") && IsPlainXmlText(".wifi.");
    PlainAppend(IdentifierPrefix, profileUuid);
    PlainAppend(ProfileIdentifier(profileUuid), ".wifi");
    PlainAppend(ProfileIdentifier(profileUuid), ".wifi.");
    PlainAppend(ProfileIdentifier(profileUuid) + ".wifi.", wifiUuid);
  }

  /** The tree of the single-network profile. */
  function SingleProfilePlist(config: WifiConfig, profileUuid: string, wifiUuid: string): Plist {
    var identifier := ProfileIdentifier(profileUuid);
    PDict(ProfileEntries([WifiPayloadPlist(config, identifier + ".wifi", wifiUuid)], identifier, profileUuid))
  }

  /** The profile document around one payload's text is the plist of the single-network profile. */
  lemma SingleProfileIsPlist(config: WifiConfig, profileUuid: string, wifiUuid: string)
    requires IsPlainXmlText(profileUuid) && IsPlainXmlText(wifiUuid)
    ensures var identifier := ProfileIdentifier(profileUuid);
      ProfileDocument(BuildWifiPayloadDict(config, identifier + ".wifi", wifiUuid), identifier, profileUuid)
        == PlistDocument(SingleProfilePlist(config, profileUuid, wifiUuid))
  {
    var identifier := ProfileIdentifier(profileUuid);
    var payload := WifiPayloadPlist(config, identifier + ".wifi", wifiUuid);
    IdentifiersArePlain(profileUuid, wifiUuid);
    ItemsText([BuildWifiPayloadDict(config, identifier + ".wifi", wifiUuid)], [payload]);
    assert Concat([BuildWifiPayloadDict(config, identifier + ".wifi", wifiUuid)]) == BuildWifiPayloadDict(config, identifier + ".wifi", wifiUuid);
    DocumentIsPlist([payload], identifier, profileUuid);
  }

  /** The Wi-Fi payload trees of a multi-network profile, in order. */
  function MultiPayloadPlists(configs: seq<WifiConfig>, identifier: string, wifiUuids: seq<string>): (ps: seq<Plist>)
    requires |wifiUuids| == |configs|
    ensures |ps| == |configs|
  {
    seq(|configs|, i requires 0 <= i < |configs| =>
      WifiPayloadPlist(configs[i], MultiPayloadIdentifier(identifier, wifiUuids[i]), wifiUuids[i]))
  }

  /** The tree of the multi-network profile. */
  function MultiProfilePlist(configs: seq<WifiConfig>, profileUuid: string, wifiUuids: seq<string>): Plist
    requires |wifiUuids| == |configs|
  {
    var identifier := ProfileIdentifier(profileUuid);
    PDict(ProfileEntries(MultiPayloadPlists(configs, identifier, wifiUuids), identifier, profileUuid))
  }

  /** The profile document around the payloads' texts is the plist of the multi-network profile. */
  lemma MultiProfileIsPlist(configs: seq<WifiConfig>, profileUuid: string, wifiUuids: seq<string>)
    requires |wifiUuids| == |configs|
    requires IsPlainXmlText(profileUuid)
    requires forall i :: 0 <= i < |wifiUuids| ==> IsPlainXmlText(wifiUuids[i])
    ensures var identifier := ProfileIdentifier(profileUuid);
      ProfileDocument(Concat(MultiPayloads(configs, identifier, wifiUuids)), identifier, profileUuid)
        == PlistDocument(MultiProfilePlist(configs, profileUuid, wifiUuids))
  {
    var identifier := ProfileIdentifier(profileUuid);
    var texts := MultiPayloads(configs, identifier, wifiUuids);
    var items := MultiPayloadPlists(configs, identifier, wifiUuids);
    forall i | 0 <= i < |items|
      ensures texts[i] == RenderPlist(items[i])
    {
      IdentifiersArePlain(profileUuid, wifiUuids[i]);
      var payloadIdentifier := MultiPayloadIdentifier(identifier, wifiUuids[i]);
      assert texts[i] == BuildWifiPayloadDict(configs[i], payloadIdentifier, wifiUuids[i]);
    }
    ItemsText(texts, items);
    IdentifiersArePlain(profileUuid, profileUuid);
    DocumentIsPlist(items, identifier, profileUuid);
  }

  /** The value found under a key is the first entry's; with distinct keys, each entry's own. */
  lemma {:induction false} LookupAt(entries: seq<Entry>, i: nat)
    requires DistinctKeys(entries) && i < |entries|
    ensures Lookup(entries, entries[i].key) == Some(entries[i].value)
    decreases i
  {
    if i > 0 {
      assert entries[0].key != entries[i].key;
      assert entries[1..][i - 1] == entries[i];
      LookupAt(entries[1..], i - 1);
    }
  }

  /** A lookup in two runs of entries tries the first run, then the second. */
  lemma {:induction false} LookupAppend(a: seq<Entry>, b: seq<Entry>, key: string)
    ensures Lookup(a + b, key) == if Lookup(a, key).Some? then Lookup(a, key) else Lookup(b, key)
    decreases |a|
  {
    if a != [] {
      assert (a + b)[1..] == a[1..] + b;
      LookupAppend(a[1..], b, key);
    } else {
      assert a + b == b;
    }
  }

  /** No key of `a` is a key of `b`. */
  predicate KeysApart(a: seq<Entry>, b: seq<Entry>) {
    forall i, j :: 0 <= i < |a| && 0 <= j < |b| ==> a[i].key != b[j].key
  }

  lemma DistinctAppend(a: seq<Entry>, b: seq<Entry>)
    requires DistinctKeys(a) && DistinctKeys(b) && KeysApart(a, b)
    ensures DistinctKeys(a + b)
  {
    forall i, j | 0 <= i < j < |a + b|
      ensures (a + b)[i].key != (a + b)[j].key
    {
      if j < |a| {
      } else if i < |a| {
        assert (a + b)[j] == b[j - |a|];
      } else {
        assert (a + b)[i] == b[i - |a|] && (a + b)[j] == b[j - |a|];
      }
    }
  }

  lemma HeadKeysDistinct(payloadType: string, identifier: string, uuid: string)
    ensures DistinctKeys(PayloadHeadEntries(payloadType, identifier, uuid))
  {
    assert "PayloadType"[7] != "PayloadUUID"[7];
  }

  lemma NetworkKeysDistinct(ssid: string, hidden: bool, encryption: string)
    ensures DistinctKeys(NetworkEntries(ssid, hidden, encryption))
  {
    assert "HIDDEN_NETWORK"[0] != "EncryptionType"[0];
  }

  lemma HeadNetworkApart(payloadType: string, identifier: string, uuid: string, ssid: string, hidden: bool, encryption: string)
    ensures KeysApart(PayloadHeadEntries(payloadType, identifier, uuid), NetworkEntries(ssid, hidden, encryption))
  {
    assert "PayloadVersion"[0] != "HIDDEN_NETWORK"[0] && "PayloadVersion"[0] != "EncryptionType"[0];
  }

  /** The only "Password" entry of a Wi-Fi payload is the one the password entries add. */
  lemma PasswordApart(payloadType: string, identifier: string, uuid: string, ssid: string, hidden: bool, encryption: string,
                      password: string)
    ensures KeysApart(PayloadHeadEntries(payloadType, identifier, uuid) + NetworkEntries(ssid, hidden, encryption),
                      [Entry("Password", PString(password))])
  {
    assert "SSID_STR"[0] != "Password"[0];
  }

  /** The keys of the Wi-Fi payload are distinct. */
  lemma WifiPayloadKeysDistinct(config: WifiConfig, payloadIdentifier: string, wifiUuid: string)
    ensures DistinctKeys(WifiPayloadEntries(config, payloadIdentifier, wifiUuid))
  {
    var encryption := MacosEncryption(config);
    var head := PayloadHeadEntries("com.apple.wifi.managed", payloadIdentifier, wifiUuid);
    var network := NetworkEntries(config.ssid, config.hidden, encryption);
    HeadKeysDistinct("com.apple.wifi.managed", payloadIdentifier, wifiUuid);
    NetworkKeysDistinct(config.ssid, config.hidden, encryption);
    HeadNetworkApart("com.apple.wifi.managed", payloadIdentifier, wifiUuid, config.ssid, config.hidden, encryption);
    DistinctAppend(head, network);
    PasswordApart("com.apple.wifi.managed", payloadIdentifier, wifiUuid, config.ssid, config.hidden, encryption, config.password);
    DistinctAppend(head + network, PasswordEntries(encryption, config.password));
  }

  /**
   * The Wi-Fi payload names its type, version, identifier and UUID, is
   * displayed as "WiFi " and the SSID, and carries the raw SSID, the hidden
   * flag and the macOS encryption type.
   */
  lemma WifiPayloadLookups(config: WifiConfig, payloadIdentifier: string, wifiUuid: string)
    ensures Lookup(WifiPayloadEntries(config, payloadIdentifier, wifiUuid), "PayloadType") == Some(PString("com.apple.wifi.managed"))
    ensures Lookup(WifiPayloadEntries(config, payloadIdentifier, wifiUuid), "PayloadVersion") == Some(PInteger(1))
    ensures Lookup(WifiPayloadEntries(config, payloadIdentifier, wifiUuid), "PayloadIdentifier") == Some(PString(payloadIdentifier))
    ensures Lookup(WifiPayloadEntries(config, payloadIdentifier, wifiUuid), "PayloadUUID") == Some(PString(wifiUuid))
    ensures Lookup(WifiPayloadEntries(config, payloadIdentifier, wifiUuid), "PayloadDisplayName") == Some(PString("WiFi " + config.ssid))
    ensures Lookup(WifiPayloadEntries(config, payloadIdentifier, wifiUuid), "SSID_STR") == Some(PString(config.ssid))
    ensures Lookup(WifiPayloadEntries(config, payloadIdentifier, wifiUuid), "HIDDEN_NETWORK") == Some(PBool(config.hidden))
    ensures Lookup(WifiPayloadEntries(config, payloadIdentifier, wifiUuid), "EncryptionType") == Some(PString(MacosEncryption(config)))
  {
    var e := WifiPayloadEntries(config, payloadIdentifier, wifiUuid);
    WifiPayloadKeysDistinct(config, payloadIdentifier, wifiUuid);
    LookupAt(e, 0);
    LookupAt(e, 1);
    LookupAt(e, 2);
    LookupAt(e, 3);
    LookupAt(e, 4);
    LookupAt(e, 5);
    LookupAt(e, 6);
    LookupAt(e, 7);
  }

  /**
   * The payload carries the raw password exactly when the network is not
   * open; an open network's payload has no "Password" key.
   */
  lemma WifiPayloadPassword(config: WifiConfig, payloadIdentifier: string, wifiUuid: string)
    ensures Lookup(WifiPayloadEntries(config, payloadIdentifier, wifiUuid), "Password")
         == if IsOpenSecurity(config.security) then None else Some(PString(config.password))
  {
    var encryption := MacosEncryption(config);
    var head := PayloadHeadEntries("com.apple.wifi.managed", payloadIdentifier, wifiUuid);
    var network := NetworkEntries(config.ssid, config.hidden, encryption);
    var password := [Entry("Password", PString(config.password))];
    PasswordApart("com.apple.wifi.managed", payloadIdentifier, wifiUuid, config.ssid, config.hidden, encryption, config.password);
    assert Lookup(head + network, "Password").None? by {
      assert password[0].key == "Password";
    }
    LookupAppend(head + network, PasswordEntries(encryption, config.password), "Password");
  }

  /** The keys of the profile dictionary are distinct. */
  lemma ProfileKeysDistinct(payloads: seq<Plist>, identifier: string, profileUuid: string)
    ensures DistinctKeys(ProfileEntries(payloads, identifier, profileUuid))
  {
    var content := [Entry("PayloadContent", PArray(payloads))];
    var head := PayloadHeadEntries("Configuration", identifier, profileUuid);
    HeadKeysDistinct("Configuration", identifier, profileUuid);
    assert KeysApart(content, head) by {
      assert "PayloadContent"[7] != "PayloadVersion"[7];
    }
    DistinctAppend(content, head);
    assert KeysApart(content + head, ProfileTailEntries());
    DistinctAppend(content + head, ProfileTailEntries());
  }

  /**
   * The profile holds its payloads under "PayloadContent", is a
   * "Configuration" under its own identifier and UUID, carries the WifiQR
   * names and can be removed.
   */
  lemma ProfileLookups(payloads: seq<Plist>, identifier: string, profileUuid: string)
    ensures Lookup(ProfileEntries(payloads, identifier, profileUuid), "PayloadContent") == Some(PArray(payloads))
    ensures Lookup(ProfileEntries(payloads, identifier, profileUuid), "PayloadType") == Some(PString("Configuration"))
    ensures Lookup(ProfileEntries(payloads, identifier, profileUuid), "PayloadIdentifier") == Some(PString(identifier))
    ensures Lookup(ProfileEntries(payloads, identifier, profileUuid), "PayloadUUID") == Some(PString(profileUuid))
    ensures Lookup(ProfileEntries(payloads, identifier, profileUuid), "PayloadDisplayName") == Some(PString("WifiQR Wi-Fi"))
    ensures Lookup(ProfileEntries(payloads, identifier, profileUuid), "PayloadOrganization") == Some(PString("WifiQR"))
    ensures Lookup(ProfileEntries(payloads, identifier, profileUuid), "PayloadRemovalDisallowed") == Some(PBool(false))
  {
    var e := ProfileEntries(payloads, identifier, profileUuid);
    ProfileKeysDistinct(payloads, identifier, profileUuid);
    LookupAt(e, 0);
    LookupAt(e, 1);
    LookupAt(e, 3);
    LookupAt(e, 4);
    LookupAt(e, 5);
    LookupAt(e, 6);
    LookupAt(e, 7);
  }

  /** Different Wi-Fi UUIDs give different payload identifiers. */
  lemma MultiPayloadIdentifierInjective(identifier: string, u: string, v: string)
    requires MultiPayloadIdentifier(identifier, u) == MultiPayloadIdentifier(identifier, v)
    ensures u == v
  {
    var p := identifier + ".wifi.";
    assert u == (p + u)[|p|..];
    assert v == (p + v)[|p|..];
  }

  /**
   * A multi-network profile holds one payload per network, in order: the
   * `i`-th carries the `i`-th SSID under its own Wi-Fi UUID, and payload
   * identifiers differ whenever the Wi-Fi UUIDs do.
   */
  lemma MultiProfilePayloads(configs: seq<WifiConfig>, profileUuid: string, wifiUuids: seq<string>, i: nat, j: nat)
    requires |wifiUuids| == |configs| && i < |configs| && j < |configs|
    ensures Lookup(MultiProfilePlist(configs, profileUuid, wifiUuids).entries, "PayloadContent")
         == Some(PArray(MultiPayloadPlists(configs, ProfileIdentifier(profileUuid), wifiUuids)))
    ensures Lookup(MultiPayloadPlists(configs, ProfileIdentifier(profileUuid), wifiUuids)[i].entries, "SSID_STR")
         == Some(PString(configs[i].ssid))
    ensures Lookup(MultiPayloadPlists(configs, ProfileIdentifier(profileUuid), wifiUuids)[i].entries, "PayloadUUID")
         == Some(PString(wifiUuids[i]))
    ensures wifiUuids[i] != wifiUuids[j] ==>
              (Lookup(MultiPayloadPlists(configs, ProfileIdentifier(profileUuid), wifiUuids)[i].entries, "PayloadIdentifier")
               != Lookup(MultiPayloadPlists(configs, ProfileIdentifier(profileUuid), wifiUuids)[j].entries, "PayloadIdentifier"))
  {
    var identifier := ProfileIdentifier(profileUuid);
    var payloads := MultiPayloadPlists(configs, identifier, wifiUuids);
    ProfileLookups(payloads, identifier, profileUuid);
    WifiPayloadLookups(configs[i], MultiPayloadIdentifier(identifier, wifiUuids[i]), wifiUuids[i]);
    WifiPayloadLookups(configs[j], MultiPayloadIdentifier(identifier, wifiUuids[j]), wifiUuids[j]);
    if wifiUuids[i] != wifiUuids[j] && MultiPayloadIdentifier(identifier, wifiUuids[i]) == MultiPayloadIdentifier(identifier, wifiUuids[j]) {
      MultiPayloadIdentifierInjective(identifier, wifiUuids[i], wifiUuids[j]);
    }
  }
}
