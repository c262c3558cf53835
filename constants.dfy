/** The security label tables of src/wifiqr/constants.py. */
module Constants {
  import opened Wrappers

  /** The labels offered in the security drop-down, default first. */
  const SecurityOptions: seq<string> := ["WPA/WPA2/WPA3", "WEP", "None"]

  /** Upper-cased, trimmed labels that are folded into a canonical token. */
  const SecurityAliases: map<string, string> := map[
    "WPA/WPA2/WPA3" := "WPA",
    "WPA2" := "WPA",
    "WPA3" := "WPA",
    "OPEN" := "NOPASS",
    "NONE" := "NOPASS",
    "NO PASSWORD" := "NOPASS"
  ]

  /** The canonical tokens a label normalises to when it is one of the offered options. */
  const CanonicalTokens: set<string> := {"WPA", "WEP", "NOPASS"}

  /** `(auth, encryption, key_type)` of a Windows WLAN profile; `keyType` is Python's `str | None`. */
  datatype WindowsSecurity = WindowsSecurity(authentication: string, encryption: string, keyType: Option<string>)

  const WindowsSecurityMap: map<string, WindowsSecurity> := map[
    "NOPASS" := WindowsSecurity("open", "none", None),
    "WEP" := WindowsSecurity("open", "WEP", Some("networkKey"))
  ]

  const WindowsSecurityDefault: WindowsSecurity := WindowsSecurity("WPA2PSK", "AES", Some("passPhrase"))

  const MacosSecurityMap: map<string, string> := map["NOPASS" := "None", "WEP" := "WEP"]

  const MacosSecurityDefault: string := "WPA"

  /** `SECURITY_ALIASES.get(key, key)`: the alias target, or the key itself. */
  function AliasFor(key: string): (t: string)
    ensures key in SecurityAliases ==> t in {"WPA", "NOPASS"}
    ensures key !in SecurityAliases ==> t == key
  {
    if key in SecurityAliases then SecurityAliases[key] else key
  }

  /** Every alias folds into `WPA` or `NOPASS`. */
  lemma AliasTargets()
    ensures forall k :: k in SecurityAliases ==> SecurityAliases[k] in {"WPA", "NOPASS"}
  {
  }

  /** The per-platform tables are keyed by canonical tokens only. */
  lemma PlatformMapKeys()
    ensures WindowsSecurityMap.Keys == {"NOPASS", "WEP"} <= CanonicalTokens
    ensures MacosSecurityMap.Keys == {"NOPASS", "WEP"}
  {
  }

  /** `WINDOWS_SECURITY_MAP.get(token, WINDOWS_SECURITY_DEFAULT)`. */
  function WindowsSecurityFor(token: string): (w: WindowsSecurity)
    ensures w.keyType.None? <==> token == "NOPASS"
    ensures token == "NOPASS" ==> w == WindowsSecurity("open", "none", None)
    ensures token == "WEP" ==> w == WindowsSecurity("open", "WEP", Some("networkKey"))
    ensures token !in {"NOPASS", "WEP"} ==> w == WindowsSecurity("WPA2PSK", "AES", Some("passPhrase"))
  {
    if token in WindowsSecurityMap then WindowsSecurityMap[token] else WindowsSecurityDefault
  }

  /** `MACOS_SECURITY_MAP.get(token, MACOS_SECURITY_DEFAULT)`. */
  function MacosEncryptionFor(token: string): (e: string)
    ensures e == "None" <==> token == "NOPASS"
    ensures token == "WEP" ==> e == "WEP"
    ensures token !in {"NOPASS", "WEP"} ==> e == "WPA"
  {
    if token in MacosSecurityMap then MacosSecurityMap[token] else MacosSecurityDefault
  }
}
