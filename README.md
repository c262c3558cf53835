# wifiqr credential encoders, modelled in Dafny

wifiqr turns a Wi-Fi network's credentials into several text artefacts. It
writes the `WIFI:` payload that a QR code carries. For Windows it writes a
WLAN profile XML and a batch script that imports that profile and connects.
For macOS it writes a configuration profile (a property list) with one
Wi-Fi payload per network. This project models the whole encoding pipeline:
the security-label tables, the escapers, the payload builder, the WLAN
profile builder, the Windows script builders and the macOS profile builders.
It also models the state logic of the main window: the search with
wrap-around navigation, the per-column sort orders, loading saved networks,
and the file-name and password-mask helpers.

Each builder is modelled as the text template the source writes. Each is
paired with an independent reference and a proof that the two agree:

- the `WIFI:` payload with a field decoder (round trip);
- the WLAN profile with an XML element tree and its serialisation;
- the macOS profile with a property-list tree and its serialisation;
- the scripts with line-level statements about every block (each script
  opens with a plain `setlocal` and writes each profile XML through a
  PowerShell here-string, as the code does).

Structural facts are then stated on the trees. For example, the profile has
a `<sharedKey>` exactly when the network is secured. The macOS payload has a
`Password` key exactly when the network is not open. Keys are distinct.

The records the source passes around are datatypes: `WifiPayload.WifiConfig`
(the `WifiConfig` dataclass of `wifi_payload.py`), `WindowsScript.ScriptExport`
and `MacosProfile.MacProfileExport` (the export records of the two script
builders), and `MainWindowState.TableRow` (one row of the network table).

Modules, one per source file: `Constants`, `XmlUtils`, `WifiPayload`,
`WifiProfiles`, `WindowsScript`, `MacosProfile` and `MainWindowState`.
Shared helpers sit in `Wrappers` (Option/Result), `Text` (the ASCII string
operations of Python's `str`) and `XmlTree` (an element tree and its
serialisation).

## Model

| member | source | states |
|---|---|---|
| Constants.AliasFor | src/wifiqr/constants.py:16-23 | an alias key folds to `WPA` or `NOPASS`; any other key is returned unchanged (`get(key, key)`) |
| Constants.AliasTargets | src/wifiqr/constants.py:16-23 | every value of the alias table is `WPA` or `NOPASS` |
| Constants.PlatformMapKeys | src/wifiqr/constants.py:26-36 | both platform tables are keyed by exactly `NOPASS` and `WEP`, which are canonical tokens |
| Constants.WindowsSecurityFor | src/wifiqr/constants.py:26-30 | `NOPASS` gives open/none with no key type; `WEP` gives open/WEP/networkKey; any other token gives the WPA2PSK/AES/passPhrase default; the key type is missing exactly for `NOPASS` |
| Constants.MacosEncryptionFor | src/wifiqr/constants.py:33-37 | the result is `None` exactly for `NOPASS`; `WEP` gives `WEP`; any other token gives the `WPA` default |
| XmlUtils.XmlEscape | src/wifiqr/services/xml_utils.py:6-14 | `xml_escape`: the escaped text is each character escaped on its own, a special character becoming its entity |
| XmlUtils.EscapeXmlChar | src/wifiqr/services/xml_utils.py:6-14 | a special character becomes an entity from `&` to `;`; any other character is kept |
| XmlUtils.XmlEscapeIsPerCharacter | src/wifiqr/services/xml_utils.py:6-14 | the five chained replaces equal escaping each character on its own, because `&` is replaced first |
| XmlUtils.XmlEscapeAppend | src/wifiqr/services/xml_utils.py:6-14 | escaping distributes over concatenation |
| XmlUtils.XmlEscapeNoMarkup | src/wifiqr/services/xml_utils.py:6-14 | the output holds no `<`, `>`, `"` or `'` |
| XmlUtils.XmlEscapeAmpersandsStartEntities | src/wifiqr/services/xml_utils.py:6-14 | every `&` in the output starts one of the five entities, so nothing is escaped twice |
| XmlUtils.XmlEscapePlainUnchanged | src/wifiqr/services/xml_utils.py:6-14 | text without special characters is unchanged |
| XmlUtils.XmlEscapeLength | src/wifiqr/services/xml_utils.py:6-14 | the output length is the input length plus 4 per `&`, 3 per `<` or `>`, and 5 per quote |
| XmlUtils.XmlEscapeRoundTrip | src/wifiqr/services/xml_utils.py:6-14 | decoding the five entities gives back the input |
| XmlUtils.XmlEscapeExamples | tests/test_services.py:204-216 | `AC&ME` escapes to `AC&amp;ME`; `p<>` escapes to `p&lt;&gt;` |
| WifiPayload.Escape | src/wifiqr/services/wifi_payload.py:20-27 | `_escape`: the escaped text puts one backslash before each `\`, `;`, `,` and `:` and keeps every other character |
| WifiPayload.EscapeIsPerCharacter | src/wifiqr/services/wifi_payload.py:20-27 | the replace chain puts one backslash before each `\`, `;`, `,` and `:`, character by character, because the backslash goes first |
| WifiPayload.EscapeAppend | src/wifiqr/services/wifi_payload.py:20-27 | escaping distributes over concatenation |
| WifiPayload.EscapeWithoutDelimiters | src/wifiqr/services/wifi_payload.py:20-27 | text without reserved characters is unchanged |
| WifiPayload.EscapeRoundTrip | src/wifiqr/services/wifi_payload.py:20-27 | removing the escaping backslashes gives back the input |
| WifiPayload.NormalizeSecurity | src/wifiqr/services/wifi_payload.py:30-33 | `normalize_security`: a normalised label is upper-case and trimmed, and is never an alias key |
| WifiPayload.NormalizeSecurityIdempotent | src/wifiqr/services/wifi_payload.py:30-33 | normalising twice is normalising once |
| WifiPayload.NormalizeSecurityPassThrough | src/wifiqr/services/wifi_payload.py:30-33 | a label whose trimmed upper-case form is not an alias comes out as that form |
| WifiPayload.SecurityForQr | src/wifiqr/services/wifi_payload.py:36-39 | the token is `nopass` exactly for open labels; otherwise it is the normalised label |
| WifiPayload.SecurityOptionsNormalize | src/wifiqr/constants.py:13-23 | every offered label normalises to `WPA`, `WEP` or `NOPASS`; the default option is secured |
| WifiPayload.IsOpenSecurity | src/wifiqr/services/wifi_payload.py:42-44 | `is_open_security`: a label is open exactly when its trimmed upper-case form is `NOPASS`, `OPEN`, `NONE` or `NO PASSWORD` |
| WifiPayload.OpenSecurityExamples | src/wifiqr/services/wifi_payload.py:42-44 | `open` is an open label and `WPA` is not |
| WifiPayload.SecurityOptionTokens | src/wifiqr/services/wifi_payload.py:36-39 | the `T:` token of every offered label has no reserved character |
| WifiPayload.BuildWifiPayload | src/wifiqr/services/wifi_payload.py:47-57 | `build_wifi_payload`: every payload starts with `WIFI:T:` and ends with `;;` |
| WifiPayload.OpenPayloadText | src/wifiqr/services/wifi_payload.py:47-55 | an open network's payload is `WIFI:T:nopass;S:<escaped trimmed SSID>;H:<flag>;;`, with no password field |
| WifiPayload.SecuredPayloadText | src/wifiqr/services/wifi_payload.py:47-57 | a secured network's payload carries the token, the escaped trimmed SSID, the escaped password and the hidden flag |
| WifiPayload.PayloadIsEncodedFields | src/wifiqr/services/wifi_payload.py:47-57 | when the `T:` token holds none of `\ ; , :`, the payload is `WIFI:`, then the config's fields each written as `K:escaped;`, then `;` |
| WifiPayload.PayloadRoundTrip | src/wifiqr/services/wifi_payload.py:47-57 | when the `T:` token holds none of `\ ; , :`, decoding the payload gives back exactly the T, S, (P,) H fields of the config, in order |
| WifiProfiles.SecurityToProfile | src/wifiqr/services/wifi_profiles.py:10-13 | the key type is missing exactly for open networks; each normalised label gets its row of the Windows table |
| WifiProfiles.WindowsValuesArePlain | src/wifiqr/constants.py:26-30 | every value of the Windows table is free of XML special characters |
| WifiProfiles.SecuredKeyType | src/wifiqr/services/wifi_profiles.py:10-13 | a secured network's key type is present and non-empty |
| WifiProfiles.BuildWlanProfileXml | src/wifiqr/services/wifi_profiles.py:16-53 | `build_wlan_profile_xml`: the profile text is the XML declaration followed by the serialisation of the profile's element tree |
| WifiProfiles.ProfileNodeSharedKey | src/wifiqr/services/wifi_profiles.py:23-28 | a `<sharedKey>` element exists exactly when there is a key type, and it holds that key type and the password |
| WifiProfiles.WlanTreeFields | src/wifiqr/services/wifi_profiles.py:16-53 | the tree holds the SSID in both `<name>`s, the hidden flag, and the table's authentication and encryption; the key type and raw password appear exactly when the network is not open |
| WifiProfiles.NodeInProfile | src/wifiqr/services/wifi_profiles.py:16-53 | any element found in the tree appears, serialised, in the profile text |
| WifiProfiles.WlanProfileNamesNetwork | src/wifiqr/services/wifi_profiles.py:33-38 | the text contains `<name>` with the escaped SSID and `<nonBroadcast>` with the hidden flag |
| WifiProfiles.WlanProfileSecurityText | src/wifiqr/services/wifi_profiles.py:45-46 | the text contains the table's authentication and encryption elements |
| WifiProfiles.WlanProfileSharedKeyText | src/wifiqr/services/wifi_profiles.py:23-28 | a secured network's text contains `<sharedKey>` |
| WifiProfiles.WlanProfileKeyTypeText | src/wifiqr/services/wifi_profiles.py:23-28 | a secured network's text contains the table's `<keyType>` |
| WindowsScript.ProfileScriptBlock | src/wifiqr/services/windows_script.py:17-26 | a profile block is four lines |
| WindowsScript.HereStringRoundTrip | src/wifiqr/services/windows_script.py:17-26 | the here-string line of a block holds the profile XML unchanged between its opening and closing |
| WindowsScript.BlockNamesFileOnce | src/wifiqr/services/windows_script.py:17-26 | blocks for two paths differ only in the first line, and that line differs exactly when the paths do |
| WindowsScript.ScriptText | src/wifiqr/services/windows_script.py:38 | the script text is each line followed by CRLF |
| WindowsScript.ScriptTextShape | src/wifiqr/services/windows_script.py:29-39 | every script starts with the header, ends with the connect line and `endlocal`, and terminates each line with CRLF |
| WindowsScript.ScriptHeader | src/wifiqr/services/windows_script.py:33 | every script starts with `@echo off` CRLF `setlocal` CRLF |
| WindowsScript.ScriptConnects | src/wifiqr/services/windows_script.py:35 | every script contains `netsh wlan connect name="<ssid>"` for the SSID it reports |
| WindowsScript.BuildWindowsConnectScript | src/wifiqr/services/windows_script.py:29-39 | `build_windows_connect_script`: the script starts with the header, contains the connect command for the configured SSID, and reports that SSID |
| WindowsScript.SingleScriptConnects | src/wifiqr/services/windows_script.py:29-39 | the single script has eight lines, and its one block carries the profile XML unchanged |
| WindowsScript.ProfileBlocks | src/wifiqr/services/windows_script.py:49-57 | the blocks of a batch are four lines per profile |
| WindowsScript.ProfileBlockAt | src/wifiqr/services/windows_script.py:49-57 | the `k`-th block writes the `k`-th profile to the file numbered `k + 1` |
| WindowsScript.TempProfilePathInjective | src/wifiqr/services/windows_script.py:51 | different network numbers get different temporary files |
| WindowsScript.BatchScript | src/wifiqr/services/windows_script.py:42-64 | the batch script starts with the header, contains the connect command for the last SSID, and reports that SSID |
| WindowsScript.BuildBatchScript | src/wifiqr/services/windows_script.py:42-64 | fails with "No networks provided" exactly on an empty list; otherwise gives the batch script of the rendered profiles, connecting to the last SSID |
| WindowsScript.BuildWindowsConnectScriptMulti | src/wifiqr/services/windows_script.py:42-64 | the same, with each profile rendered by the WLAN profile builder |
| WindowsScript.MultiScriptInstallsAll | src/wifiqr/services/windows_script.py:49-64 | the batch has `4n + 4` lines; block `k` sets the path of file `k + 1` and holds network `k`'s profile XML; the next-to-last line connects to the last SSID, and no other line is a connect command |
| WindowsScript.BatchOfOne | src/wifiqr/services/windows_script.py:42-64 | for one network the batch script is the single script with file `wifi-profile-1.xml` |
| MacosProfile.MacosEncryptionIsPlain | src/wifiqr/services/macos_profile.py:29-30 | the encryption type is `None`, `WEP` or `WPA` |
| MacosProfile.BuildWifiPayloadDict | src/wifiqr/services/macos_profile.py:19-48 | `_build_wifi_payload`: for identifiers without XML special characters, the payload text is the serialisation of the payload's property-list dictionary, which holds the raw SSID and password |
| MacosProfile.WifiPayloadKeysDistinct | src/wifiqr/services/macos_profile.py:36-48 | no key of the Wi-Fi payload appears twice |
| MacosProfile.WifiPayloadLookups | src/wifiqr/services/macos_profile.py:36-48 | the payload's type is `com.apple.wifi.managed` at version 1; it carries the given identifier and UUID, the display name `WiFi <SSID>`, the SSID, the hidden flag and the encryption type |
| MacosProfile.WifiPayloadPassword | src/wifiqr/services/macos_profile.py:32-34 | the payload has a `Password` key exactly when the network is not open, and it holds the password |
| MacosProfile.DocumentIsPlist | src/wifiqr/services/macos_profile.py:63-82 | the profile document is the plist document of the profile dictionary around the payloads' array |
| MacosProfile.IdentifiersArePlain | src/wifiqr/services/macos_profile.py:55-59 | profile and payload identifiers built from plain UUIDs need no escaping |
| MacosProfile.BuildMacosMobileconfig | src/wifiqr/services/macos_profile.py:51-84 | `build_macos_mobileconfig`: the profile is named `com.wifiqr.profile.<uuid>`; for UUIDs without XML special characters, its text is the plist of a profile holding one payload named `<identifier>.wifi` |
| MacosProfile.ItemsText | src/wifiqr/services/macos_profile.py:114 | joining payload texts that each serialise a tree gives the serialisation of the array's items |
| MacosProfile.BuildMultiProfile | src/wifiqr/services/macos_profile.py:87-127 | fails with "No networks provided" exactly on an empty list; otherwise collects one payload per network, in order, each under its own UUID and identifier |
| MacosProfile.BuildMacosMobileconfigMulti | src/wifiqr/services/macos_profile.py:87-127 | the same, with each payload written by the payload builder |
| MacosProfile.MultiMobileconfig | src/wifiqr/services/macos_profile.py:87-127 | the multi profile is named `com.wifiqr.profile.<uuid>`; for UUIDs without XML special characters, its text is the plist of a profile holding the networks' payload trees in order |
| MacosProfile.ProfileKeysDistinct | src/wifiqr/services/macos_profile.py:67-81 | no key of the profile dictionary appears twice |
| MacosProfile.ProfileLookups | src/wifiqr/services/macos_profile.py:67-81 | the profile holds its payloads under `PayloadContent`, has type `Configuration`, carries its identifier and UUID and the WifiQR names, and is removable |
| MacosProfile.MultiPayloadIdentifierInjective | src/wifiqr/services/macos_profile.py:101 | different Wi-Fi UUIDs give different payload identifiers |
| MacosProfile.MultiProfilePayloads | src/wifiqr/services/macos_profile.py:95-114 | payload `i` carries network `i`'s SSID and its own UUID; payload identifiers differ wherever the UUIDs do |
| MainWindowState.SanitizeFilename | src/wifiqr/ui/main_window.py:1679-1681 | the name is never empty and holds only letters, digits, `-` and `_` |
| MainWindowState.SanitizeFilenameShape | src/wifiqr/ui/main_window.py:1679-1681 | a non-empty label keeps its length and its safe characters; each other character becomes `_`; the empty label becomes `wifi` |
| MainWindowState.SanitizeFilenameIdempotent | src/wifiqr/ui/main_window.py:1679-1681 | sanitising a sanitised name changes nothing |
| MainWindowState.ObfuscatePassword | src/wifiqr/ui/main_window.py:1260-1264 | the empty password gives the empty mask; otherwise the mask is `max(6, length)` bullets |
| MainWindowState.ObfuscateHidesPassword | src/wifiqr/ui/main_window.py:1260-1264 | passwords of equal length, or both of at most six characters, get the same mask |
| MainWindowState.RowOf | src/wifiqr/ui/main_window.py:1176-1204 | the row shows the location and SSID, keeps the password and image, shows the security label exactly when it is an offered option (any other label shows as the first option), and matches a query exactly when the lower-cased location or SSID contains it |
| MainWindowState.SearchQuery | src/wifiqr/ui/main_window.py:1414 | the query holds no upper-case letter, and trimming and lower-casing it again changes nothing |
| MainWindowState.MatchesBelowExact | src/wifiqr/ui/main_window.py:1416-1424 | the rows collected among the first `n` are exactly those whose match flag is set, in ascending order |
| MainWindowState.SearchMatches | src/wifiqr/ui/main_window.py:1412-1424 | the matches are exactly the rows, ascending, whose lower-cased location or SSID contains the query; an empty query matches nothing |
| MainWindowState.HiddenRows | src/wifiqr/ui/main_window.py:1412-1424 | an empty query hides no row; otherwise a row is hidden exactly when it is not a match |
| MainWindowState.NextIndex | src/wifiqr/ui/main_window.py:1446-1451 | the next index always lies within the matches |
| MainWindowState.PreviousIndex | src/wifiqr/ui/main_window.py:1453-1458 | the previous index always lies within the matches |
| MainWindowState.NextPreviousInverse | src/wifiqr/ui/main_window.py:1446-1458 | next and previous undo each other; after the last match comes the first, and before the first comes the last |
| MainWindowState.SortOrdersAfter | src/wifiqr/ui/main_window.py:1487-1498 | only columns 0 and 1 change; a click flips that column's order; no other column changes |
| MainWindowState.SortToggles | src/wifiqr/ui/main_window.py:1487-1498 | the first click sorts descending; two clicks restore the column's order |
| MainWindowState.ConfigFromRecord | src/wifiqr/ui/main_window.py:1614-1628 | missing text fields become empty; a missing security becomes the first offered label; a missing hidden flag becomes false; strings are kept; the image is kept only when it is a non-empty string |
| MainWindowState.LoadedConfigs | src/wifiqr/ui/main_window.py:1614-1628 | one network per saved record, in order; an SSID or password saved as text is loaded unchanged |
| MainWindowState.MainWindow.constructor | src/wifiqr/ui/main_window.py:147-161 | a new window has no rows, no sort orders, no matches, index -1 and the blank WPA form |
| MainWindowState.MainWindow.ApplySearchFilter | src/wifiqr/ui/main_window.py:1412-1437 | the matches and hidden flags are those of the trimmed, lower-cased query; the index is 0 if there are matches, else -1; the first match is selected |
| MainWindowState.ScanRows | src/wifiqr/ui/main_window.py:1416-1424 | for any row test, the loop collects exactly the indices of the rows that pass it, in order (none for an empty query), and sets each row's hidden flag to not passing (never for an empty query) |
| MainWindowState.MainWindow.FilterRows | src/wifiqr/ui/main_window.py:1415-1437 | for a given query, the window takes the matches and hidden flags of the search; the index is 0 if there are matches, else -1; the first match is selected |
| MainWindowState.SelectedAfter | src/wifiqr/ui/main_window.py:1439-1441 | selecting a row the table holds gives that row; a row outside the table leaves the selection as it was |
| MainWindowState.MainWindow.SelectSearchRow | src/wifiqr/ui/main_window.py:1439-1441 | selects the row if the table holds it and otherwise leaves the selection unchanged; nothing else changes |
| MainWindowState.MainWindow.FindNext | src/wifiqr/ui/main_window.py:1446-1451 | does nothing without matches; otherwise moves to the next match, wrapping around, and selects its row if the table still holds it; keeps the window invariant |
| MainWindowState.MainWindow.FindPrevious | src/wifiqr/ui/main_window.py:1453-1458 | does nothing without matches; otherwise moves to the previous match, wrapping around, and selects its row if the table still holds it; keeps the window invariant |
| MainWindowState.MainWindow.HandleSort | src/wifiqr/ui/main_window.py:1487-1498 | the sort orders become those after a click on the column; nothing else in the modelled state changes |
| MainWindowState.MainWindow.LoadFromData | src/wifiqr/ui/main_window.py:1611-1631 | emptying the table clears the selection; the table becomes one visible row per record, in order; the form is filled exactly when one network was loaded |

## Left out

- QR image rendering, image resizing and base64 image decoding (`qr_service.py`) use foreign libraries and pixel work. `export_service.py`, the application entry point, widgets, dialogs, printing and the preview timer are not part of this model.
- The UUIDs that `uuid.uuid4()` draws are parameters of the macOS builders. The whole-profile lemmas assume they are free of XML special characters, as generated UUIDs are. The source writes identifiers and UUIDs without escaping.
- BuildBatchScript and BuildMultiProfile take the per-network builder as a parameter. The public methods pass the real builders. The loop is thereby proved for any builder, and the builders are proved separately.
- Strings are sequences of characters. Python's `upper`, `lower`, `strip` and `isalnum` are modelled over ASCII only: other characters are unchanged by case mapping and count as neither space nor alphanumeric.
- MainWindowState.SanitizeFilename: Python's `isalnum` also accepts non-ASCII letters and digits. The model replaces those with `_`.
- The plist model writes dictionary keys verbatim rather than escaped, because every key the builders write is a fixed plain word.
- Qt's `sortItems` (the actual reordering of rows) is left out. MainWindow.HandleSort models only the stored sort orders.
- The search box's placeholder text with the match count, and the scroll to the selected row, are display effects and are left out.
- JSON floats, arrays and objects in saved records are not modelled. Values are strings, booleans, integers or null, with Python's `str` and truth value.
- `_add_or_update_row` is modelled only for appending: the row's cells and data, and the label its security combo box shows. The widgets themselves are left out.
- MainWindow.form is the stored `_config` that `_set_form_from_config` keeps. The form's input widgets are not modelled, including its security combo box, which keeps its previous choice when given a label it does not offer.
- MainWindow.SelectSearchRow models Qt's `selectRow` as ignoring a row the table does not hold. A match can be such a row after `_load_from_data` replaces the table, because the earlier matches are kept.
- The SSID in `netsh wlan connect name="..."` is written unescaped, as in the source. The model states it verbatim and proves nothing about quoting.
- WifiPayload.PayloadRoundTrip and WifiPayload.PayloadIsEncodedFields hold only when the `T:` token holds none of `\ ; , :`. The source writes that token unescaped, and a saved record may carry any security label, so a label such as `WPA;X` yields a payload that cannot be decoded. WifiPayload.SecurityOptionTokens proves that every label the window offers gives a token without those characters.
