/**
 * The Windows batch script that installs WLAN profiles with `netsh` and
 * connects to a network.
 *
 * A script is a list of lines joined by CRLF and ended by one more CRLF.
 * Each network contributes a block of four lines that writes its WLAN
 * profile XML to a temporary file through a PowerShell here-string,
 * imports it, and deletes the file again.
 */
module WindowsScript {
  import opened Wrappers
  import opened Text
  import opened WifiPayload
  import opened WifiProfiles

  /** `ScriptExport`: the network the script connects to, and the script text. */
  datatype ScriptExport = ScriptExport(ssid: string, content: string)

  const Crlf := "\r\n"

  const Header: seq<string> := ["@echo off", "setlocal"]

  const Footer := "endlocal"

  /**
   * The first and last pieces of the PowerShell line around the profile XML.
   * The first is the program, its options, and the start of the here-string.
   */
  const HereStringOpen := "powershell" + " -NoProfile -ExecutionPolicy Bypass" + " -Command \"@'\r\n"

  const HereStringClose := "\r\n'@ | Set-Content -Path '%PROFILE_PATH%' -Encoding UTF8\""

  /** The temporary file of the single-network script. */
  const SingleProfilePath := "%TEMP%\\wifi-profile.xml"

  /** The temporary file of the `index`-th network (from 1) of a batch script. */
  function TempProfilePath(index: nat): string
  {
    "%TEMP%\\wifi-profile-" + NatToString(index) + ".xml"
  }

  /** The `netsh` commands that import a profile file and that join a network. */
  const AddProfileCommand := "netsh wlan add profile"

  const ConnectCommand := "netsh wlan connect"

  function ConnectLine(ssid: string): string
  {
    "netsh wlan connect name=\"" + ssid + "\""
  }

  /** `_profile_script_block`: write the XML to `path`, import it, delete the file. */
  function ProfileScriptBlock(path: string, xml: string): (lines: seq<string>)
    ensures |lines| == 4
  {
    ["set \"PROFILE_PATH=" + path + "\"",
     HereStringOpen + xml + HereStringClose,
     AddProfileCommand + " filename=\"%PROFILE_PATH%\" user=all",
     "del /f /q \"%PROFILE_PATH%\""]
  }

  /** The text between the opening and the closing of the here-string, if the line has both. */
  function HereStringBody(line: string): (r: Option<string>)
    ensures r.Some? ==> line == HereStringOpen + r.value + HereStringClose
  {
    var m := |HereStringOpen|;
    var n := |HereStringClose|;
    if |line| >= m + n && line[..m] == HereStringOpen && line[|line| - n..] == HereStringClose then
      assert line == line[..m] + line[m..|line| - n] + line[|line| - n..];
      Some(line[m..|line| - n])
    else None
  }

  /** The lines of a script: header, the profile blocks, the connect command, footer. */
  function ScriptLines(blocks: seq<string>, ssid: string): seq<string>
  {
    Header + blocks + [ConnectLine(ssid), Footer]
  }

  /** `"\r\n".join(lines) + "\r\n"`. */
  function ScriptText(lines: seq<string>): (text: string)
    requires lines != []
    ensures text == Terminated(lines, Crlf)
  {
    JoinThenSeparator(lines, Crlf);
    Join(lines, Crlf) + Crlf
  }

  /**
   * `build_windows_connect_script`: the script opens with the header,
   * connects to the configured network, and reports that network.
   */
  function BuildWindowsConnectScript(config: WifiConfig): (e: ScriptExport)
    ensures e.ssid == config.ssid
    ensures IsPrefix("@echo off\r\nsetlocal\r\n", e.content)
    ensures Contains(e.content, "netsh wlan connect name=\"" + config.ssid + "\"")
  {
    var block := ProfileScriptBlock(SingleProfilePath, BuildWlanProfileXml(config));
    ScriptHeader(block, config.ssid);
    ScriptConnects(block, config.ssid);
    ScriptExport(config.ssid, ScriptText(ScriptLines(block, config.ssid)))
  }

  /** The profile XML of each network, in order, as `render` writes it. */
  function RenderedXmls(configs: seq<WifiConfig>, render: WifiConfig -> string): (xmls: seq<string>)
    ensures |xmls| == |configs|
  {
    seq(|configs|, i requires 0 <= i < |configs| => render(configs[i]))
  }

  /** The WLAN profile XML of each network, in order. */
  function ProfileXmls(configs: seq<WifiConfig>): (xmls: seq<string>)
    ensures |xmls| == |configs|
  {
    RenderedXmls(configs, BuildWlanProfileXml)
  }

  lemma ProfileXmlAt(configs: seq<WifiConfig>, i: nat)
    requires i < |configs|
    ensures ProfileXmls(configs)[i] == BuildWlanProfileXml(configs[i])
  {
  }

  /** The profile blocks of a batch script, the `i`-th profile's file numbered `i` from 1. */
  function ProfileBlocks(xmls: seq<string>): (lines: seq<string>)
    ensures |lines| == 4 * |xmls|
  {
    if xmls == [] then []
    else
      var k := |xmls| - 1;
      ProfileBlocks(xmls[..k]) + ProfileScriptBlock(TempProfilePath(k + 1), xmls[k])
  }

  /**
   * A batch script installing the profiles `xmls` and connecting to `last`:
   * it opens with the header, connects to `last`, and reports that network.
   */
  function BatchScript(xmls: seq<string>, last: string): (e: ScriptExport)
    ensures e.ssid == last
    ensures IsPrefix("@echo off\r\nsetlocal\r\n", e.content)
    ensures Contains(e.content, "netsh wlan connect name=\"" + last + "\"")
  {
    ScriptHeader(ProfileBlocks(xmls), last);
    ScriptConnects(ProfileBlocks(xmls), last);
    ScriptExport(last, ScriptText(ScriptLines(ProfileBlocks(xmls), last)))
  }

  /** What `build_windows_connect_script_multi` returns for a non-empty list. */
  function MultiScript(configs: seq<WifiConfig>): ScriptExport
    requires configs != []
  {
    BatchScript(ProfileXmls(configs), configs[|configs| - 1].ssid)
  }

  /**
   * The loop of `build_windows_connect_script_multi`, with the profile
   * renderer passed in: fails on an empty list (the source raises
   * `ValueError`), otherwise appends one profile block per network and
   * connects to the last one.
   */
  method BuildBatchScript(configs: seq<WifiConfig>, render: WifiConfig -> string) returns (r: Result<ScriptExport, string>)
    ensures configs == [] <==> r.Failure?
    ensures r.Failure? ==> r.error == "No networks provided"
    ensures r.Success? ==> r.value == BatchScript(RenderedXmls(configs, render), configs[|configs| - 1].ssid)
  {
    if configs == [] {
      return Failure("No networks provided");
    }
    ghost var xmls := RenderedXmls(configs, render);
    var lines := Header;
    var i := 0;
    while i < |configs|
      invariant 0 <= i <= |configs|
      invariant lines == Header + ProfileBlocks(xmls[..i])
    {
      var xml := render(configs[i]);
      var block := ProfileScriptBlock(TempProfilePath(i + 1), xml);
      ProfileBlocksSnoc(xmls, i);
      AppendAssociative(Header, ProfileBlocks(xmls[..i]), block);
      lines := lines + block;
      i := i + 1;
    }
    assert xmls[..i] == xmls;
    var last := configs[|configs| - 1].ssid;
    lines := lines + [ConnectLine(last), Footer];
    return Success(ScriptExport(last, ScriptText(lines)));
  }

  /** `build_windows_connect_script_multi`. */
  method BuildWindowsConnectScriptMulti(configs: seq<WifiConfig>) returns (r: Result<ScriptExport, string>)
    ensures configs == [] <==> r.Failure?
    ensures r.Failure? ==> r.error == "No networks provided"
    ensures r.Success? ==> r.value == MultiScript(configs)
  {
    r := BuildBatchScript(configs, BuildWlanProfileXml);
  }

  // ---------------------------------------------------------------------
  // Properties

  /** The here-string of a profile block holds the profile XML unchanged. */
  lemma HereStringRoundTrip(path: string, xml: string)
    ensures HereStringBody(ProfileScriptBlock(path, xml)[1]) == Some(xml)
  {
    var line := HereStringOpen + xml + HereStringClose;
    var m := |HereStringOpen|;
    assert line[..m] == HereStringOpen;
    assert line[|line| - |HereStringClose|..] == HereStringClose;
    assert line[m..|line| - |HereStringClose|] == xml;
  }

  /** Blocks for different files differ only in the line that names the file. */
  lemma BlockNamesFileOnce(p: string, q: string, xml: string)
    ensures ProfileScriptBlock(p, xml)[1..] == ProfileScriptBlock(q, xml)[1..]
    ensures ProfileScriptBlock(p, xml)[0] == ProfileScriptBlock(q, xml)[0] <==> p == q
  {
    var a := ProfileScriptBlock(p, xml)[0];
    var b := ProfileScriptBlock(q, xml)[0];
    var s := "set \"PROFILE_PATH=";
    if a == b {
      assert |p| == |q|;
      assert a[|s|..|s| + |p|] == p;
      assert b[|s|..|s| + |q|] == q;
    }
  }

  lemma AppendAssociative(a: seq<string>, b: seq<string>, c: seq<string>)
    ensures a + b + c == a + (b + c)
  {
  }

  /** Adding a profile adds its block, numbered after the others. */
  lemma ProfileBlocksSnoc(xmls: seq<string>, i: nat)
    requires i < |xmls|
    ensures ProfileBlocks(xmls[..i + 1]) == ProfileBlocks(xmls[..i]) + ProfileScriptBlock(TempProfilePath(i + 1), xmls[i])
  {
    assert xmls[..i + 1][..i] == xmls[..i];
  }

  /** Distinct networks of a batch script get distinct temporary files. */
  lemma TempProfilePathInjective(i: nat, j: nat)
    requires i != j
    ensures TempProfilePath(i) != TempProfilePath(j)
  {
    var pre := "%TEMP%\\wifi-profile-";
    var a := NatToString(i);
    var b := NatToString(j);
    var s := TempProfilePath(i);
    var t := TempProfilePath(j);
    NatToStringInjective(i, j);
    if |a| != |b| {
      assert |s| != |t|;
    } else {
      assert s[|pre|..|pre| + |a|] == a;
      assert t[|pre|..|pre| + |b|] == b;
    }
  }

  /** The `k`-th block (from 0) installs the `k`-th profile from file `k + 1`. */
  lemma {:induction false} ProfileBlockAt(xmls: seq<string>, k: nat)
    requires k < |xmls|
    ensures ProfileBlocks(xmls)[4 * k..4 * k + 4] == ProfileScriptBlock(TempProfilePath(k + 1), xmls[k])
  {
    var n := |xmls| - 1;
    var front := ProfileBlocks(xmls[..n]);
    var block := ProfileScriptBlock(TempProfilePath(n + 1), xmls[n]);
    if k < n {
      ProfileBlockAt(xmls[..n], k);
      SliceOfFront(front, block, 4 * k, 4 * k + 4);
    } else {
      SliceOfBack(front, block);
    }
  }

  lemma SliceOfFront(a: seq<string>, b: seq<string>, i: nat, j: nat)
    requires i <= j <= |a|
    ensures (a + b)[i..j] == a[i..j]
  {
  }

  lemma SliceOfBack(a: seq<string>, b: seq<string>)
    ensures (a + b)[|a|..|a| + |b|] == b
  {
  }

  /** Two lines, each terminated. */
  lemma TerminatedTwo(x: string, y: string, sep: string)
    ensures Terminated([x, y], sep) == x + sep + (y + sep)
  {
    assert [x, y][1..] == [y];
    assert Terminated([y], sep) == y + sep + Terminated([], sep);
  }

  /**
   * Shape of every script: CRLF after every line, the header first, and the
   * text ending by connecting to `ssid` and closing the local scope.
   */
  lemma ScriptTextShape(blocks: seq<string>, ssid: string)
    ensures var text := ScriptText(ScriptLines(blocks, ssid));
      text == Terminated(Header, Crlf) + Terminated(blocks, Crlf) + (ConnectLine(ssid) + Crlf + (Footer + Crlf))
  {
    TerminatedAppend(Header, blocks, Crlf);
    TerminatedAppend(Header + blocks, [ConnectLine(ssid), Footer], Crlf);
    TerminatedTwo(ConnectLine(ssid), Footer, Crlf);
  }

  /** Every script contains the command that connects to the network it names. */
  lemma ScriptConnects(blocks: seq<string>, ssid: string)
    ensures Contains(ScriptText(ScriptLines(blocks, ssid)), "netsh wlan connect name=\"" + ssid + "\"")
  {
    var front := Terminated(Header, Crlf) + Terminated(blocks, Crlf);
    ScriptTextShape(blocks, ssid);
    assert front + (ConnectLine(ssid) + Crlf + (Footer + Crlf)) == front + ConnectLine(ssid) + (Crlf + (Footer + Crlf));
    ContainsInfix(Terminated(Header, Crlf) + Terminated(blocks, Crlf), ConnectLine(ssid), Crlf + (Footer + Crlf));
  }

  /** Every script starts with `@echo off` and `setlocal`, each on its own line. */
  lemma ScriptHeader(blocks: seq<string>, ssid: string)
    ensures IsPrefix("@echo off\r\nsetlocal\r\n", ScriptText(ScriptLines(blocks, ssid)))
  {
    ScriptTextShape(blocks, ssid);
    TerminatedTwo("@echo off", "setlocal", Crlf);
    assert Header == ["@echo off", "setlocal"];
    assert "@echo off" + Crlf + ("setlocal" + Crlf) == "@echo off\r\nsetlocal\r\n";
  }

  /**
   * The single-network script has eight lines, and its only block carries
   * the WLAN profile XML of the configuration unchanged.
   */
  lemma SingleScriptConnects(config: WifiConfig)
    ensures var xml := BuildWlanProfileXml(config);
      var lines := ScriptLines(ProfileScriptBlock(SingleProfilePath, xml), config.ssid);
      |lines| == 8
      && HereStringBody(lines[3]) == Some(xml)
  {
    SingleLines(BuildWlanProfileXml(config), config.ssid);
  }

  lemma SingleLines(xml: string, ssid: string)
    ensures var lines := ScriptLines(ProfileScriptBlock(SingleProfilePath, xml), ssid);
      |lines| == 8
      && HereStringBody(lines[3]) == Some(xml)
      && Contains(ScriptText(lines), "netsh wlan connect name=\"" + ssid + "\"")
  {
    var block := ProfileScriptBlock(SingleProfilePath, xml);
    HereStringRoundTrip(SingleProfilePath, xml);
    assert ScriptLines(block, ssid)[3] == block[1];
    ScriptConnects(block, ssid);
  }

  /**
   * The lines of a batch script over the profiles `xmls`: one block per
   * profile, in order, each writing it to its own numbered file, then the
   * one connect command.
   */
  lemma BatchLinesAt(xmls: seq<string>, last: string, k: nat)
    requires k < |xmls|
    ensures var lines := ScriptLines(ProfileBlocks(xmls), last);
      |lines| == 4 * |xmls| + 4
      && lines[2 + 4 * k] == "set \"PROFILE_PATH=" + TempProfilePath(k + 1) + "\""
      && HereStringBody(lines[3 + 4 * k]) == Some(xmls[k])
      && lines[|lines| - 2] == ConnectLine(last)
      && (forall i :: 0 <= i < |lines| && i != |lines| - 2 ==> !IsPrefix(ConnectCommand, lines[i]))
  {
    var blocks := ProfileBlocks(xmls);
    BlocksDoNotConnect(xmls);
    ConnectsOnlyOnce(blocks, last);
    ProfileBlockAt(xmls, k);
    HereStringRoundTrip(TempProfilePath(k + 1), xmls[k]);
    assert ScriptLines(blocks, last)[2 + 4 * k] == blocks[4 * k..4 * k + 4][0];
    assert ScriptLines(blocks, last)[3 + 4 * k] == blocks[4 * k..4 * k + 4][1];
  }

  /** A line that differs from the connect command at some position inside it is not that command. */
  lemma NotConnectAt(line: string, i: nat)
    requires i < |ConnectCommand| && i < |line| && line[i] != ConnectCommand[i]
    ensures !IsPrefix(ConnectCommand, line)
  {
  }

  /** No line of a profile block is a connect command. */
  lemma BlockDoesNotConnect(path: string, xml: string)
    ensures forall j :: 0 <= j < 4 ==> !IsPrefix(ConnectCommand, ProfileScriptBlock(path, xml)[j])
  {
    var block := ProfileScriptBlock(path, xml);
    assert block[1][0] == 'p';
    NotConnectAt(block[0], 0);
    NotConnectAt(block[1], 0);
    NotConnectAt(block[2], 11);
    NotConnectAt(block[3], 0);
  }

  /** No line of the profile blocks is a connect command. */
  lemma {:induction false} BlocksDoNotConnect(xmls: seq<string>)
    ensures forall j :: 0 <= j < |ProfileBlocks(xmls)| ==> !IsPrefix(ConnectCommand, ProfileBlocks(xmls)[j])
  {
    if xmls != [] {
      var k := |xmls| - 1;
      BlocksDoNotConnect(xmls[..k]);
      BlockDoesNotConnect(TempProfilePath(k + 1), xmls[k]);
    }
  }

  /**
   * A script connects exactly once: its next-to-last line connects to
   * `ssid`, and no other line is a connect command.
   */
  lemma ConnectsOnlyOnce(blocks: seq<string>, ssid: string)
    requires forall j :: 0 <= j < |blocks| ==> !IsPrefix(ConnectCommand, blocks[j])
    ensures var lines := ScriptLines(blocks, ssid);
      lines[|lines| - 2] == ConnectLine(ssid)
      && forall i :: 0 <= i < |lines| && i != |lines| - 2 ==> !IsPrefix(ConnectCommand, lines[i])
  {
    var lines := ScriptLines(blocks, ssid);
    forall i | 0 <= i < |lines| && i != |lines| - 2
      ensures !IsPrefix(ConnectCommand, lines[i])
    {
      if i < 2 {
        assert lines[i][0] == if i == 0 then '@' else 's';
      } else if i < 2 + |blocks| {
        assert lines[i] == blocks[i - 2];
      } else {
        assert lines[i] == Footer;
      }
    }
  }

  /**
   * The batch script holds, in order, one block per network, each writing
   * that network's profile XML to its own numbered file; it connects to the
   * last network, on its next-to-last line and nowhere else.
   */
  lemma MultiScriptInstallsAll(configs: seq<WifiConfig>, k: nat)
    requires k < |configs|
    ensures var last := configs[|configs| - 1].ssid;
      var lines := ScriptLines(ProfileBlocks(ProfileXmls(configs)), last);
      |lines| == 4 * |configs| + 4
      && lines[2 + 4 * k] == "set \"PROFILE_PATH=" + TempProfilePath(k + 1) + "\""
      && HereStringBody(lines[3 + 4 * k]) == Some(BuildWlanProfileXml(configs[k]))
      && lines[|lines| - 2] == ConnectLine(last)
      && (forall i :: 0 <= i < |lines| && i != |lines| - 2 ==> !IsPrefix(ConnectCommand, lines[i]))
  {
    var xmls := ProfileXmls(configs);
    var last := configs[|configs| - 1].ssid;
    BatchLinesAt(xmls, last, k);
    ProfileXmlAt(configs, k);
  }

  /**
   * For one profile the batch script is the single-network script with the
   * numbered file `wifi-profile-1.xml` in place of `wifi-profile.xml`.
   */
  lemma BatchOfOne(xml: string, ssid: string)
    ensures BatchScript([xml], ssid)
         == ScriptExport(ssid, ScriptText(ScriptLines(ProfileScriptBlock(TempProfilePath(1), xml), ssid)))
  {
    assert [xml][..0] == [];
    assert ProfileBlocks([xml]) == ProfileScriptBlock(TempProfilePath(1), xml);
  }
}
