/**
 * The desktop application's Windows backend. It finds the interface to work on by a chain of
 * four detections that it remembers, changes DNS with PowerShell and falls back to `netsh`,
 * reads the servers back the same two ways, and judges whether a custom DNS is in use from the
 * addresses it finds. Every command goes through one oracle: PowerShell commands are wrapped
 * as the backend wraps them. The ghost field `log` records the command lines in order.
 */
module DesktopWindows {
  import opened Wrappers
  import opened Text
  import opened Lists
  import opened Shell
  import opened Patterns
  import opened Interfaces
  import opened Netsh
  import DnsValidators

  // ---------------------------------------------------------------- commands and messages

  const RouteQuery: string :=
    "(Get-NetRoute -DestinationPrefix '0.0.0.0/0' | Sort-Object -Property RouteMetric | Select-Object -First 1).InterfaceAlias"
  const AdapterQuery: string :=
    "(Get-NetAdapter | Where-Object { $_.Status -eq 'Up' } | Select-Object -First 1).Name"
  const AdapterListQuery: string :=
    "Get-NetAdapter | Where-Object { $_.Status -eq 'Up' -or $_.Status -eq 'Disconnected' } | Select-Object Name, Status, MediaType | ConvertTo-Json -Compress"
  /**
   * The three fixed queries hold no double quote, so wrapping them for PowerShell leaves them
   * as they are between the prefix and the closing quote.
   */
  const RouteCommand: string := PowerShellPrefix + RouteQuery + "\""
  const AdapterCommand: string := PowerShellPrefix + AdapterQuery + "\""
  const AdapterListCommand: string := PowerShellPrefix + AdapterListQuery + "\""
  const FlushCommand: string := "ipconfig /flushdns"

  /** The names tried, in order, when no detection found an interface. */
  const CommonNames: seq<string> := ["Wi-Fi", "Ethernet", "Ethernet 2", "Local Area Connection"]

  const NoInterfaceFound: string := "No active network interface found. Please check your internet connection."
  const InvalidPrimary: string := "Invalid primary DNS server address"
  const AdminRequired: string := "Administrator privileges required. Please run the application as Administrator."
  const CommandExecuted: string := "DNS command executed successfully"

  /** One echo request, waiting at most two seconds. */
  function PingCommand(server: string): string {
    "ping -n 1 -w 2000 " + server
  }

  /** The PowerShell query whether the current user is in the Administrator role. */
  const AdminQuery: string :=
    "([Security.Principal.WindowsPrincipal] [Security.Principal.WindowsIdentity]::GetCurrent()).IsInRole([Security.Principal.WindowsBuiltInRole] \"Administrator\")"

  function ShowInterfaceCommand(name: string): string {
    "netsh interface show interface name=\"" + name + "\""
  }

  function ShowDnsCommand(name: string): string {
    "netsh interface ipv4 show dnsservers name=\"" + name + "\""
  }

  function DnsQuery(name: string): string {
    "(Get-DnsClientServerAddress -InterfaceAlias \"" + name + "\" -AddressFamily IPv4).ServerAddresses -join \",\""
  }

  /** The PowerShell array of the servers to set: the primary, and the secondary when there is one. */
  function ServerList(primary: string, secondary: Option<string>): string {
    match secondary
    case None => "@(\"" + primary + "\")"
    case Some(s) => "@(\"" + primary + "\",\"" + s + "\")"
  }

  function SetCommand(name: string, primary: string, secondary: Option<string>): string {
    "Set-DnsClientServerAddress -InterfaceAlias \"" + name + "\" -ServerAddresses " + ServerList(primary, secondary)
  }

  function ResetCommand(name: string): string {
    "Set-DnsClientServerAddress -InterfaceAlias \"" + name + "\" -ResetServerAddresses"
  }

  function NetshPrimaryCommand(name: string, primary: string): string {
    "netsh interface ipv4 set dnsservers name=\"" + name + "\" static " + primary + " primary"
  }

  function NetshSecondaryCommand(name: string, secondary: string): string {
    "netsh interface ipv4 add dnsservers name=\"" + name + "\" " + secondary + " index=2"
  }

  function NetshDhcpCommand(name: string): string {
    "netsh interface ipv4 set dnsservers name=\"" + name + "\" dhcp"
  }

  // ---------------------------------------------------------------- address checks

  /** `parseInt(part, 10)` is a number from 0 to 255 whose decimal form is `part` itself. */
  predicate IsCanonicalOctet(part: string) {
    match ParseInt(part)
    case None => false
    case Some(n) => 0 <= n <= 255 && NatToString(n) == part
  }

  /** `isValidIp`: four dot-separated parts, each a canonical number from 0 to 255. */
  predicate IsValidIp(ip: string) {
    ip != "" && |Split(ip, '.')| == 4 && forall i :: 0 <= i < 4 ==> IsCanonicalOctet(Split(ip, '.')[i])
  }

  /** `isValidDnsIp`: a valid address that is not `0.0.0.0`, link-local or loopback. */
  predicate IsValidDnsIp(ip: string) {
    IsValidIp(ip) && ip != "0.0.0.0" && !StartsWith(ip, "169.254.") && !StartsWith(ip, "127.")
  }

  function ValidIp(): string -> bool {
    (s: string) => IsValidIp(s)
  }

  function ValidDnsIp(): string -> bool {
    (s: string) => IsValidDnsIp(s)
  }

  /** The address written with the canonical numerals of four numbers. */
  function Octets(a: nat, b: nat, c: nat, d: nat): string {
    Dotted(NatToString(a), NatToString(b), NatToString(c), NatToString(d))
  }

  /** The addresses `isValidIp` accepts are exactly the canonical forms of four numbers up to 255. */
  lemma IsValidIpCharacterized(ip: string)
    ensures IsValidIp(ip) <==>
      exists a: nat, b: nat, c: nat, d: nat :: a <= 255 && b <= 255 && c <= 255 && d <= 255 && ip == Octets(a, b, c, d)
  {
    if IsValidIp(ip) {
      var parts := Split(ip, '.');
      JoinSplit(ip, '.');
      var a := OctetValue(parts[0]);
      var b := OctetValue(parts[1]);
      var c := OctetValue(parts[2]);
      var d := OctetValue(parts[3]);
      JoinFour(parts);
      assert ip == Octets(a, b, c, d);
    }
    forall a: nat, b: nat, c: nat, d: nat | a <= 255 && b <= 255 && c <= 255 && d <= 255 && ip == Octets(a, b, c, d)
      ensures IsValidIp(ip)
    {
      OctetsValid(a, b, c, d);
    }
  }

  /** The number a canonical octet stands for, and its numeral. */
  lemma OctetValue(part: string) returns (n: nat)
    requires IsCanonicalOctet(part)
    ensures n <= 255 && NatToString(n) == part
  {
    n := ParseInt(part).value;
  }

  lemma JoinFour(parts: seq<string>)
    requires |parts| == 4
    ensures Join(parts, ".") == Dotted(parts[0], parts[1], parts[2], parts[3])
  {
    assert Join(parts[1..][1..], ".") == parts[2] + "." + parts[3] by {
      assert parts[1..][1..][1..] == [parts[3]];
    }
    assert Join(parts[1..], ".") == parts[1] + "." + (parts[2] + "." + parts[3]);
  }

  /** Four canonical numerals up to 255, joined by dots, are a valid address. */
  lemma OctetsValid(a: nat, b: nat, c: nat, d: nat)
    requires a <= 255 && b <= 255 && c <= 255 && d <= 255
    ensures IsValidIp(Octets(a, b, c, d))
  {
    OctetsSplit(a, b, c, d);
    CanonicalNumeral(a);
    CanonicalNumeral(b);
    CanonicalNumeral(c);
    CanonicalNumeral(d);
  }

  /** The parts of a dotted quad are the numerals of its numbers. */
  lemma OctetsSplit(a: nat, b: nat, c: nat, d: nat)
    ensures Split(Octets(a, b, c, d), '.') == [NatToString(a), NatToString(b), NatToString(c), NatToString(d)]
  {
    var parts := [NatToString(a), NatToString(b), NatToString(c), NatToString(d)];
    forall i | 0 <= i < 4
      ensures '.' !in parts[i]
    {
      assert AllDigits(parts[i]);
    }
    JoinFour(parts);
    SplitJoin(parts, '.');
  }

  /** The numeral of a number up to 255 is a canonical octet. */
  lemma CanonicalNumeral(n: nat)
    requires n <= 255
    ensures IsCanonicalOctet(NatToString(n))
  {
    ParseIntOfNumeral(n);
  }

  /** A part with a leading zero is rejected: `01.2.3.4` is not a valid address here. */
  lemma LeadingZeroRejected()
    ensures !IsValidIp("01.2.3.4")
  {
    PaddedOctetRejected("01", "2.3.4");
    assert "01" + "." + "2.3.4" == "01.2.3.4";
  }

  /** An empty part is rejected: `1..2.3` is not a valid address here. */
  lemma EmptyPartRejected()
    ensures !IsValidIp("1..2.3")
  {
    EmptyOctetRejected("1", "", "2.3");
    assert "1" + "." + "" + "." + "2.3" == "1..2.3";
  }

  /** `010.0.0.1`, which the shared validator accepts, is not a valid address here. */
  lemma StricterThanShared()
    ensures DnsValidators.IsValidIPv4("010.0.0.1") && !IsValidIp("010.0.0.1")
  {
    PaddedOctetRejected("010", "0.0.1");
    assert "010" + "." + "0.0.1" == "010.0.0.1";
    DnsValidators.LeadingZerosAccepted();
  }

  /** An address whose first part starts with a zero and has more digits is rejected. */
  lemma PaddedOctetRejected(first: string, rest: string)
    requires |first| >= 2 && first[0] == '0' && AllDigits(first) && '.' !in first
    ensures !IsValidIp(first + "." + rest)
  {
    var ip := first + "." + rest;
    SplitAfter(first, '.', rest);
    var parts := Split(ip, '.');
    assert parts[0] == first;
    if IsCanonicalOctet(first) {
      var n := OctetValue(first);
    }
  }

  /** An address with an empty part is rejected. */
  lemma EmptyOctetRejected(first: string, empty: string, rest: string)
    requires first != [] && '.' !in first && empty == []
    ensures !IsValidIp(first + "." + empty + "." + rest)
  {
    var ip := first + "." + empty + "." + rest;
    assert ip == first + "." + ("." + rest);
    SplitAfter(first, '.', "." + rest);
    SplitAfter([], '.', rest);
    assert [] + "." + rest == "." + rest;
    assert Split(ip, '.')[1] == [];
    assert ParseInt([]) == None;
  }

  /** Link-local and loopback addresses are valid addresses but never DNS addresses. */
  lemma ReservedNotDns(b: nat, c: nat, d: nat)
    requires b <= 255 && c <= 255 && d <= 255
    ensures IsValidIp(Octets(127, b, c, d)) && !IsValidDnsIp(Octets(127, b, c, d))
    ensures IsValidIp(Octets(169, 254, c, d)) && !IsValidDnsIp(Octets(169, 254, c, d))
  {
    OctetsValid(127, b, c, d);
    OctetsValid(169, 254, c, d);
    ReservedNumerals();
    PrefixOfOctets(127, b, c, d, "127", NatToString(b));
    PrefixOfOctets(169, 254, c, d, "169", "254");
    assert "127" + "." == "127.";
    assert "169" + "." + "254" + "." == "169.254.";
  }

  lemma ReservedNumerals()
    ensures NatToString(127) == "127" && NatToString(169) == "169" && NatToString(254) == "254"
  {
  }

  /** A dotted quad starts with its first number and a dot, and with its first two numbers and their dots. */
  lemma PrefixOfOctets(a: nat, b: nat, c: nat, d: nat, pa: string, pb: string)
    requires NatToString(a) == pa && NatToString(b) == pb
    ensures StartsWith(Octets(a, b, c, d), pa + ".")
    ensures StartsWith(Octets(a, b, c, d), pa + "." + pb + ".")
  {
    var p1 := pa + ".";
    var p2 := p1 + pb + ".";
    var rest := NatToString(c) + "." + NatToString(d);
    assert Octets(a, b, c, d) == p2 + rest;
    assert (p2 + rest)[..|p2|] == p2;
    assert p2 == p1 + (pb + ".");
    assert (p2 + rest)[..|p1|] == p1;
  }

  // ---------------------------------------------------------------- reading the servers back

  /** One line of `netsh … show dnsservers`: its first `\d{1,3}` dotted quad, when that is a DNS address. */
  function DnsAddressOf(line: string): Option<string> {
    match FindShortQuad(line)
    case Some(ip) => if IsValidDnsIp(ip) then Some(ip) else None
    case None => None
  }

  function DnsAddressFinder(): string -> Option<string> {
    (line: string) => DnsAddressOf(line)
  }

  /** `extractDnsFromNetsh`: the DNS addresses, at most one per line, without repetition, in the order first seen. */
  function NetshDns(output: string): (r: seq<string>)
    ensures forall i :: 0 <= i < |r| ==> IsValidDnsIp(r[i])
  {
    NetshDnsValid(output);
    Dedupe(Collect(Split(output, '\n'), DnsAddressFinder()))
  }

  /** The addresses read from `netsh` are distinct DNS addresses, no more than there are lines. */
  lemma NetshDnsValid(output: string)
    ensures var r := Dedupe(Collect(Split(output, '\n'), DnsAddressFinder()));
      && NoDuplicates(r)
      && |r| <= |Split(output, '\n')|
      && forall i :: 0 <= i < |r| ==> IsValidDnsIp(r[i])
  {
    var lines := Split(output, '\n');
    var found := Collect(lines, DnsAddressFinder());
    CollectAll(lines, DnsAddressFinder(), ValidDnsIp());
    DedupeSubsequence(found);
    var r := Dedupe(found);
    SubsequenceShorter(r, found);
    forall i | 0 <= i < |r|
      ensures IsValidDnsIp(r[i])
    {
      assert r[i] in found;
    }
  }

  lemma {:induction false} SubsequenceShorter(sub: seq<string>, xs: seq<string>)
    requires IsSubsequence(sub, xs)
    ensures |sub| <= |xs|
  {
    if sub != [] {
      if sub[0] == xs[0] {
        SubsequenceShorter(sub[1..], xs[1..]);
      } else {
        SubsequenceShorter(sub, xs[1..]);
      }
    }
  }

  /** The PowerShell reply: the comma-separated values of the trimmed output that are valid addresses. */
  function PowerShellServers(o: Outcome): (r: seq<string>)
    ensures forall i :: 0 <= i < |r| ==> IsValidIp(r[i])
    ensures o.Ok? ==> forall x :: x in r <==> x in Split(Trim(o.stdout), ',') && IsValidIp(x)
  {
    if o.Err? then []
    else
      var r := Filter(Split(Trim(o.stdout), ','), ValidIp());
      assert forall i :: 0 <= i < |r| ==> r[i] in r;
      r
  }

  // ---------------------------------------------------------------- interfaces

  /** `getInterfaceType`: Wi-Fi before Ethernet before anything else, from the name and the media type. */
  function InterfaceKind(name: string, mediaType: string): InterfaceType {
    var nameLower := ToLower(name);
    var mediaLower := ToLower(mediaType);
    if Contains(nameLower, "wi-fi") || Contains(nameLower, "wireless") || Contains(nameLower, "wlan")
      || Contains(mediaLower, "wireless") then Wifi
    else if Contains(nameLower, "ethernet") || Contains(nameLower, "local area") || Contains(mediaLower, "ethernet") then Ethernet
    else OtherType
  }

  function InterfaceKinds(): (string, string) -> InterfaceType {
    (name: string, mediaType: string) => InterfaceKind(name, mediaType)
  }

  /** The type does not depend on the case of the name or of the media type. */
  lemma InterfaceKindIgnoresCase(name: string, mediaType: string)
    ensures InterfaceKind(ToLower(name), ToLower(mediaType)) == InterfaceKind(name, mediaType)
  {
    ToLowerIdempotent(name);
    ToLowerIdempotent(mediaType);
  }

  /** An adapter as `Get-NetAdapter` describes it; an absent media type is the empty string. */
  datatype Adapter = Adapter(name: string, status: string, mediaType: string)

  /** The interface an adapter stands for: active when its status is `Up`. */
  function AdapterInterface(a: Adapter): NetworkInterface {
    NetworkInterface(a.name, a.name, InterfaceKind(a.name, a.mediaType), a.status == "Up", None)
  }

  /**
   * `getNetworkInterfaces`: the adapters PowerShell lists, when its output is usable and
   * parses; otherwise the `netsh` table. Parsing the JSON is the parameter `parse`.
   */
  function InterfacesOf(run: Oracle, parse: string -> Option<seq<Adapter>>): (r: seq<NetworkInterface>)
    ensures AdapterListUsable(run, parse) ==>
      var adapters := parse(run(AdapterListCommand).stdout).value;
      |r| == |adapters| && forall i :: 0 <= i < |r| ==> r[i] == AdapterInterface(adapters[i])
  {
    if AdapterListUsable(run, parse) then
      var adapters := parse(run(AdapterListCommand).stdout).value;
      seq(|adapters|, i requires 0 <= i < |adapters| => AdapterInterface(adapters[i]))
    else
      var table := run(TableCommand);
      if table.Err? then [] else TableInterfaces(table.stdout, InterfaceKinds())
  }

  /** The PowerShell adapter list ran, printed something without `error`, and parsed. */
  predicate AdapterListUsable(run: Oracle, parse: string -> Option<seq<Adapter>>) {
    var o := run(AdapterListCommand);
    o.Ok? && Trim(o.stdout) != "" && !Contains(o.stdout, "error") && parse(o.stdout).Some?
  }

  function InterfacesLog(run: Oracle, parse: string -> Option<seq<Adapter>>, log: seq<string>): seq<string> {
    var log1 := log + [AdapterListCommand];
    if AdapterListUsable(run, parse) then log1 else log1 + [TableCommand]
  }

  // ---------------------------------------------------------------- detecting the interface

  /** A detection by PowerShell: the trimmed output, unless it is empty or mentions `error`. */
  function UsableName(o: Outcome): Option<string> {
    if o.Ok? && Trim(o.stdout) != "" && !Contains(Trim(o.stdout), "error") then Some(Trim(o.stdout)) else None
  }

  /** A line of the interface table that says `Connected` and `Enabled` and has four cells: its name cell. */
  function ConnectedRowName(line: string): Option<string> {
    if Contains(line, "Connected") && Contains(line, "Enabled") && |Cells(line)| >= 4 then Some(Cells(line)[3]) else None
  }

  function ConnectedRow(): string -> Option<string> {
    (line: string) => ConnectedRowName(line)
  }

  function FirstOf(xs: seq<string>): (r: Option<string>)
    ensures r.Some? <==> xs != []
  {
    if xs == [] then None else Some(xs[0])
  }

  /** The third detection: the name on the first connected, enabled row of the whole table. */
  function TableChoice(o: Outcome): Option<string> {
    if o.Err? then None else FirstOf(Collect(Split(o.stdout, '\n'), ConnectedRow()))
  }

  /** Whether `netsh … name="<n>"` says, in lower case, `connected`. */
  predicate SaysConnected(o: Outcome) {
    o.Ok? && Contains(ToLower(o.stdout), "connected")
  }

  /** The fourth detection: the first of `names` whose report says connected. */
  function CommonNameChoice(names: seq<string>, run: Oracle): Option<string> {
    if names == [] then None
    else if SaysConnected(run(ShowInterfaceCommand(names[0]))) then Some(names[0])
    else CommonNameChoice(names[1..], run)
  }

  /** The commands of the fourth detection: one per name, up to the first that says connected. */
  function CommonNamesLog(names: seq<string>, run: Oracle): seq<string> {
    if names == [] then []
    else if SaysConnected(run(ShowInterfaceCommand(names[0]))) then [ShowInterfaceCommand(names[0])]
    else [ShowInterfaceCommand(names[0])] + CommonNamesLog(names[1..], run)
  }

  /** A name the fourth detection picks has a report that says connected; it picks none only when no report does. */
  lemma {:induction false} CommonNameChoiceFound(names: seq<string>, run: Oracle)
    ensures var r := CommonNameChoice(names, run);
      && (r.Some? ==> r.value in names && SaysConnected(run(ShowInterfaceCommand(r.value))))
      && (r.None? ==> forall j :: 0 <= j < |names| ==> !SaysConnected(run(ShowInterfaceCommand(names[j]))))
  {
    if names != [] && !SaysConnected(run(ShowInterfaceCommand(names[0]))) {
      CommonNameChoiceFound(names[1..], run);
    }
  }

  /**
   * When the name at `k` is the first whose report says connected, the fourth detection picks
   * it after asking about exactly the names up to it, in order.
   */
  lemma {:induction false} CommonNameChoiceAt(names: seq<string>, run: Oracle, k: nat)
    requires k < |names| && SaysConnected(run(ShowInterfaceCommand(names[k])))
    requires forall j :: 0 <= j < k ==> !SaysConnected(run(ShowInterfaceCommand(names[j])))
    ensures CommonNameChoice(names, run) == Some(names[k])
    ensures |CommonNamesLog(names, run)| == k + 1
    ensures forall j :: 0 <= j <= k ==> CommonNamesLog(names, run)[j] == ShowInterfaceCommand(names[j])
  {
    if k > 0 {
      assert !SaysConnected(run(ShowInterfaceCommand(names[0])));
      CommonNameChoiceAt(names[1..], run, k - 1);
    }
  }

  /** When no report says connected, the fourth detection picks nothing after asking about every name, in order. */
  lemma {:induction false} CommonNameChoiceNone(names: seq<string>, run: Oracle)
    requires forall j :: 0 <= j < |names| ==> !SaysConnected(run(ShowInterfaceCommand(names[j])))
    ensures CommonNameChoice(names, run) == None
    ensures |CommonNamesLog(names, run)| == |names|
    ensures forall j :: 0 <= j < |names| ==> CommonNamesLog(names, run)[j] == ShowInterfaceCommand(names[j])
  {
    if names != [] {
      assert !SaysConnected(run(ShowInterfaceCommand(names[0])));
      CommonNameChoiceNone(names[1..], run);
    }
  }

  /**
   * As written, the check is on the lower-cased report, and `disconnected` contains
   * `connected`: a report of a disconnected interface is taken as connected.
   */
  lemma DisconnectedTakenAsConnected(prefix: string, suffix: string)
    ensures SaysConnected(Ok(prefix + "Disconnected" + suffix))
  {
    var word := "Disconnected";
    var s := prefix + word + suffix;
    var lower := ToLower(s);
    var k := |prefix| + 3;
    forall j | 0 <= j < 9
      ensures lower[k + j] == "connected"[j]
    {
      assert s[k + j] == word[3 + j];
    }
    assert lower[k..k + 9] == "connected";
    ContainsAt(lower, "connected", k);
  }

  /** The chain of detections: the route, the adapters, the table, then the common names. */
  function Detected(run: Oracle): Option<string> {
    var route := UsableName(run(RouteCommand));
    var adapter := UsableName(run(AdapterCommand));
    var table := TableChoice(run(TableCommand));
    if route.Some? then route
    else if adapter.Some? then adapter
    else if table.Some? then table
    else CommonNameChoice(CommonNames, run)
  }

  /** The commands of the chain: each detection runs only when those before it found nothing. */
  function DetectionLog(run: Oracle, log: seq<string>): seq<string> {
    var log1 := log + [RouteCommand];
    var log2 := log1 + [AdapterCommand];
    var log3 := log2 + [TableCommand];
    if UsableName(run(RouteCommand)).Some? then log1
    else if UsableName(run(AdapterCommand)).Some? then log2
    else if TableChoice(run(TableCommand)).Some? then log3
    else log3 + CommonNamesLog(CommonNames, run)
  }

  /** A remembered name counts when it is not empty. */
  predicate HasName(cached: Option<string>) {
    cached.Some? && cached.value != ""
  }

  /** `detectActiveInterface`: the remembered name, or the chain, whose answer is remembered. */
  function DetectStep(cached: Option<string>, run: Oracle, log: seq<string>): After<Attempt<string>> {
    if HasName(cached) then After(Returned(cached.value), cached, log)
    else
      match Detected(run)
      case Some(n) => After(Returned(n), Some(n), DetectionLog(run, log))
      case None => After(Threw(NoInterfaceFound), cached, DetectionLog(run, log))
  }

  /** A selected interface other than `Auto` overrides detection. */
  predicate Overrides(selected: Option<string>) {
    selected.Some? && selected.value != "" && selected.value != "Auto"
  }

  /** `getInterfaceName`. */
  function NameStep(selected: Option<string>, cached: Option<string>, run: Oracle, log: seq<string>): After<Attempt<string>> {
    if Overrides(selected) then After(Returned(selected.value), cached, log) else DetectStep(cached, run, log)
  }

  /**
   * Without a selection or a remembered name, the chain decides: a name it finds is returned
   * and remembered; when it finds none, the call fails with the message asking to check the
   * connection and nothing is remembered. A remembered name is returned without a command.
   */
  lemma DetectionOutcome(selected: Option<string>, cached: Option<string>, run: Oracle, log: seq<string>)
    ensures var r := NameStep(selected, cached, run, log);
      && (Overrides(selected) ==> r == After(Returned(selected.value), cached, log))
      && (!Overrides(selected) && HasName(cached) ==> r == After(Returned(cached.value), cached, log))
      && (!Overrides(selected) && !HasName(cached) && Detected(run).Some? ==>
            r.value == Returned(Detected(run).value) && r.cached == Detected(run))
      && (!Overrides(selected) && !HasName(cached) && Detected(run).None? ==>
            r.value == Threw(NoInterfaceFound) && r.cached == cached)
  {
  }

  /**
   * Once a detection succeeded with a name, asking again gives that name without running
   * anything, whatever the commands would now answer.
   */
  lemma DetectionRemembered(selected: Option<string>, cached: Option<string>, run: Oracle, later: Oracle, log: seq<string>, log2: seq<string>)
    requires NameStep(selected, cached, run, log).value.Returned?
    requires NameStep(selected, cached, run, log).value.value != ""
    ensures var first := NameStep(selected, cached, run, log);
      NameStep(selected, first.cached, later, log2) == After(first.value, first.cached, log2)
  {
  }

  // ---------------------------------------------------------------- getActiveDns

  /**
   * `getActiveDns`: the valid addresses PowerShell reports, when there are some; otherwise
   * the DNS addresses of the `netsh` listing. The interface name is asked for again before
   * the second way, so a failed detection is run twice.
   */
  function DnsStep(selected: Option<string>, cached: Option<string>, run: Oracle, log: seq<string>): After<seq<string>> {
    var a := NameStep(selected, cached, run, log);
    var first := if a.value.Returned? then PowerShellServers(run(PowerShellCommand(DnsQuery(a.value.value)))) else [];
    var log1 := if a.value.Returned? then a.log + [PowerShellCommand(DnsQuery(a.value.value))] else a.log;
    if first != [] then After(first, a.cached, log1) else NetshDnsStep(selected, a.cached, run, log1)
  }

  /** The second way of `getActiveDns`: the name again, then the DNS addresses of the `netsh` listing. */
  function NetshDnsStep(selected: Option<string>, cached: Option<string>, run: Oracle, log: seq<string>): After<seq<string>> {
    var b := NameStep(selected, cached, run, log);
    match b.value
    case Threw(_) => After([], b.cached, b.log)
    case Returned(name) =>
      var o := run(ShowDnsCommand(name));
      After(if o.Err? then [] else NetshDns(o.stdout), b.cached, b.log + [ShowDnsCommand(name)])
  }

  /** Every address `getActiveDns` returns is a valid address, whichever way it was read. */
  lemma ActiveDnsValid(selected: Option<string>, cached: Option<string>, run: Oracle, log: seq<string>)
    ensures var r := DnsStep(selected, cached, run, log);
      forall i :: 0 <= i < |r.value| ==> IsValidIp(r.value[i])
  {
    var a := NameStep(selected, cached, run, log);
    var log1 := if a.value.Returned? then a.log + [PowerShellCommand(DnsQuery(a.value.value))] else a.log;
    NetshDnsValidIp(selected, a.cached, run, log1);
  }

  lemma NetshDnsValidIp(selected: Option<string>, cached: Option<string>, run: Oracle, log: seq<string>)
    ensures var r := NetshDnsStep(selected, cached, run, log);
      forall i :: 0 <= i < |r.value| ==> IsValidIp(r.value[i])
  {
    var b := NameStep(selected, cached, run, log);
    if b.value.Returned? {
      var o := run(ShowDnsCommand(b.value.value));
      assert NetshDnsStep(selected, cached, run, log).value == if o.Err? then [] else NetshDns(o.stdout);
    }
  }

  // ---------------------------------------------------------------- setDns and clearDns

  /** The secondary server that is used: the second entry, when it is a valid address. */
  function Secondary(servers: seq<string>): Option<string> {
    if |servers| >= 2 && IsValidIp(servers[1]) then Some(servers[1]) else None
  }

  /** A PowerShell failure that is taken for missing rights. */
  predicate PowerShellDenied(message: string) {
    Contains(message, "denied") || Contains(message, "administrator") || Contains(message, "elevation")
  }

  /** A `netsh` failure that is taken for missing rights. */
  predicate NetshDenied(message: string) {
    Contains(message, "requires elevation") || Contains(message, "Access is denied") || Contains(message, "administrator")
  }

  /** The error reported for a failed `netsh` command: the rights message, or its own. */
  function NetshError(message: string): string {
    if NetshDenied(message) then AdminRequired else message
  }

  /** The `netsh` fallback of `setDns`: the primary, the secondary if there is one, then the flush. */
  function NetshSet(name: string, primary: string, secondary: Option<string>, run: Oracle): (r: OpResult)
    ensures r.Success? <==>
      (run(NetshPrimaryCommand(name, primary)).Ok? &&
       (secondary.None? || run(NetshSecondaryCommand(name, secondary.value)).Ok?))
    ensures r.Failure? ==> r.error == AdminRequired || !NetshDenied(r.error)
  {
    var first := run(NetshPrimaryCommand(name, primary));
    if first.Err? then Failure(NetshError(first.message))
    else if secondary.Some? && run(NetshSecondaryCommand(name, secondary.value)).Err? then
      Failure(NetshError(run(NetshSecondaryCommand(name, secondary.value)).message))
    else Success(DnsUpdated)
  }

  function NetshSetLog(name: string, primary: string, secondary: Option<string>, run: Oracle, log: seq<string>): seq<string> {
    var log1 := log + [NetshPrimaryCommand(name, primary)];
    var log2 := if secondary.Some? then log1 + [NetshSecondaryCommand(name, secondary.value)] else log1;
    if run(NetshPrimaryCommand(name, primary)).Err? then log1
    else if secondary.Some? && run(NetshSecondaryCommand(name, secondary.value)).Err? then log2
    else log2 + [FlushCommand]
  }

  /** `setDns`: the primary must be a valid address; a second entry is used only when it is one too. */
  function SetDnsStep(servers: seq<string>, selected: Option<string>, cached: Option<string>, run: Oracle, log: seq<string>): (r: After<OpResult>)
    ensures (servers == [] || !IsValidIp(servers[0])) ==> r == After(Failure(InvalidPrimary), cached, log)
    ensures servers != [] && IsValidIp(servers[0]) ==> r == SetServersStep(servers[0], Secondary(servers), selected, cached, run, log)
  {
    if servers == [] || !IsValidIp(servers[0]) then After(Failure(InvalidPrimary), cached, log)
    else SetServersStep(servers[0], Secondary(servers), selected, cached, run, log)
  }

  /**
   * `setDns` with a valid primary: PowerShell first; on its success the cache is flushed and
   * the servers read back; a refusal that mentions rights stops there; anything else goes to `netsh`.
   */
  function SetServersStep(primary: string, secondary: Option<string>, selected: Option<string>, cached: Option<string>, run: Oracle, log: seq<string>): After<OpResult> {
    var a := NameStep(selected, cached, run, log);
    match a.value
    case Threw(m) => After(Failure(m), a.cached, a.log)
    case Returned(name) =>
      var command := PowerShellCommand(SetCommand(name, primary, secondary));
      var o := run(command);
      var log1 := a.log + [command];
      if o.Ok? then
        var d := DnsStep(selected, a.cached, run, log1 + [FlushCommand]);
        After(Success(if primary in d.value then DnsUpdated else CommandExecuted), d.cached, d.log)
      else if PowerShellDenied(o.message) then After(Failure(AdminRequired), a.cached, log1)
      else After(NetshSet(name, primary, secondary, run), a.cached, NetshSetLog(name, primary, secondary, run, log1))
  }

  /**
   * Only the first two servers matter, and an invalid secondary is dropped without a word:
   * the request behaves as the one with the primary and the usable secondary alone.
   */
  lemma SecondaryDropped(servers: seq<string>, selected: Option<string>, cached: Option<string>, run: Oracle, log: seq<string>)
    requires servers != []
    ensures SetDnsStep(servers, selected, cached, run, log) ==
      SetDnsStep([servers[0]] + (if Secondary(servers).Some? then [servers[1]] else []), selected, cached, run, log)
  {
    var used := [servers[0]] + (if Secondary(servers).Some? then [servers[1]] else []);
    assert used[0] == servers[0];
    assert Secondary(used) == Secondary(servers);
  }

  /** The PowerShell command `setDns` runs once the primary is valid and the interface known. */
  function SetLine(servers: seq<string>, a: After<Attempt<string>>): string
    requires servers != [] && a.value.Returned?
  {
    PowerShellCommand(SetCommand(a.value.value, servers[0], Secondary(servers)))
  }

  /**
   * When PowerShell accepts the servers, `setDns` succeeds whatever is read back afterwards,
   * and the cache is flushed right after the command.
   */
  lemma PowerShellSetSucceeds(primary: string, secondary: Option<string>, selected: Option<string>, cached: Option<string>, run: Oracle, log: seq<string>)
    requires NameStep(selected, cached, run, log).value.Returned?
    requires run(PowerShellCommand(SetCommand(NameStep(selected, cached, run, log).value.value, primary, secondary))).Ok?
    ensures var a := NameStep(selected, cached, run, log);
      var command := PowerShellCommand(SetCommand(a.value.value, primary, secondary));
      var r := SetServersStep(primary, secondary, selected, cached, run, log);
      && r.value.Success?
      && |r.log| >= |a.log| + 2
      && r.log[..|a.log| + 2] == a.log + [command, FlushCommand]
  {
    var a := NameStep(selected, cached, run, log);
    var start := a.log + [PowerShellCommand(SetCommand(a.value.value, primary, secondary)), FlushCommand];
    PowerShellAccepted(primary, secondary, selected, cached, run, log);
    var rest := DnsLogExtends(selected, a.cached, run, start);
    assert (start + rest)[..|a.log| + 2] == start;
  }

  /** Once PowerShell accepts, the result is a success and the log is that of the read-back after the flush. */
  lemma PowerShellAccepted(primary: string, secondary: Option<string>, selected: Option<string>, cached: Option<string>, run: Oracle, log: seq<string>)
    requires NameStep(selected, cached, run, log).value.Returned?
    requires run(PowerShellCommand(SetCommand(NameStep(selected, cached, run, log).value.value, primary, secondary))).Ok?
    ensures var a := NameStep(selected, cached, run, log);
      var command := PowerShellCommand(SetCommand(a.value.value, primary, secondary));
      var r := SetServersStep(primary, secondary, selected, cached, run, log);
      r.value.Success? && r.log == DnsStep(selected, a.cached, run, a.log + [command, FlushCommand]).log
  {
    var a := NameStep(selected, cached, run, log);
    var command := PowerShellCommand(SetCommand(a.value.value, primary, secondary));
    assert a.log + [command] + [FlushCommand] == a.log + [command, FlushCommand];
  }

  /** A PowerShell refusal that mentions rights ends `setDns` with the rights message, and `netsh` is not tried. */
  lemma DeniedSkipsNetsh(servers: seq<string>, selected: Option<string>, cached: Option<string>, run: Oracle, log: seq<string>)
    requires servers != [] && IsValidIp(servers[0])
    requires NameStep(selected, cached, run, log).value.Returned?
    requires var o := run(SetLine(servers, NameStep(selected, cached, run, log))); o.Err? && PowerShellDenied(o.message)
    ensures var a := NameStep(selected, cached, run, log);
      SetDnsStep(servers, selected, cached, run, log) == After(Failure(AdminRequired), a.cached, a.log + [SetLine(servers, a)])
  {
  }

  /** Any other PowerShell failure hands the same servers to `netsh`, and its outcome is the result. */
  lemma OtherFailureUsesNetsh(servers: seq<string>, selected: Option<string>, cached: Option<string>, run: Oracle, log: seq<string>)
    requires servers != [] && IsValidIp(servers[0])
    requires NameStep(selected, cached, run, log).value.Returned?
    requires var o := run(SetLine(servers, NameStep(selected, cached, run, log))); o.Err? && !PowerShellDenied(o.message)
    ensures var a := NameStep(selected, cached, run, log);
      var r := SetDnsStep(servers, selected, cached, run, log);
      && r.value == NetshSet(a.value.value, servers[0], Secondary(servers), run)
      && r.log == NetshSetLog(a.value.value, servers[0], Secondary(servers), run, a.log + [SetLine(servers, a)])
  {
  }

  /** Detection only appends to the log. */
  lemma NameLogExtends(selected: Option<string>, cached: Option<string>, run: Oracle, log: seq<string>) returns (rest: seq<string>)
    ensures NameStep(selected, cached, run, log).log == log + rest
  {
    var r := NameStep(selected, cached, run, log);
    rest := r.log[|log|..];
    if !Overrides(selected) && !HasName(cached) {
      assert r.log == DetectionLog(run, log);
    }
  }

  /** Reading the servers back only appends to the log. */
  lemma DnsLogExtends(selected: Option<string>, cached: Option<string>, run: Oracle, log: seq<string>) returns (rest: seq<string>)
    ensures DnsStep(selected, cached, run, log).log == log + rest
  {
    var a := NameStep(selected, cached, run, log);
    var r1 := NameLogExtends(selected, cached, run, log);
    var log1 := if a.value.Returned? then a.log + [PowerShellCommand(DnsQuery(a.value.value))] else a.log;
    var r2 := NetshLogExtends(selected, a.cached, run, log1);
    var d := DnsStep(selected, cached, run, log);
    if a.value.Returned? {
      assert log1 == log + (r1 + [PowerShellCommand(DnsQuery(a.value.value))]);
      rest := if d.log == log1 then r1 + [PowerShellCommand(DnsQuery(a.value.value))]
        else r1 + [PowerShellCommand(DnsQuery(a.value.value))] + r2;
    } else {
      rest := r1 + r2;
    }
  }

  lemma NetshLogExtends(selected: Option<string>, cached: Option<string>, run: Oracle, log: seq<string>) returns (rest: seq<string>)
    ensures NetshDnsStep(selected, cached, run, log).log == log + rest
  {
    var r1 := NameLogExtends(selected, cached, run, log);
    var b := NameStep(selected, cached, run, log);
    rest := if b.value.Threw? then r1 else r1 + [ShowDnsCommand(b.value.value)];
  }

  /** `clearDns`: PowerShell's reset, else `netsh`'s; a success flushes and forgets the detected name. */
  function ClearDnsStep(selected: Option<string>, cached: Option<string>, run: Oracle, log: seq<string>): (r: After<OpResult>)
    ensures r.value.Success? ==> r.value.message == DnsResetToDhcp && r.cached.None?
    ensures r.value.Failure? ==> r.cached == NameStep(selected, cached, run, log).cached
    ensures NameStep(selected, cached, run, log).value.Threw? ==>
      r.value == Failure(NameStep(selected, cached, run, log).value.message)
  {
    var a := NameStep(selected, cached, run, log);
    match a.value
    case Threw(m) => After(Failure(m), a.cached, a.log)
    case Returned(name) =>
      var command := PowerShellCommand(ResetCommand(name));
      var log1 := a.log + [command];
      if run(command).Ok? then After(Success(DnsResetToDhcp), None, log1 + [FlushCommand])
      else
        var log2 := log1 + [NetshDhcpCommand(name)];
        var o := run(NetshDhcpCommand(name));
        if o.Ok? then After(Success(DnsResetToDhcp), None, log2 + [FlushCommand])
        else After(Failure(o.message), a.cached, log2)
  }

  // ---------------------------------------------------------------- getStatus

  /** `isDnsSetStatically` on the report: it says `statically`, or it mentions DNS and not DHCP. */
  predicate StaticReport(output: string) {
    var lower := ToLower(output);
    Contains(lower, "statically") || (Contains(lower, "dns") && !Contains(lower, "dhcp"))
  }

  function StaticStep(selected: Option<string>, cached: Option<string>, run: Oracle, log: seq<string>): After<bool> {
    var a := NameStep(selected, cached, run, log);
    match a.value
    case Threw(_) => After(false, a.cached, a.log)
    case Returned(name) =>
      var o := run(ShowDnsCommand(name));
      After(o.Ok? && StaticReport(o.stdout), a.cached, a.log + [ShowDnsCommand(name)])
  }

  const KnownProviders: seq<string> := [
    "8.8.8.8", "8.8.4.4", "1.1.1.1", "1.0.0.1", "9.9.9.9", "149.112.112.112",
    "208.67.222.222", "208.67.220.220", "4.2.2.4", "4.2.2.1", "4.2.2.2", "4.2.2.3",
    "185.228.168.9", "185.228.169.9", "94.140.14.14", "94.140.15.15",
    "178.22.122.100", "185.51.200.2", "10.202.10.202", "10.202.10.102",
    "78.157.42.100", "78.157.42.101", "10.202.10.10", "10.202.10.11",
    "5.202.100.100", "5.202.100.101", "185.55.226.26", "185.55.225.25",
    "85.15.1.14", "85.15.1.15"]

  function Known(): string -> bool {
    (dns: string) => dns in KnownProviders
  }

  /** The filter of `getStatus`: the DNS addresses among the servers, in order. */
  function DnsOnly(servers: seq<string>): (r: seq<string>)
    ensures forall i :: 0 <= i < |r| ==> IsValidDnsIp(r[i])
    ensures forall x :: x in r <==> x in servers && IsValidDnsIp(x)
  {
    var r := Filter(servers, ValidDnsIp());
    assert forall i :: 0 <= i < |r| ==> r[i] in r;
    r
  }

  /** An address that looks like a home router: it ends in `.1` and starts with `192.168.` or `10.`. */
  predicate GatewayLike(dns: string) {
    EndsWith(dns, ".1") && (StartsWith(dns, "192.168.") || StartsWith(dns, "10."))
  }

  /**
   * The connection heuristic of `getStatus` once an active interface is known. Only a static
   * configuration with DNS addresses can count; the first known provider among them names the
   * server; without one, it counts unless every address looks like a home router.
   */
  function Verdict(isStatic: bool, valid: seq<string>, active: NetworkInterface): (s: DnsStatus)
    ensures s.activeDns == valid && s.activeInterface == Some(active) && s.serverKey.None?
    ensures s.isConnected ==> isStatic && valid != []
    ensures s.serverName.Some? ==>
      (s.isConnected &&
       exists k :: (0 <= k < |valid| && valid[k] == s.serverName.value
         && valid[k] in KnownProviders && forall j :: 0 <= j < k ==> valid[j] !in KnownProviders))
    ensures isStatic && valid != [] && s.serverName.None? ==>
      (s.isConnected <==> exists i :: 0 <= i < |valid| && !GatewayLike(valid[i]))
    ensures isStatic && (exists i :: 0 <= i < |valid| && valid[i] in KnownProviders) ==> s.serverName.Some?
  {
    var matched := if isStatic && valid != [] then Find(valid, Known()) else None;
    var connected := isStatic && valid != [] && (matched.Some? || exists i :: 0 <= i < |valid| && !GatewayLike(valid[i]));
    if matched.Some? then FindIndex(valid, Known()); DnsStatus(connected, valid, matched, None, Some(active))
    else DnsStatus(connected, valid, matched, None, Some(active))
  }

  /** The match `find` returns sits at an index with no match before it. */
  lemma {:induction false} FindIndex(xs: seq<string>, p: string -> bool)
    requires Find(xs, p).Some?
    ensures exists k :: 0 <= k < |xs| && xs[k] == Find(xs, p).value && p(xs[k]) && forall j :: 0 <= j < k ==> !p(xs[j])
  {
    if !p(xs[0]) {
      FindIndex(xs[1..], p);
      var k :| 0 <= k < |xs[1..]| && xs[1..][k] == Find(xs[1..], p).value && p(xs[1..][k])
        && forall j :: 0 <= j < k ==> !p(xs[1..][j]);
      assert xs[k + 1] == xs[1..][k];
      assert forall j :: 0 <= j < k + 1 ==> !p(xs[j]) by {
        forall j | 0 <= j < k + 1
          ensures !p(xs[j])
        {
          if j > 0 {
            assert xs[j] == xs[1..][j - 1];
          }
        }
      }
    }
  }

  /** A static home-router address alone does not count as a custom DNS. */
  lemma RouterAloneNotConnected(active: NetworkInterface)
    ensures !Verdict(true, ["192.168.1.1"], active).isConnected
  {
    var valid := ["192.168.1.1"];
    assert "192.168.1.1" !in KnownProviders;
    assert Find(valid, Known()) == None;
    assert GatewayLike(valid[0]) by {
      assert valid[0][|valid[0]| - 2..] == ".1";
      assert valid[0][..8] == "192.168.";
    }
  }

  /** `getStatus`: the interfaces first; with an active one, the servers, the static check and the verdict. */
  function StatusStep(selected: Option<string>, cached: Option<string>, run: Oracle, parse: string -> Option<seq<Adapter>>, log: seq<string>): (r: After<DnsStatus>)
    ensures Find(InterfacesOf(run, parse), IsUp()).None? ==>
      r == After(DnsStatus(false, [], None, None, None), cached, InterfacesLog(run, parse, log))
    ensures r.value.isConnected ==> r.value.activeDns != [] && forall i :: 0 <= i < |r.value.activeDns| ==> IsValidDnsIp(r.value.activeDns[i])
  {
    var log1 := InterfacesLog(run, parse, log);
    match Find(InterfacesOf(run, parse), IsUp())
    case None => After(DnsStatus(false, [], None, None, None), cached, log1)
    case Some(active) =>
      var d := DnsStep(selected, cached, run, log1);
      var st := StaticStep(selected, d.cached, run, d.log);
      var valid := DnsOnly(d.value);
      After(Verdict(st.value, valid, active), st.cached, st.log)
  }

  // ---------------------------------------------------------------- loops of the detection

  /** The loop over the table's lines in the third detection: the first connected row's name. */
  method FirstConnectedRow(lines: seq<string>) returns (name: Option<string>)
    ensures name == FirstOf(Collect(lines, ConnectedRow()))
  {
    var i := 0;
    while i < |lines|
      invariant 0 <= i <= |lines|
      invariant Collect(lines[..i], ConnectedRow()) == []
    {
      if Contains(lines[i], "Connected") && Contains(lines[i], "Enabled") {
        var parts := Cells(lines[i]);
        if |parts| >= 4 {
          CollectFirst(lines, i, ConnectedRow());
          return Some(parts[3]);
        }
      }
      CollectStep(lines, i, ConnectedRow());
      i := i + 1;
    }
    assert lines[..|lines|] == lines;
    name := None;
  }

  // ---------------------------------------------------------------- the backend

  class WindowsPlatform {
    var selectedInterface: Option<string>
    var cachedInterfaceName: Option<string>
    const run: Oracle
    const parseAdapters: string -> Option<seq<Adapter>>
    ghost var log: seq<string>

    constructor(run: Oracle, parseAdapters: string -> Option<seq<Adapter>>)
      ensures this.run == run && this.parseAdapters == parseAdapters
      ensures selectedInterface.None? && cachedInterfaceName.None? && log == []
    {
      this.run := run;
      this.parseAdapters := parseAdapters;
      selectedInterface := None;
      cachedInterfaceName := None;
      log := [];
    }

    /** Both interface fields are as they were at the start of the method. */
    twostate predicate Unchanged()
      reads this
    {
      selectedInterface == old(selectedInterface) && cachedInterfaceName == old(cachedInterfaceName)
    }

    /** `executePowerShell`: the command wrapped for a non-interactive PowerShell. */
    method PowerShell(command: string) returns (o: Outcome)
      modifies this
      ensures o == run(PowerShellCommand(command)) && log == old(log) + [PowerShellCommand(command)]
      ensures Unchanged()
    {
      o := run(PowerShellCommand(command));
      log := log + [PowerShellCommand(command)];
    }

    /** `execute`. */
    method Execute(command: string) returns (o: Outcome)
      modifies this
      ensures o == run(command) && log == old(log) + [command]
      ensures Unchanged()
    {
      o := run(command);
      log := log + [command];
    }

    /** The first two detections: a PowerShell query whose trimmed answer is a usable name. */
    method QueryName(command: string) returns (name: Option<string>)
      modifies this
      ensures name == UsableName(run(command)) && log == old(log) + [command]
      ensures Unchanged()
    {
      var o := Execute(command);
      name := None;
      if o.Ok? {
        var interfaceName := Trim(o.stdout);
        if interfaceName != "" && !Contains(interfaceName, "error") {
          name := Some(interfaceName);
        }
      }
    }

    /** The third detection. */
    method TableName() returns (name: Option<string>)
      modifies this
      ensures name == TableChoice(run(TableCommand)) && log == old(log) + [TableCommand]
      ensures Unchanged()
    {
      var o := Execute(TableCommand);
      if o.Err? {
        return None;
      }
      name := FirstConnectedRow(Split(o.stdout, '\n'));
    }

    /** The fourth detection: the common names in order, up to the first that says connected. */
    method TryCommonNames(names: seq<string>) returns (name: Option<string>)
      modifies this
      ensures name == CommonNameChoice(names, run) && log == old(log) + CommonNamesLog(names, run)
      ensures Unchanged()
    {
      var i := 0;
      while i < |names|
        invariant 0 <= i <= |names|
        invariant CommonNameChoice(names[i..], run) == CommonNameChoice(names, run)
        invariant log + CommonNamesLog(names[i..], run) == old(log) + CommonNamesLog(names, run)
        invariant Unchanged()
      {
        var o := Execute(ShowInterfaceCommand(names[i]));
        assert names[i..][1..] == names[i + 1..];
        if o.Ok? && Contains(ToLower(o.stdout), "connected") {
          return Some(names[i]);
        }
        i := i + 1;
      }
      name := None;
    }

    method DetectActiveInterface() returns (r: Attempt<string>)
      modifies this
      ensures var s := DetectStep(old(cachedInterfaceName), run, old(log));
        r == s.value && cachedInterfaceName == s.cached && log == s.log
      ensures selectedInterface == old(selectedInterface)
    {
      if cachedInterfaceName.Some? && cachedInterfaceName.value != "" {
        return Returned(cachedInterfaceName.value);
      }
      var name := QueryName(RouteCommand);
      if name.None? {
        name := QueryName(AdapterCommand);
        if name.None? {
          name := TableName();
          if name.None? {
            name := TryCommonNames(CommonNames);
          }
        }
      }
      if name.None? {
        return Threw(NoInterfaceFound);
      }
      cachedInterfaceName := name;
      r := Returned(name.value);
    }

    method GetInterfaceName() returns (r: Attempt<string>)
      modifies this
      ensures var s := NameStep(old(selectedInterface), old(cachedInterfaceName), run, old(log));
        r == s.value && cachedInterfaceName == s.cached && log == s.log
      ensures selectedInterface == old(selectedInterface)
    {
      if selectedInterface.Some? && selectedInterface.value != "" && selectedInterface.value != "Auto" {
        return Returned(selectedInterface.value);
      }
      r := DetectActiveInterface();
    }

    method SetDns(servers: seq<string>) returns (r: OpResult)
      modifies this
      ensures var s := SetDnsStep(servers, old(selectedInterface), old(cachedInterfaceName), run, old(log));
        r == s.value && cachedInterfaceName == s.cached && log == s.log
      ensures selectedInterface == old(selectedInterface)
    {
      if |servers| == 0 || !IsValidIp(servers[0]) {
        return Failure(InvalidPrimary);
      }
      var primary := servers[0];
      var secondary := if |servers| >= 2 && IsValidIp(servers[1]) then Some(servers[1]) else None;
      r := SetServers(primary, secondary);
    }

    /** `setDns` once the primary is known to be valid. */
    method SetServers(primary: string, secondary: Option<string>) returns (r: OpResult)
      modifies this
      ensures var s := SetServersStep(primary, secondary, old(selectedInterface), old(cachedInterfaceName), run, old(log));
        r == s.value && cachedInterfaceName == s.cached && log == s.log
      ensures selectedInterface == old(selectedInterface)
    {
      var name := GetInterfaceName();
      if name.Threw? {
        return Failure(name.message);
      }
      var o := PowerShell(SetCommand(name.value, primary, secondary));
      if o.Ok? {
        r := Confirm(primary);
        return;
      }
      if PowerShellDenied(o.message) {
        return Failure(AdminRequired);
      }
      r := SetWithNetsh(name.value, primary, secondary);
    }

    /** After PowerShell set the servers: the flush, then the check that the primary is read back. */
    method Confirm(primary: string) returns (r: OpResult)
      modifies this
      ensures var d := DnsStep(old(selectedInterface), old(cachedInterfaceName), run, old(log) + [FlushCommand]);
        r == Success(if primary in d.value then DnsUpdated else CommandExecuted)
        && cachedInterfaceName == d.cached && log == d.log
      ensures selectedInterface == old(selectedInterface)
    {
      var flushed := FlushDnsCache();
      var dns := GetActiveDns();
      r := Success(if primary in dns then DnsUpdated else CommandExecuted);
    }

    /** The `netsh` fallback of `setDns`. */
    method SetWithNetsh(name: string, primary: string, secondary: Option<string>) returns (r: OpResult)
      modifies this
      ensures r == NetshSet(name, primary, secondary, run) && log == NetshSetLog(name, primary, secondary, run, old(log))
      ensures Unchanged()
    {
      var first := Execute(NetshPrimaryCommand(name, primary));
      if first.Err? {
        return Failure(NetshError(first.message));
      }
      if secondary.Some? {
        var second := Execute(NetshSecondaryCommand(name, secondary.value));
        if second.Err? {
          return Failure(NetshError(second.message));
        }
      }
      var flushed := FlushDnsCache();
      r := Success(DnsUpdated);
    }

    method ClearDns() returns (r: OpResult)
      modifies this
      ensures var s := ClearDnsStep(old(selectedInterface), old(cachedInterfaceName), run, old(log));
        r == s.value && cachedInterfaceName == s.cached && log == s.log
      ensures selectedInterface == old(selectedInterface)
    {
      var name := GetInterfaceName();
      if name.Threw? {
        return Failure(name.message);
      }
      var o := PowerShell(ResetCommand(name.value));
      if o.Ok? {
        var flushed := FlushDnsCache();
        cachedInterfaceName := None;
        return Success(DnsResetToDhcp);
      }
      var fallback := Execute(NetshDhcpCommand(name.value));
      if fallback.Err? {
        return Failure(fallback.message);
      }
      var flushed := FlushDnsCache();
      cachedInterfaceName := None;
      r := Success(DnsResetToDhcp);
    }

    method GetActiveDns() returns (dns: seq<string>)
      modifies this
      ensures var s := DnsStep(old(selectedInterface), old(cachedInterfaceName), run, old(log));
        dns == s.value && cachedInterfaceName == s.cached && log == s.log
      ensures selectedInterface == old(selectedInterface)
    {
      var name := GetInterfaceName();
      if name.Returned? {
        var o := PowerShell(DnsQuery(name.value));
        if o.Ok? {
          var servers := PowerShellServers(o);
          if |servers| > 0 {
            return servers;
          }
        }
      }
      dns := GetActiveDnsNetsh();
    }

    /** The `netsh` way of `getActiveDns`. */
    method GetActiveDnsNetsh() returns (dns: seq<string>)
      modifies this
      ensures var s := NetshDnsStep(old(selectedInterface), old(cachedInterfaceName), run, old(log));
        dns == s.value && cachedInterfaceName == s.cached && log == s.log
      ensures selectedInterface == old(selectedInterface)
    {
      var name := GetInterfaceName();
      if name.Threw? {
        return [];
      }
      var o := Execute(ShowDnsCommand(name.value));
      if o.Err? {
        return [];
      }
      dns := ExtractAddresses(o.stdout, DnsAddressFinder());
    }

    method IsDnsSetStatically() returns (isStatic: bool)
      modifies this
      ensures var s := StaticStep(old(selectedInterface), old(cachedInterfaceName), run, old(log));
        isStatic == s.value && cachedInterfaceName == s.cached && log == s.log
      ensures selectedInterface == old(selectedInterface)
    {
      var name := GetInterfaceName();
      if name.Threw? {
        return false;
      }
      var o := Execute(ShowDnsCommand(name.value));
      if o.Err? {
        return false;
      }
      var lowerOutput := ToLower(o.stdout);
      isStatic := Contains(lowerOutput, "statically") || (Contains(lowerOutput, "dns") && !Contains(lowerOutput, "dhcp"));
    }

    method GetStatus() returns (status: DnsStatus)
      modifies this
      ensures var s := StatusStep(old(selectedInterface), old(cachedInterfaceName), run, parseAdapters, old(log));
        status == s.value && cachedInterfaceName == s.cached && log == s.log
      ensures selectedInterface == old(selectedInterface)
    {
      var interfaces := GetNetworkInterfaces();
      var activeInterface := Find(interfaces, IsUp());
      if activeInterface.None? {
        return DnsStatus(false, [], None, None, None);
      }
      var activeDns := GetActiveDns();
      var isStatic := IsDnsSetStatically();
      var validDnsServers := DnsOnly(activeDns);
      status := DecideStatus(isStatic, validDnsServers, activeInterface.value);
    }

    method GetNetworkInterfaces() returns (interfaces: seq<NetworkInterface>)
      modifies this
      ensures interfaces == InterfacesOf(run, parseAdapters) && log == InterfacesLog(run, parseAdapters, old(log))
      ensures Unchanged()
    {
      var o := Execute(AdapterListCommand);
      if o.Err? || Trim(o.stdout) == "" || Contains(o.stdout, "error") {
        interfaces := GetNetworkInterfacesNetsh();
        return;
      }
      var parsed := parseAdapters(o.stdout);
      if parsed.None? {
        interfaces := GetNetworkInterfacesNetsh();
        return;
      }
      var adapters := parsed.value;
      interfaces := seq(|adapters|, i requires 0 <= i < |adapters| => AdapterInterface(adapters[i]));
    }

    method GetNetworkInterfacesNetsh() returns (interfaces: seq<NetworkInterface>)
      modifies this
      ensures var table := run(TableCommand);
        interfaces == (if table.Err? then [] else TableInterfaces(table.stdout, InterfaceKinds()))
      ensures log == old(log) + [TableCommand]
      ensures Unchanged()
    {
      var o := Execute(TableCommand);
      if o.Err? {
        return [];
      }
      interfaces := ReadTable(o.stdout, InterfaceKinds());
    }

    /** `flushDnsCache`: the flush command's own outcome. */
    method FlushDnsCache() returns (r: OpResult)
      modifies this
      ensures r == (if run(FlushCommand).Ok? then Success(CacheFlushed) else Failure(run(FlushCommand).message))
      ensures log == old(log) + [FlushCommand]
      ensures Unchanged()
    {
      var o := Execute(FlushCommand);
      r := if o.Ok? then Success(CacheFlushed) else Failure(o.message);
    }

    /**
     * `pingServer`: `elapsed` stands for the clock readings around the request; a failure has
     * latency -1 and carries the message.
     */
    method PingServer(server: string, elapsed: nat) returns (r: PingResult)
      modifies this
      ensures r.server == server && (r.success <==> run(PingCommand(server)).Ok?)
      ensures r.success ==> r.latency == elapsed && r.error.None?
      ensures !r.success ==> r.latency == -1 && r.error == Some(run(PingCommand(server)).message)
      ensures log == old(log) + [PingCommand(server)]
      ensures Unchanged()
    {
      var o := Execute(PingCommand(server));
      if o.Err? {
        return PingResult(server, -1, false, Some(o.message));
      }
      r := PingResult(server, elapsed, true, None);
    }

    /** `isElevated`: PowerShell's answer, trimmed and lower-cased, is `true`; a failure is a no. */
    method IsElevated() returns (elevated: bool)
      modifies this
      ensures var o := run(PowerShellCommand(AdminQuery));
        elevated <==> o.Ok? && ToLower(Trim(o.stdout)) == "true"
      ensures log == old(log) + [PowerShellCommand(AdminQuery)]
      ensures Unchanged()
    {
      var o := PowerShell(AdminQuery);
      elevated := o.Ok? && ToLower(Trim(o.stdout)) == "true";
    }

    /** `setInterface`: the interface is selected and the detected one forgotten. */
    method SetInterface(name: string)
      modifies this
      ensures selectedInterface == Some(name) && cachedInterfaceName.None? && log == old(log)
    {
      selectedInterface := Some(name);
      cachedInterfaceName := None;
    }
  }

  /** The provider loop of `getStatus`: the first address that is a known provider. */
  method MatchKnownProvider(valid: seq<string>) returns (matched: Option<string>)
    ensures matched == Find(valid, Known())
  {
    var i := 0;
    while i < |valid|
      invariant 0 <= i <= |valid|
      invariant Find(valid, Known()) == Find(valid[i..], Known())
    {
      assert valid[i..][1..] == valid[i + 1..];
      if valid[i] in KnownProviders {
        return Some(valid[i]);
      }
      i := i + 1;
    }
    matched := None;
  }

  /** The verdict of `getStatus`: the provider loop, then the home-router test. */
  method DecideStatus(isStatic: bool, validDnsServers: seq<string>, activeInterface: NetworkInterface) returns (status: DnsStatus)
    ensures status == Verdict(isStatic, validDnsServers, activeInterface)
  {
    var connected := false;
    var matched := None;
    if isStatic && |validDnsServers| > 0 {
      matched := MatchKnownProvider(validDnsServers);
      connected := matched.Some?;
      if !connected {
        var gatewayLike := forall i :: 0 <= i < |validDnsServers| ==> GatewayLike(validDnsServers[i]);
        if !gatewayLike {
          connected := true;
        }
      }
    }
    status := DnsStatus(connected, validDnsServers, matched, None, Some(activeInterface));
  }
}
