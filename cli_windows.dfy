/**
 * The command-line tool's Windows backend. It changes DNS with `netsh` alone, through the
 * elevated runner; it finds the interface by the default route or by trying three common
 * names, and keeps the name it found as the selected interface. Commands are oracles and
 * the ghost field `log` records them in order.
 */
module CliWindows {
  import opened Wrappers
  import opened Text
  import opened Lists
  import opened Shell
  import opened Patterns
  import opened Interfaces
  import opened Netsh

  /** The route query, a complete command line run as it is. */
  const RouteCommand: string :=
    "powershell -NoProfile -Command \"Get-NetRoute -DestinationPrefix 0.0.0.0/0 | Select-Object -ExpandProperty InterfaceAlias | Select-Object -First 1\""

  /** The names tried, in order, when the route gives none. */
  const CommonNames: seq<string> := ["Wi-Fi", "Ethernet", "Local Area Connection"]

  const NoInterfaceFound: string := "No active network interface found"
  const FlushCommand: string := "ipconfig /flushdns"
  const SessionCommand: string := "net session"

  function PingCommand(server: string): string {
    "ping -n 1 -w 3000 " + server
  }

  function ShowInterfaceCommand(name: string): string {
    "netsh interface show interface name=\"" + name + "\""
  }

  function ShowDnsCommand(name: string): string {
    "netsh interface ip show dns \"" + name + "\""
  }

  function SetPrimaryCommand(name: string, primary: string): string {
    "netsh interface ip set dns name=\"" + name + "\" static " + primary
  }

  function AddSecondaryCommand(name: string, secondary: string): string {
    "netsh interface ip add dns name=\"" + name + "\" " + secondary + " index=2"
  }

  function DhcpCommand(name: string): string {
    "netsh interface ip set dns name=\"" + name + "\" dhcp"
  }

  // ---------------------------------------------------------------- the active interface

  /** The route's answer: its trimmed output, when that is not empty. */
  function RouteName(o: Outcome): Option<string> {
    if o.Ok? && Trim(o.stdout) != "" then Some(Trim(o.stdout)) else None
  }

  /** Whether the report on a name says `Connected`, with that capital letter. */
  predicate SaysConnected(o: Outcome) {
    o.Ok? && Contains(o.stdout, "Connected")
  }

  /** The first of `names` whose report says connected. */
  function FirstConnected(names: seq<string>, run: Oracle): Option<string> {
    if names == [] then None
    else if SaysConnected(run(ShowInterfaceCommand(names[0]))) then Some(names[0])
    else FirstConnected(names[1..], run)
  }

  /** The reports asked for: one per name, up to the first that says connected. */
  function NamesLog(names: seq<string>, run: Oracle): seq<string> {
    if names == [] then []
    else if SaysConnected(run(ShowInterfaceCommand(names[0]))) then [ShowInterfaceCommand(names[0])]
    else [ShowInterfaceCommand(names[0])] + NamesLog(names[1..], run)
  }

  /** A name found is one of `names` whose report says connected; none is found only when no report says so. */
  lemma {:induction false} FirstConnectedFound(names: seq<string>, run: Oracle)
    ensures var r := FirstConnected(names, run);
      && (r.Some? ==> r.value in names && SaysConnected(run(ShowInterfaceCommand(r.value))))
      && (r.None? ==> forall j :: 0 <= j < |names| ==> !SaysConnected(run(ShowInterfaceCommand(names[j]))))
  {
    if names != [] && !SaysConnected(run(ShowInterfaceCommand(names[0]))) {
      FirstConnectedFound(names[1..], run);
    }
  }

  /**
   * When the name at `k` is the first whose report says connected, it is the one found, and
   * the reports asked for are those on the names up to it, in order.
   */
  lemma {:induction false} FirstConnectedAt(names: seq<string>, run: Oracle, k: nat)
    requires k < |names| && SaysConnected(run(ShowInterfaceCommand(names[k])))
    requires forall j :: 0 <= j < k ==> !SaysConnected(run(ShowInterfaceCommand(names[j])))
    ensures FirstConnected(names, run) == Some(names[k])
    ensures |NamesLog(names, run)| == k + 1
    ensures forall j :: 0 <= j <= k ==> NamesLog(names, run)[j] == ShowInterfaceCommand(names[j])
  {
    if k > 0 {
      assert !SaysConnected(run(ShowInterfaceCommand(names[0])));
      FirstConnectedAt(names[1..], run, k - 1);
    }
  }

  /** When no report says connected, nothing is found and every name was asked about, in order. */
  lemma {:induction false} FirstConnectedNone(names: seq<string>, run: Oracle)
    requires forall j :: 0 <= j < |names| ==> !SaysConnected(run(ShowInterfaceCommand(names[j])))
    ensures FirstConnected(names, run) == None
    ensures |NamesLog(names, run)| == |names|
    ensures forall j :: 0 <= j < |names| ==> NamesLog(names, run)[j] == ShowInterfaceCommand(names[j])
  {
    if names != [] {
      assert !SaysConnected(run(ShowInterfaceCommand(names[0])));
      FirstConnectedNone(names[1..], run);
    }
  }

  /** The route's name, or else the first common name that says connected. */
  function Discovered(run: Oracle): Option<string> {
    var route := RouteName(run(RouteCommand));
    if route.Some? then route else FirstConnected(CommonNames, run)
  }

  function DiscoveryLog(run: Oracle, log: seq<string>): seq<string> {
    if RouteName(run(RouteCommand)).Some? then log + [RouteCommand]
    else log + [RouteCommand] + NamesLog(CommonNames, run)
  }

  /** An interface is selected when the field holds a non-empty name. */
  predicate Selects(selected: Option<string>) {
    selected.Some? && selected.value != ""
  }

  /** `getActiveInterface`: the selected interface, or the one discovered, which becomes the selected one. */
  function ActiveStep(selected: Option<string>, run: Oracle, log: seq<string>): After<Attempt<string>> {
    if Selects(selected) then After(Returned(selected.value), selected, log)
    else
      match Discovered(run)
      case Some(name) => After(Returned(name), Some(name), DiscoveryLog(run, log))
      case None => After(Threw(NoInterfaceFound), selected, DiscoveryLog(run, log))
  }

  /**
   * A discovered name is kept as the selected interface: asking again returns it without a
   * command, whatever the commands would now answer. When nothing is found, the call fails
   * and the route and every common name have been asked about.
   */
  lemma ActiveInterfaceKept(selected: Option<string>, run: Oracle, later: Oracle, log: seq<string>, log2: seq<string>)
    ensures var first := ActiveStep(selected, run, log);
      && (first.value.Returned? && first.value.value != "" ==>
            first.cached == Some(first.value.value)
            && ActiveStep(first.cached, later, log2) == After(first.value, first.cached, log2))
      && (first.value.Threw? ==>
            first.value.message == NoInterfaceFound && first.cached == selected
            && first.log == log + [RouteCommand] + NamesLog(CommonNames, run)
            && forall j :: 0 <= j < |CommonNames| ==> !SaysConnected(run(ShowInterfaceCommand(CommonNames[j]))))
  {
    FirstConnectedFound(CommonNames, run);
  }

  // ---------------------------------------------------------------- setDns and clearDns

  /** An entry of the server list, as a template string shows it: `undefined` when it is missing. */
  function Entry(servers: seq<string>, i: nat): string {
    if i < |servers| then servers[i] else "undefined"
  }

  /** The secondary is added when there is a second entry and it is not empty. */
  function Secondary(servers: seq<string>): Option<string> {
    if |servers| >= 2 && servers[1] != "" then Some(servers[1]) else None
  }

  /** `setDns` once the interface is known: the primary, the secondary if any, then the flush. */
  function SetOutcome(name: string, servers: seq<string>, sudo: Oracle): (r: OpResult)
    ensures r.Success? <==>
      (sudo(SetPrimaryCommand(name, Entry(servers, 0))).Ok? &&
       (Secondary(servers).None? || sudo(AddSecondaryCommand(name, Secondary(servers).value)).Ok?))
    ensures r.Success? ==> r.message == DnsUpdated
    ensures r.Failure? && sudo(SetPrimaryCommand(name, Entry(servers, 0))).Err? ==>
      r.error == sudo(SetPrimaryCommand(name, Entry(servers, 0))).message
  {
    var first := sudo(SetPrimaryCommand(name, Entry(servers, 0)));
    if first.Err? then Failure(first.message)
    else match Secondary(servers)
      case None => Success(DnsUpdated)
      case Some(s) =>
        var second := sudo(AddSecondaryCommand(name, s));
        if second.Err? then Failure(second.message) else Success(DnsUpdated)
  }

  function SetLog(name: string, servers: seq<string>, sudo: Oracle, log: seq<string>): seq<string> {
    var log1 := log + [SetPrimaryCommand(name, Entry(servers, 0))];
    if sudo(SetPrimaryCommand(name, Entry(servers, 0))).Err? then log1
    else match Secondary(servers)
      case None => log1 + [FlushCommand]
      case Some(s) =>
        var log2 := log1 + [AddSecondaryCommand(name, s)];
        if sudo(AddSecondaryCommand(name, s)).Err? then log2 else log2 + [FlushCommand]
  }

  /** `setDns`: a failure to find the interface is reported with its message. */
  function SetDnsStep(servers: seq<string>, selected: Option<string>, run: Oracle, sudo: Oracle, log: seq<string>): After<OpResult> {
    var a := ActiveStep(selected, run, log);
    match a.value
    case Threw(m) => After(Failure(m), a.cached, a.log)
    case Returned(name) => After(SetOutcome(name, servers, sudo), a.cached, SetLog(name, servers, sudo, a.log))
  }

  /**
   * Nothing is checked before `netsh` runs: a list without entries sets the text `undefined`,
   * and an empty second entry is skipped.
   */
  lemma NothingValidated(name: string, sudo: Oracle, log: seq<string>)
    ensures SetLog(name, [], sudo, log)[|log|] == SetPrimaryCommand(name, "undefined")
    ensures SetLog(name, ["1.1.1.1", ""], sudo, log) == SetLog(name, ["1.1.1.1"], sudo, log)
  {
    assert Secondary(["1.1.1.1", ""]) == None == Secondary(["1.1.1.1"]);
  }

  /** `clearDns` once the interface is known: back to DHCP, then the flush. */
  function ClearOutcome(name: string, sudo: Oracle): (r: OpResult)
    ensures r.Success? <==> sudo(DhcpCommand(name)).Ok?
    ensures r.Success? ==> r.message == DnsResetToDhcp
    ensures r.Failure? ==> r.error == sudo(DhcpCommand(name)).message
  {
    var o := sudo(DhcpCommand(name));
    if o.Err? then Failure(o.message) else Success(DnsResetToDhcp)
  }

  function ClearDnsStep(selected: Option<string>, run: Oracle, sudo: Oracle, log: seq<string>): After<OpResult> {
    var a := ActiveStep(selected, run, log);
    match a.value
    case Threw(m) => After(Failure(m), a.cached, a.log)
    case Returned(name) =>
      var log1 := a.log + [DhcpCommand(name)];
      After(ClearOutcome(name, sudo), a.cached, if sudo(DhcpCommand(name)).Err? then log1 else log1 + [FlushCommand])
  }

  // ---------------------------------------------------------------- reading the servers back

  function QuadFinder(): string -> Option<string> {
    (line: string) => FindQuad(line)
  }

  /** `getActiveDns`: the first dotted quad of every line of the listing, without repetition. */
  function DnsStep(selected: Option<string>, run: Oracle, log: seq<string>): After<seq<string>> {
    var a := ActiveStep(selected, run, log);
    match a.value
    case Threw(_) => After([], a.cached, a.log)
    case Returned(name) =>
      var o := run(ShowDnsCommand(name));
      After(if o.Err? then [] else Dedupe(Collect(Split(o.stdout, '\n'), QuadFinder())), a.cached, a.log + [ShowDnsCommand(name)])
  }

  /** The addresses read are distinct, and each is the first dotted quad of some line. */
  lemma ActiveDnsDistinct(selected: Option<string>, run: Oracle, log: seq<string>)
    requires ActiveStep(selected, run, log).value.Returned?
    requires run(ShowDnsCommand(ActiveStep(selected, run, log).value.value)).Ok?
    ensures var output := run(ShowDnsCommand(ActiveStep(selected, run, log).value.value)).stdout;
      var r := DnsStep(selected, run, log).value;
      && NoDuplicates(r)
      && forall x :: x in r <==> exists i :: 0 <= i < |Split(output, '\n')| && FindQuad(Split(output, '\n')[i]) == Some(x)
  {
    var output := run(ShowDnsCommand(ActiveStep(selected, run, log).value.value)).stdout;
    AddressesDistinct(output, QuadFinder());
  }

  // ---------------------------------------------------------------- getStatus

  /** The listing says, in any case, `statically configured`. */
  predicate StaticReport(output: string) {
    Contains(ToLower(output), "statically configured")
  }

  /**
   * `getStatus`: the servers, the interface again, and the listing once more. Connected
   * means a static configuration with at least one server; a failure of the interface or of
   * the listing gives the empty status.
   */
  function StatusStep(selected: Option<string>, run: Oracle, log: seq<string>): (r: After<DnsStatus>)
    ensures r.value.isConnected ==> r.value.activeDns != []
    ensures r.value.activeInterface.None? && r.value.serverName.None? && r.value.serverKey.None?
  {
    var d := DnsStep(selected, run, log);
    var b := ActiveStep(d.cached, run, d.log);
    match b.value
    case Threw(_) => After(PlainStatus(false, []), b.cached, b.log)
    case Returned(name) =>
      var o := run(ShowDnsCommand(name));
      var log1 := b.log + [ShowDnsCommand(name)];
      if o.Err? then After(PlainStatus(false, []), b.cached, log1)
      else After(PlainStatus(StaticReport(o.stdout) && d.value != [], d.value), b.cached, log1)
  }

  /**
   * With an interface selected, the status reads the same listing twice: connected exactly
   * when that listing says `statically configured` and shows some dotted quad, whose
   * addresses are the ones reported; a failed listing gives the empty status.
   */
  lemma StatusOfSelected(name: string, run: Oracle, log: seq<string>)
    requires name != ""
    ensures var o := run(ShowDnsCommand(name));
      var r := StatusStep(Some(name), run, log);
      && r.log == log + [ShowDnsCommand(name), ShowDnsCommand(name)] && r.cached == Some(name)
      && (o.Err? ==> r.value == PlainStatus(false, []))
      && (o.Ok? ==>
            r.value.activeDns == Dedupe(Collect(Split(o.stdout, '\n'), QuadFinder()))
            && (r.value.isConnected <==> StaticReport(o.stdout) && exists line :: line in Split(o.stdout, '\n') && FindQuad(line).Some?))
  {
    var o := run(ShowDnsCommand(name));
    if o.Ok? {
      SomeAddressRead(o.stdout);
    }
  }

  /** Some address is read exactly when some line holds a dotted quad. */
  lemma SomeAddressRead(output: string)
    ensures Dedupe(Collect(Split(output, '\n'), QuadFinder())) != [] <==>
      exists line :: line in Split(output, '\n') && FindQuad(line).Some?
  {
    var lines := Split(output, '\n');
    AddressesDistinct(output, QuadFinder());
    var r := Dedupe(Collect(lines, QuadFinder()));
    if r != [] {
      assert r[0] in r;
    }
    if exists line :: line in lines && FindQuad(line).Some? {
      var line :| line in lines && FindQuad(line).Some?;
      var i :| 0 <= i < |lines| && lines[i] == line;
      assert FindQuad(lines[i]).value in r;
    }
  }

  // ---------------------------------------------------------------- interfaces

  /** The interface type from the lower-cased name alone; the type cell is not read. */
  function CliKind(name: string, typeCell: string): InterfaceType {
    var lower := ToLower(name);
    if Contains(lower, "wi-fi") || Contains(lower, "wireless") then Wifi
    else if Contains(lower, "ethernet") then Ethernet
    else OtherType
  }

  function CliKinds(): (string, string) -> InterfaceType {
    (name: string, typeCell: string) => CliKind(name, typeCell)
  }

  /** The type does not depend on the case of the name. */
  lemma CliKindIgnoresCase(name: string, typeCell: string)
    ensures CliKind(ToLower(name), typeCell) == CliKind(name, typeCell)
  {
    ToLowerIdempotent(name);
  }

  /** `getNetworkInterfaces`: the enabled rows of the interface table; none when the table fails. */
  function InterfacesOf(run: Oracle): seq<NetworkInterface> {
    var o := run(TableCommand);
    if o.Err? then [] else TableInterfaces(o.stdout, CliKinds())
  }

  // ---------------------------------------------------------------- the backend

  class CliWindowsPlatform {
    var selectedInterface: Option<string>
    const run: Oracle
    const sudo: Oracle
    ghost var log: seq<string>

    constructor(run: Oracle, sudo: Oracle)
      ensures this.run == run && this.sudo == sudo
      ensures selectedInterface.None? && log == []
    {
      this.run := run;
      this.sudo := sudo;
      selectedInterface := None;
      log := [];
    }

    /** `execute`. */
    method Execute(command: string) returns (o: Outcome)
      modifies this
      ensures o == run(command) && log == old(log) + [command]
      ensures selectedInterface == old(selectedInterface)
    {
      o := run(command);
      log := log + [command];
    }

    /** `executeElevated`. */
    method Elevated(command: string) returns (o: Outcome)
      modifies this
      ensures o == sudo(command) && log == old(log) + [command]
      ensures selectedInterface == old(selectedInterface)
    {
      o := sudo(command);
      log := log + [command];
    }

    /** The loop over the common names, up to the first whose report says connected. */
    method TryNames(names: seq<string>) returns (name: Option<string>)
      modifies this
      ensures name == FirstConnected(names, run) && log == old(log) + NamesLog(names, run)
      ensures selectedInterface == old(selectedInterface)
    {
      var i := 0;
      while i < |names|
        invariant 0 <= i <= |names|
        invariant FirstConnected(names[i..], run) == FirstConnected(names, run)
        invariant log + NamesLog(names[i..], run) == old(log) + NamesLog(names, run)
        invariant selectedInterface == old(selectedInterface)
      {
        var o := Execute(ShowInterfaceCommand(names[i]));
        assert names[i..][1..] == names[i + 1..];
        if o.Ok? && Contains(o.stdout, "Connected") {
          return Some(names[i]);
        }
        i := i + 1;
      }
      name := None;
    }

    method GetActiveInterface() returns (r: Attempt<string>)
      modifies this
      ensures var s := ActiveStep(old(selectedInterface), run, old(log));
        r == s.value && selectedInterface == s.cached && log == s.log
    {
      if selectedInterface.Some? && selectedInterface.value != "" {
        return Returned(selectedInterface.value);
      }
      var o := Execute(RouteCommand);
      if o.Ok? && Trim(o.stdout) != "" {
        selectedInterface := Some(Trim(o.stdout));
        return Returned(Trim(o.stdout));
      }
      var name := TryNames(CommonNames);
      if name.None? {
        return Threw(NoInterfaceFound);
      }
      selectedInterface := name;
      r := Returned(name.value);
    }

    method SetDns(servers: seq<string>) returns (r: OpResult)
      modifies this
      ensures var s := SetDnsStep(servers, old(selectedInterface), run, sudo, old(log));
        r == s.value && selectedInterface == s.cached && log == s.log
    {
      var name := GetActiveInterface();
      if name.Threw? {
        return Failure(name.message);
      }
      var primary := if |servers| >= 1 then servers[0] else "undefined";
      var first := Elevated(SetPrimaryCommand(name.value, primary));
      if first.Err? {
        return Failure(first.message);
      }
      if |servers| >= 2 && servers[1] != "" {
        var second := Elevated(AddSecondaryCommand(name.value, servers[1]));
        if second.Err? {
          return Failure(second.message);
        }
      }
      var flushed := FlushDnsCache();
      r := Success(DnsUpdated);
    }

    method ClearDns() returns (r: OpResult)
      modifies this
      ensures var s := ClearDnsStep(old(selectedInterface), run, sudo, old(log));
        r == s.value && selectedInterface == s.cached && log == s.log
    {
      var name := GetActiveInterface();
      if name.Threw? {
        return Failure(name.message);
      }
      var o := Elevated(DhcpCommand(name.value));
      if o.Err? {
        return Failure(o.message);
      }
      var flushed := FlushDnsCache();
      r := Success(DnsResetToDhcp);
    }

    method GetActiveDns() returns (dns: seq<string>)
      modifies this
      ensures var s := DnsStep(old(selectedInterface), run, old(log));
        dns == s.value && selectedInterface == s.cached && log == s.log
    {
      var name := GetActiveInterface();
      if name.Threw? {
        return [];
      }
      var o := Execute(ShowDnsCommand(name.value));
      if o.Err? {
        return [];
      }
      dns := ExtractAddresses(o.stdout, QuadFinder());
    }

    method GetStatus() returns (status: DnsStatus)
      modifies this
      ensures var s := StatusStep(old(selectedInterface), run, old(log));
        status == s.value && selectedInterface == s.cached && log == s.log
    {
      var activeDns := GetActiveDns();
      var name := GetActiveInterface();
      if name.Threw? {
        return PlainStatus(false, []);
      }
      var o := Execute(ShowDnsCommand(name.value));
      if o.Err? {
        return PlainStatus(false, []);
      }
      var isStatic := Contains(ToLower(o.stdout), "statically configured");
      status := PlainStatus(isStatic && |activeDns| > 0, activeDns);
    }

    method GetNetworkInterfaces() returns (interfaces: seq<NetworkInterface>)
      modifies this
      ensures interfaces == InterfacesOf(run) && log == old(log) + [TableCommand]
      ensures selectedInterface == old(selectedInterface)
    {
      var o := Execute(TableCommand);
      if o.Err? {
        return [];
      }
      interfaces := ReadTable(o.stdout, CliKinds());
    }

    /** `flushDnsCache`: the elevated flush's own outcome. */
    method FlushDnsCache() returns (r: OpResult)
      modifies this
      ensures r == (if sudo(FlushCommand).Ok? then Success(CacheFlushed) else Failure(sudo(FlushCommand).message))
      ensures log == old(log) + [FlushCommand]
      ensures selectedInterface == old(selectedInterface)
    {
      var o := Elevated(FlushCommand);
      r := if o.Ok? then Success(CacheFlushed) else Failure(o.message);
    }

    /**
     * `pingServer`: one echo request with a three-second wait. `elapsed` stands for the clock
     * readings around it; a failure has latency -1 and carries the message.
     */
    method PingServer(server: string, elapsed: nat) returns (r: PingResult)
      modifies this
      ensures r.server == server && (r.success <==> run(PingCommand(server)).Ok?)
      ensures r.success ==> r.latency == elapsed && r.error.None?
      ensures !r.success ==> r.latency == -1 && r.error == Some(run(PingCommand(server)).message)
      ensures log == old(log) + [PingCommand(server)] && selectedInterface == old(selectedInterface)
    {
      var o := Execute(PingCommand(server));
      if o.Err? {
        return PingResult(server, -1, false, Some(o.message));
      }
      r := PingResult(server, elapsed, true, None);
    }

    /** `isElevated`: whether `net session` succeeds. */
    method IsElevated() returns (elevated: bool)
      modifies this
      ensures elevated <==> run(SessionCommand).Ok?
      ensures log == old(log) + [SessionCommand] && selectedInterface == old(selectedInterface)
    {
      var o := Execute(SessionCommand);
      elevated := o.Ok?;
    }

    /** `setInterface`: nothing runs. */
    method SetInterface(name: string)
      modifies this
      ensures selectedInterface == Some(name) && log == old(log)
    {
      selectedInterface := Some(name);
    }
  }
}
