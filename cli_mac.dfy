/**
 * The command-line tool's macOS backend. Like the desktop one it changes DNS with
 * `networksetup` on every active network service, but it scans the services again on every
 * call, resets one default service fewer, flushes with two commands and reports a failed
 * reset without details. Commands are oracles and the ghost field `log` records them.
 */
module CliMac {
  import opened Wrappers
  import opened Text
  import opened Lists
  import opened Shell
  import opened Interfaces
  import opened Networksetup

  /** The services `clearDns` resets when none is active. */
  const DefaultServices: seq<string> := [
    "Wi-Fi", "Ethernet", "USB 10/100/1000 LAN", "Thunderbolt Ethernet", "Thunderbolt Bridge", "USB Ethernet"]

  /** The cache flush runs both commands and ignores their failures. */
  const FlushCommands: seq<string> := ["dscacheutil -flushcache", "killall -HUP mDNSResponder"]

  /** One echo request, waiting at most three seconds. */
  function PingCommand(server: string): string {
    "ping -c 1 -t 3 " + server
  }

  const ClearFailed: string := "Failed to clear DNS"

  // ---------------------------------------------------------------- the primary service

  /** `getPrimaryService`: the selected service, or else the preferred active one. */
  function PrimaryOf(selected: Option<string>, run: Oracle): (r: Option<string>)
    ensures Chosen(selected) ==> r == selected
    ensures !Chosen(selected) ==> (r.None? <==> ActiveServices(run) == [])
    ensures !Chosen(selected) && r.Some? ==> r.value in ActiveServices(run)
  {
    if Chosen(selected) then selected else Preferred(ActiveServices(run))
  }

  function PrimaryLog(selected: Option<string>, run: Oracle, log: seq<string>): seq<string> {
    if Chosen(selected) then log else ScanLog(run, log)
  }

  /** Unless one is selected, the primary service is a listed service that shows an address. */
  lemma PrimaryIsConnected(selected: Option<string>, run: Oracle)
    requires !Chosen(selected) && PrimaryOf(selected, run).Some?
    ensures Listed(PrimaryOf(selected, run).value) && Connected(PrimaryOf(selected, run).value, run)
  {
    ActiveServicesConnected(run, PrimaryOf(selected, run).value);
  }

  /** `getActiveDns`: the servers listed for the primary service, none without one. */
  function DnsOf(selected: Option<string>, run: Oracle): (r: seq<string>)
    ensures forall i :: 0 <= i < |r| ==> Patterns.IsQuadLine(r[i])
  {
    match PrimaryOf(selected, run)
    case None => []
    case Some(p) =>
      var output := run(GetServersCommand(p));
      if output.Err? then []
      else
        ServersListedAreQuads(output.stdout);
        ServersListed(output.stdout)
  }

  function DnsLog(selected: Option<string>, run: Oracle, log: seq<string>): seq<string> {
    var log1 := PrimaryLog(selected, run, log);
    match PrimaryOf(selected, run)
    case None => log1
    case Some(p) => log1 + [GetServersCommand(p)]
  }

  // ---------------------------------------------------------------- clearing the servers

  /**
   * `clearDns` once the services are known. Without active services the defaults are reset
   * and the result is a success. Otherwise it succeeds when at least one service was reset,
   * and otherwise fails without naming the services' errors.
   */
  function ClearOutcome(services: seq<string>, sudo: Oracle): (r: OpResult)
    ensures services == [] ==> r == Success(DnsReset)
    ensures services != [] ==> (r.Success? <==> exists i :: 0 <= i < |services| && sudo(EmptyCommand()(services[i])).Ok?)
    ensures r.Failure? ==> r.error == ClearFailed
    ensures r.Success? && services != [] ==>
      r.message == "DNS reset on " + ServiceCount(CountWhere(services, Accepts(EmptyCommand(), sudo)))
  {
    TallyAddsUp(services, EmptyCommand(), sudo);
    TallyCountsAndCollects(services, EmptyCommand(), sudo);
    if services == [] then Success(DnsReset)
    else
      var t := TallyOf(services, EmptyCommand(), sudo);
      if t.accepted > 0 then Success("DNS reset on " + ServiceCount(t.accepted))
      else Failure(ClearFailed)
  }

  // ---------------------------------------------------------------- interfaces

  /** The interface type from the lower-cased service name. */
  function CliKind(name: string): InterfaceType {
    var lower := ToLower(name);
    if Contains(lower, "wi-fi") then Wifi
    else if Contains(lower, "ethernet") then Ethernet
    else OtherType
  }

  function CliKinds(): string -> InterfaceType {
    (name: string) => CliKind(name)
  }

  /** The type does not depend on the case of the name. */
  lemma CliKindIgnoresCase(name: string)
    ensures CliKind(ToLower(name)) == CliKind(name)
  {
    ToLowerIdempotent(name);
  }

  // ---------------------------------------------------------------- the backend

  class CliMacPlatform {
    var selectedService: Option<string>
    const run: Oracle
    const sudo: Oracle
    ghost var log: seq<string>

    constructor(run: Oracle, sudo: Oracle)
      ensures this.run == run && this.sudo == sudo
      ensures selectedService.None? && log == []
    {
      this.run := run;
      this.sudo := sudo;
      selectedService := None;
      log := [];
    }

    /** `getActiveNetworkServices`: the listing, then the information on each listed service. */
    method GetActiveNetworkServices() returns (services: seq<string>)
      modifies this
      ensures services == ActiveServices(run)
      ensures log == ScanLog(run, old(log))
      ensures selectedService == old(selectedService)
    {
      var listing := run(ListCommand);
      log := log + [ListCommand];
      if listing.Err? {
        return [];
      }
      services := KeepConnected(ServicesIn(listing.stdout));
    }

    /** The loop of a scan: the information on every service, keeping the connected ones. */
    method KeepConnected(services: seq<string>) returns (active: seq<string>)
      modifies this
      ensures active == Filter(services, ConnectedWith(run))
      ensures log == EachLog(services, InfoCommand(), old(log))
      ensures selectedService == old(selectedService)
    {
      active := [];
      var i := 0;
      while i < |services|
        invariant 0 <= i <= |services|
        invariant active == Collect(services[..i], Keep(ConnectedWith(run)))
        invariant log == EachLog(services[..i], InfoCommand(), old(log))
        invariant selectedService == old(selectedService)
      {
        CollectPush(services, i, Keep(ConnectedWith(run)), active);
        EachLogPush(services, i, InfoCommand(), old(log));
        var connected := IsConnected(services[i]);
        if connected {
          active := active + [services[i]];
        }
        i := i + 1;
      }
      assert services[..|services|] == services;
      FilterIsCollect(services, ConnectedWith(run));
    }

    /** One step of a scan: the information on one service. */
    method IsConnected(service: string) returns (connected: bool)
      modifies this
      ensures connected == Connected(service, run)
      ensures log == old(log) + [InfoCommand()(service)]
      ensures selectedService == old(selectedService)
    {
      var info := run(InfoCommand()(service));
      log := log + [InfoCommand()(service)];
      connected := info.Ok? && HasAddress(info.stdout);
    }

    method GetPrimaryService() returns (primary: Option<string>)
      modifies this
      ensures primary == PrimaryOf(old(selectedService), run)
      ensures log == PrimaryLog(old(selectedService), run, old(log))
      ensures selectedService == old(selectedService)
    {
      if selectedService.Some? && selectedService.value != "" {
        return selectedService;
      }
      var active := GetActiveNetworkServices();
      if "Wi-Fi" in active {
        return Some("Wi-Fi");
      }
      if "Ethernet" in active {
        return Some("Ethernet");
      }
      primary := if active != [] then Some(active[0]) else None;
    }

    /**
     * The loop of `setDns` and `clearDns`: the command on every service, counting the
     * successes and collecting the errors.
     */
    method ApplyToEach(services: seq<string>, command: string -> string) returns (count: nat, errors: seq<string>)
      modifies this
      ensures Tally(count, errors) == TallyOf(services, command, sudo)
      ensures log == EachLog(services, command, old(log))
      ensures selectedService == old(selectedService)
    {
      count := 0;
      errors := [];
      var i := 0;
      while i < |services|
        invariant 0 <= i <= |services|
        invariant Tally(count, errors) == TallyOf(services[..i], command, sudo)
        invariant log == EachLog(services[..i], command, old(log))
        invariant selectedService == old(selectedService)
      {
        assert services[..i + 1][..i] == services[..i];
        var outcome := Elevated(command(services[i]));
        if outcome.Ok? {
          count := count + 1;
        } else {
          errors := errors + [services[i] + ": " + outcome.message];
        }
        i := i + 1;
      }
      assert services[..|services|] == services;
    }

    /** One elevated command. */
    method Elevated(command: string) returns (outcome: Outcome)
      modifies this
      ensures outcome == sudo(command) && log == old(log) + [command]
      ensures selectedService == old(selectedService)
    {
      outcome := sudo(command);
      log := log + [command];
    }

    method SetDns(servers: seq<string>) returns (r: OpResult)
      modifies this
      ensures r == SetOutcome(ActiveServices(run), servers, sudo)
      ensures log == SetDnsLog(ActiveServices(run), servers, sudo, FlushCommands, ScanLog(run, old(log)))
      ensures selectedService == old(selectedService)
    {
      var services := GetActiveNetworkServices();
      if |services| == 0 {
        return Failure(NoActiveConnection);
      }
      var count, errors := ApplyToEach(services, SetCommand(servers));
      if count > 0 {
        var flushed := FlushDnsCache();
        return Success("DNS updated on " + ServiceCount(count));
      }
      r := Failure("Failed to set DNS: " + Join(errors, ", "));
    }

    method ClearDns() returns (r: OpResult)
      modifies this
      ensures r == ClearOutcome(ActiveServices(run), sudo)
      ensures log == ClearDnsLog(ActiveServices(run), DefaultServices, sudo, FlushCommands, ScanLog(run, old(log)))
      ensures selectedService == old(selectedService)
    {
      var services := GetActiveNetworkServices();
      if |services| == 0 {
        var reset, ignored := ApplyToEach(DefaultServices, EmptyCommand());
        return Success(DnsReset);
      }
      var count, errors := ApplyToEach(services, EmptyCommand());
      if count > 0 {
        var flushed := FlushDnsCache();
        return Success("DNS reset on " + ServiceCount(count));
      }
      r := Failure(ClearFailed);
    }

    method GetActiveDns() returns (dns: seq<string>)
      modifies this
      ensures dns == DnsOf(old(selectedService), run)
      ensures log == DnsLog(old(selectedService), run, old(log))
      ensures selectedService == old(selectedService)
    {
      var primary := GetPrimaryService();
      if primary.None? {
        return [];
      }
      var output := run(GetServersCommand(primary.value));
      log := log + [GetServersCommand(primary.value)];
      if output.Err? {
        return [];
      }
      dns := ServersListed(output.stdout);
    }

    /** `getStatus`: connected exactly when the primary service lists servers. */
    method GetStatus() returns (status: DnsStatus)
      modifies this
      ensures status == PlainStatus(DnsOf(old(selectedService), run) != [], DnsOf(old(selectedService), run))
      ensures log == DnsLog(old(selectedService), run, old(log))
      ensures selectedService == old(selectedService)
    {
      var dns := GetActiveDns();
      status := PlainStatus(|dns| > 0, dns);
    }

    /** The loop of `getNetworkInterfaces`: every listed service is probed, in order. */
    method ProbeServices(names: seq<string>) returns (probed: seq<NetworkInterface>)
      modifies this
      ensures probed == Collect(names, ProbeWith(run, CliKinds()))
      ensures log == EachLog(names, InfoCommand(), old(log))
      ensures selectedService == old(selectedService)
    {
      probed := [];
      var i := 0;
      while i < |names|
        invariant 0 <= i <= |names|
        invariant probed == Collect(names[..i], ProbeWith(run, CliKinds()))
        invariant log == EachLog(names[..i], InfoCommand(), old(log))
        invariant selectedService == old(selectedService)
      {
        CollectPush(names, i, ProbeWith(run, CliKinds()), probed);
        EachLogPush(names, i, InfoCommand(), old(log));
        var found := ProbeService(names[i]);
        if found.Some? {
          probed := probed + [found.value];
        }
        i := i + 1;
      }
      assert names[..|names|] == names;
    }

    /** One step of `getNetworkInterfaces`: the information on one service. */
    method ProbeService(name: string) returns (found: Option<NetworkInterface>)
      modifies this
      ensures found == Probe(name, run, CliKinds())
      ensures log == old(log) + [InfoCommand()(name)]
      ensures selectedService == old(selectedService)
    {
      var info := run(InfoCommand()(name));
      log := log + [InfoCommand()(name)];
      if info.Ok? {
        found := Some(NetworkInterface(name, name, CliKind(name), HasAddress(info.stdout), AddressIn(info.stdout)));
      } else {
        found := None;
      }
    }

    method GetNetworkInterfaces() returns (interfaces: seq<NetworkInterface>)
      modifies this
      ensures interfaces == InterfacesFrom(run, CliKinds())
      ensures log == ScanLog(run, old(log))
      ensures selectedService == old(selectedService)
    {
      var listing := run(ListCommand);
      log := log + [ListCommand];
      if listing.Err? {
        return [];
      }
      var probed := ProbeServices(ServicesIn(listing.stdout));
      interfaces := Filter(probed, IsUp()) + Filter(probed, Not(IsUp()));
    }

    /** Runs both flush commands, ignoring failures; the flush always reports success. */
    method FlushDnsCache() returns (r: OpResult)
      modifies this
      ensures r == Success(CacheFlushed)
      ensures log == old(log) + FlushCommands
      ensures selectedService == old(selectedService)
    {
      var i := 0;
      while i < |FlushCommands|
        invariant 0 <= i <= |FlushCommands|
        invariant log == old(log) + FlushCommands[..i]
        invariant selectedService == old(selectedService)
      {
        var flushed := Elevated(FlushCommands[i]);
        assert FlushCommands[..i + 1] == FlushCommands[..i] + [FlushCommands[i]];
        i := i + 1;
      }
      r := Success(CacheFlushed);
    }

    /** `setNetworkService`: the service is selected; nothing runs. */
    method SetNetworkService(service: string)
      modifies this
      ensures selectedService == Some(service) && log == old(log)
    {
      selectedService := Some(service);
    }
    /**
     * `pingServer`: `elapsed` stands for the clock readings around the request; a failure has
     * latency -1 and carries the message.
     */
    method PingServer(server: string, elapsed: nat) returns (r: PingResult)
      modifies this
      ensures r.server == server && (r.success <==> run(PingCommand(server)).Ok?)
      ensures r.success ==> r.latency == elapsed && r.error.None?
      ensures !r.success ==> r.latency == -1 && r.error == Some(run(PingCommand(server)).message)
      ensures log == old(log) + [PingCommand(server)] && selectedService == old(selectedService)
    {
      var o := run(PingCommand(server));
      log := log + [PingCommand(server)];
      if o.Err? {
        return PingResult(server, -1, false, Some(o.message));
      }
      r := PingResult(server, elapsed, true, None);
    }

    /** `isElevated`: whether the user id is 0. */
    method IsElevated() returns (elevated: bool)
      modifies this
      ensures elevated <==> SaysRoot(run(UserIdCommand))
      ensures log == old(log) + [UserIdCommand] && selectedService == old(selectedService)
    {
      var o := run(UserIdCommand);
      log := log + [UserIdCommand];
      elevated := SaysRoot(o);
    }
  }
}
