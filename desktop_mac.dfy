/**
 * The desktop application's macOS backend. It changes DNS with `networksetup` on every
 * active network service. The active services are found by a scan that is remembered for ten
 * seconds; the clock reading is passed in as `now`. The two ways of running a command (plain
 * and elevated) are oracles, and the ghost field `log` records the commands issued.
 */
module DesktopMac {
  import opened Wrappers
  import opened Text
  import opened Lists
  import opened Shell
  import opened Interfaces
  import opened Networksetup

  /** How long, in milliseconds, a non-empty scan is reused. */
  const ServiceCacheTtl: int := 10000

  /** The services `clearDns` resets when none is active. */
  const DefaultServices: seq<string> := [
    "Wi-Fi", "Ethernet", "USB 10/100/1000 LAN", "Thunderbolt Ethernet", "Thunderbolt Bridge",
    "USB Ethernet", "Display Ethernet"]

  /** The cache flush runs all three commands and ignores their failures. */
  const FlushCommands: seq<string> := ["dscacheutil -flushcache", "killall -HUP mDNSResponder", "killall mDNSResponderHelper"]

  /** One echo request, waiting at most three seconds. */
  function PingCommand(server: string): string {
    "ping -c 1 -t 3 " + server
  }

  // ---------------------------------------------------------------- the remembered scan

  /** `cachedActiveServices` and `lastServiceCheck`. */
  datatype Cache = Cache(services: seq<string>, checkedAt: int)

  /** The remembered scan is reused when it found something and is less than ten seconds old. */
  predicate Fresh(cache: Cache, now: int) {
    |cache.services| > 0 && now - cache.checkedAt < ServiceCacheTtl
  }

  /** `getActiveNetworkServices` at time `now`: the remembered services, or a new scan. */
  function Lookup(cache: Cache, now: int, run: Oracle): seq<string> {
    if Fresh(cache, now) then cache.services else ActiveServices(run)
  }

  /** What the lookup leaves remembered: a scan is stored only when the listing could be read. */
  function Refreshed(cache: Cache, now: int, run: Oracle): Cache {
    if Fresh(cache, now) || run(ListCommand).Err? then cache else Cache(ActiveServices(run), now)
  }

  function LookupLog(cache: Cache, now: int, run: Oracle, log: seq<string>): seq<string> {
    if Fresh(cache, now) then log else ScanLog(run, log)
  }

  /**
   * Within ten seconds of the lookup that stored or reused it, a non-empty answer is given
   * again without running anything, whatever the system does in the meantime.
   */
  lemma CachedWithinTtl(cache: Cache, now: int, later: int, run: Oracle, laterRun: Oracle, log: seq<string>)
    requires Lookup(cache, now, run) != []
    requires later - Refreshed(cache, now, run).checkedAt < ServiceCacheTtl
    ensures var kept := Refreshed(cache, now, run);
      Lookup(kept, later, laterRun) == Lookup(cache, now, run) && LookupLog(kept, later, laterRun, log) == log
  {
  }

  /** A scan is run again once the remembered one is ten seconds old, or was empty. */
  lemma RescanWhenStale(cache: Cache, now: int, run: Oracle, log: seq<string>)
    requires cache.services == [] || now - cache.checkedAt >= ServiceCacheTtl
    ensures Lookup(cache, now, run) == ActiveServices(run)
    ensures LookupLog(cache, now, run, log) == ScanLog(run, log)
  {
  }

  // ---------------------------------------------------------------- the primary service

  /** `getPrimaryService`: the selected service, or else the preferred active one. */
  function PrimaryOf(selected: Option<string>, cache: Cache, now: int, run: Oracle): (r: Option<string>)
    ensures Chosen(selected) ==> r == selected
    ensures !Chosen(selected) ==> (r.None? <==> Lookup(cache, now, run) == [])
    ensures !Chosen(selected) && r.Some? ==> r.value in Lookup(cache, now, run)
  {
    if Chosen(selected) then selected else Preferred(Lookup(cache, now, run))
  }

  /** The remembered scan after `getPrimaryService`: a selected service needs no lookup. */
  function PrimaryCache(selected: Option<string>, cache: Cache, now: int, run: Oracle): Cache {
    if Chosen(selected) then cache else Refreshed(cache, now, run)
  }

  function PrimaryLog(selected: Option<string>, cache: Cache, now: int, run: Oracle, log: seq<string>): seq<string> {
    if Chosen(selected) then log else LookupLog(cache, now, run, log)
  }

  /** `getActiveDns`: the servers listed for the primary service, none without one. */
  function DnsOf(selected: Option<string>, cache: Cache, now: int, run: Oracle): (r: seq<string>)
    ensures forall i :: 0 <= i < |r| ==> Patterns.IsQuadLine(r[i])
  {
    match PrimaryOf(selected, cache, now, run)
    case None => []
    case Some(p) =>
      var output := run(GetServersCommand(p));
      if output.Err? then []
      else
        ServersListedAreQuads(output.stdout);
        ServersListed(output.stdout)
  }

  function DnsLog(selected: Option<string>, cache: Cache, now: int, run: Oracle, log: seq<string>): seq<string> {
    var log1 := PrimaryLog(selected, cache, now, run, log);
    match PrimaryOf(selected, cache, now, run)
    case None => log1
    case Some(p) => log1 + [GetServersCommand(p)]
  }

  /** With a service selected, reading the servers asks that service directly and scans nothing. */
  lemma SelectedServiceAsked(selected: Option<string>, cache: Cache, now: int, run: Oracle, log: seq<string>)
    requires Chosen(selected)
    ensures DnsLog(selected, cache, now, run, log) == log + [GetServersCommand(selected.value)]
    ensures PrimaryCache(selected, cache, now, run) == cache
  {
  }

  // ---------------------------------------------------------------- changing the servers

  /**
   * `clearDns` once the services are known. Without active services every default service is
   * reset, failures are ignored and the result is a success. Otherwise it succeeds when at
   * least one service was reset, and otherwise reports every service's error.
   */
  function ClearOutcome(services: seq<string>, sudo: Oracle): (r: OpResult)
    ensures services == [] ==> r == Success(DnsReset)
    ensures services != [] ==> (r.Success? <==> exists i :: 0 <= i < |services| && sudo(EmptyCommand()(services[i])).Ok?)
    ensures services != [] && r.Failure? ==>
      var errors := TallyOf(services, EmptyCommand(), sudo).errors;
      |errors| == |services| && r.error == "Failed to clear DNS: " + Join(errors, ", ")
  {
    TallyAddsUp(services, EmptyCommand(), sudo);
    if services == [] then Success(DnsReset)
    else
      var t := TallyOf(services, EmptyCommand(), sudo);
      if t.accepted > 0 then Success("DNS reset on " + ServiceCount(t.accepted))
      else Failure("Failed to clear DNS: " + Join(t.errors, ", "))
  }

  /** Clearing active services forgets the remembered scan; with none it is left as the lookup left it. */
  function ClearedCache(services: seq<string>, cache: Cache): (r: Cache)
    ensures services != [] ==> r.services == []
  {
    if services == [] then cache else cache.(services := [])
  }

  // ---------------------------------------------------------------- interfaces

  /** `getInterfaceType`, on the lower-cased name. */
  function DesktopKind(name: string): InterfaceType {
    var lower := ToLower(name);
    if Contains(lower, "wi-fi") || Contains(lower, "wifi") || Contains(lower, "airport") then Wifi
    else if Contains(lower, "ethernet") || Contains(lower, "thunderbolt") || Contains(lower, "usb") then Ethernet
    else OtherType
  }

  function DesktopKinds(): string -> InterfaceType {
    (name: string) => DesktopKind(name)
  }

  /** The type does not depend on the case of the name. */
  lemma DesktopKindIgnoresCase(name: string)
    ensures DesktopKind(ToLower(name)) == DesktopKind(name)
  {
    ToLowerIdempotent(name);
  }

  /** `getStatus`: connected exactly when servers are listed; the first active interface is reported. */
  function StatusOf(dns: seq<string>, interfaces: seq<NetworkInterface>): (s: DnsStatus)
    ensures s.isConnected <==> dns != []
    ensures s.activeDns == dns
    ensures s.activeInterface.Some? <==> exists i :: 0 <= i < |interfaces| && interfaces[i].isActive
    ensures s.activeInterface.Some? ==> s.activeInterface.value in interfaces && s.activeInterface.value.isActive
  {
    DnsStatus(|dns| > 0, dns, None, None, Find(interfaces, IsUp()))
  }

  // ---------------------------------------------------------------- the backend

  class MacPlatform {
    var selectedService: Option<string>
    var cachedActiveServices: seq<string>
    var lastServiceCheck: int
    const run: Oracle
    const sudo: Oracle
    ghost var log: seq<string>

    constructor(run: Oracle, sudo: Oracle)
      ensures this.run == run && this.sudo == sudo
      ensures selectedService.None? && cachedActiveServices == [] && lastServiceCheck == 0 && log == []
    {
      this.run := run;
      this.sudo := sudo;
      selectedService := None;
      cachedActiveServices := [];
      lastServiceCheck := 0;
      log := [];
    }

    function CacheState(): Cache
      reads this
    {
      Cache(cachedActiveServices, lastServiceCheck)
    }

    /** The fields are as they were at the start of the method. */
    twostate predicate Unchanged()
      reads this
    {
      cachedActiveServices == old(cachedActiveServices) && lastServiceCheck == old(lastServiceCheck)
      && selectedService == old(selectedService)
    }

    /** The loop of a scan: the information on every service, keeping the connected ones. */
    method KeepConnected(services: seq<string>) returns (active: seq<string>)
      modifies this
      ensures active == Filter(services, ConnectedWith(run))
      ensures log == EachLog(services, InfoCommand(), old(log))
      ensures Unchanged()
    {
      active := [];
      var i := 0;
      while i < |services|
        invariant 0 <= i <= |services|
        invariant active == Collect(services[..i], Keep(ConnectedWith(run)))
        invariant log == EachLog(services[..i], InfoCommand(), old(log))
        invariant Unchanged()
      {
        CollectPush(services, i, Keep(ConnectedWith(run)), active);
        EachLogPush(services, i, InfoCommand(), old(log));
        var connected := IsConnected(services[i]);
        if connected {
          active := active + [services[i]];
        }
        i := i + 1;
      }
      assert services[..|services|] == services;
      FilterIsCollect(services, ConnectedWith(run));
    }

    /** One step of a scan: the information on one service. */
    method IsConnected(service: string) returns (connected: bool)
      modifies this
      ensures connected == Connected(service, run)
      ensures log == old(log) + [InfoCommand()(service)]
      ensures Unchanged()
    {
      var info := run(InfoCommand()(service));
      log := log + [InfoCommand()(service)];
      connected := info.Ok? && HasAddress(info.stdout);
    }

    method GetActiveNetworkServices(now: int) returns (services: seq<string>)
      modifies this
      ensures services == Lookup(old(CacheState()), now, run)
      ensures CacheState() == Refreshed(old(CacheState()), now, run)
      ensures log == LookupLog(old(CacheState()), now, run, old(log))
      ensures selectedService == old(selectedService)
    {
      if |cachedActiveServices| > 0 && now - lastServiceCheck < ServiceCacheTtl {
        return cachedActiveServices;
      }
      services := Scan(now);
    }

    /** The scan: the listing, then the information on each listed service; a readable listing is remembered. */
    method Scan(now: int) returns (services: seq<string>)
      modifies this
      ensures services == ActiveServices(run)
      ensures CacheState() == (if run(ListCommand).Err? then old(CacheState()) else Cache(services, now))
      ensures log == ScanLog(run, old(log))
      ensures selectedService == old(selectedService)
    {
      var listing := run(ListCommand);
      log := log + [ListCommand];
      if listing.Err? {
        return [];
      }
      services := KeepConnected(ServicesIn(listing.stdout));
      cachedActiveServices := services;
      lastServiceCheck := now;
    }

    method GetPrimaryService(now: int) returns (primary: Option<string>)
      modifies this
      ensures primary == PrimaryOf(old(selectedService), old(CacheState()), now, run)
      ensures CacheState() == PrimaryCache(old(selectedService), old(CacheState()), now, run)
      ensures log == PrimaryLog(old(selectedService), old(CacheState()), now, run, old(log))
      ensures selectedService == old(selectedService)
    {
      if selectedService.Some? && selectedService.value != "" {
        return selectedService;
      }
      var active := GetActiveNetworkServices(now);
      if "Wi-Fi" in active {
        return Some("Wi-Fi");
      }
      if "Ethernet" in active {
        return Some("Ethernet");
      }
      primary := if active != [] then Some(active[0]) else None;
    }

    /**
     * The loop of `setDns` and `clearDns`: the command on every service, counting the
     * successes and collecting the errors.
     */
    method ApplyToEach(services: seq<string>, command: string -> string) returns (count: nat, errors: seq<string>)
      modifies this
      ensures Tally(count, errors) == TallyOf(services, command, sudo)
      ensures log == EachLog(services, command, old(log))
      ensures Unchanged()
    {
      count := 0;
      errors := [];
      var i := 0;
      while i < |services|
        invariant 0 <= i <= |services|
        invariant Tally(count, errors) == TallyOf(services[..i], command, sudo)
        invariant log == EachLog(services[..i], command, old(log))
        invariant Unchanged()
      {
        assert services[..i + 1][..i] == services[..i];
        var outcome := Elevated(command(services[i]));
        if outcome.Ok? {
          count := count + 1;
        } else {
          errors := errors + [services[i] + ": " + outcome.message];
        }
        i := i + 1;
      }
      assert services[..|services|] == services;
    }

    /** One elevated command. */
    method Elevated(command: string) returns (outcome: Outcome)
      modifies this
      ensures outcome == sudo(command) && log == old(log) + [command]
      ensures Unchanged()
    {
      outcome := sudo(command);
      log := log + [command];
    }

    method SetDns(servers: seq<string>, now: int) returns (r: OpResult)
      modifies this
      ensures var services := Lookup(old(CacheState()), now, run);
        && r == SetOutcome(services, servers, sudo)
        && log == SetDnsLog(services, servers, sudo, FlushCommands, LookupLog(old(CacheState()), now, run, old(log)))
      ensures CacheState() == Refreshed(old(CacheState()), now, run)
      ensures selectedService == old(selectedService)
    {
      var services := GetActiveNetworkServices(now);
      if |services| == 0 {
        return Failure(NoActiveConnection);
      }
      var count, errors := ApplyToEach(services, SetCommand(servers));
      if count > 0 {
        var flushed := FlushDnsCache();
        return Success("DNS updated on " + ServiceCount(count));
      }
      r := Failure("Failed to set DNS: " + Join(errors, ", "));
    }

    /** The fallback of `clearDns`: every default service is reset and failures are ignored. */
    method ResetDefaults()
      modifies this
      ensures log == EachLog(DefaultServices, EmptyCommand(), old(log))
      ensures Unchanged()
    {
      var count, errors := ApplyToEach(DefaultServices, EmptyCommand());
    }

    method ClearDns(now: int) returns (r: OpResult)
      modifies this
      ensures var services := Lookup(old(CacheState()), now, run);
        && r == ClearOutcome(services, sudo)
        && log == ClearDnsLog(services, DefaultServices, sudo, FlushCommands, LookupLog(old(CacheState()), now, run, old(log)))
        && CacheState() == ClearedCache(services, Refreshed(old(CacheState()), now, run))
      ensures selectedService == old(selectedService)
    {
      var services := GetActiveNetworkServices(now);
      if |services| == 0 {
        ResetDefaults();
        return Success(DnsReset);
      }
      var count, errors := ApplyToEach(services, EmptyCommand());
      cachedActiveServices := [];
      if count > 0 {
        var flushed := FlushDnsCache();
        return Success("DNS reset on " + ServiceCount(count));
      }
      r := Failure("Failed to clear DNS: " + Join(errors, ", "));
    }

    method GetActiveDns(now: int) returns (dns: seq<string>)
      modifies this
      ensures dns == DnsOf(old(selectedService), old(CacheState()), now, run)
      ensures log == DnsLog(old(selectedService), old(CacheState()), now, run, old(log))
      ensures CacheState() == PrimaryCache(old(selectedService), old(CacheState()), now, run)
      ensures selectedService == old(selectedService)
    {
      var primary := GetPrimaryService(now);
      if primary.None? {
        return [];
      }
      var output := run(GetServersCommand(primary.value));
      log := log + [GetServersCommand(primary.value)];
      if output.Err? {
        return [];
      }
      dns := ServersListed(output.stdout);
    }

    method GetStatus(now: int) returns (status: DnsStatus)
      modifies this
      ensures status == StatusOf(DnsOf(old(selectedService), old(CacheState()), now, run), InterfacesFrom(run, DesktopKinds()))
      ensures log == ScanLog(run, DnsLog(old(selectedService), old(CacheState()), now, run, old(log)))
      ensures CacheState() == PrimaryCache(old(selectedService), old(CacheState()), now, run)
      ensures selectedService == old(selectedService)
    {
      var dns := GetActiveDns(now);
      var interfaces := GetNetworkInterfaces();
      status := DnsStatus(|dns| > 0, dns, None, None, Find(interfaces, IsUp()));
    }

    /** The loop of `getNetworkInterfaces`: every listed service is probed, in order. */
    method ProbeServices(names: seq<string>) returns (probed: seq<NetworkInterface>)
      modifies this
      ensures probed == Collect(names, ProbeWith(run, DesktopKinds()))
      ensures log == EachLog(names, InfoCommand(), old(log))
      ensures Unchanged()
    {
      probed := [];
      var i := 0;
      while i < |names|
        invariant 0 <= i <= |names|
        invariant probed == Collect(names[..i], ProbeWith(run, DesktopKinds()))
        invariant log == EachLog(names[..i], InfoCommand(), old(log))
        invariant Unchanged()
      {
        CollectPush(names, i, ProbeWith(run, DesktopKinds()), probed);
        EachLogPush(names, i, InfoCommand(), old(log));
        var found := ProbeService(names[i]);
        if found.Some? {
          probed := probed + [found.value];
        }
        i := i + 1;
      }
      assert names[..|names|] == names;
    }

    /** One step of `getNetworkInterfaces`: the information on one service. */
    method ProbeService(name: string) returns (found: Option<NetworkInterface>)
      modifies this
      ensures found == Probe(name, run, DesktopKinds())
      ensures log == old(log) + [InfoCommand()(name)]
      ensures Unchanged()
    {
      var info := run(InfoCommand()(name));
      log := log + [InfoCommand()(name)];
      if info.Ok? {
        found := Some(NetworkInterface(name, name, DesktopKind(name), HasAddress(info.stdout), AddressIn(info.stdout)));
      } else {
        found := None;
      }
    }

    method GetNetworkInterfaces() returns (interfaces: seq<NetworkInterface>)
      modifies this
      ensures interfaces == InterfacesFrom(run, DesktopKinds())
      ensures log == ScanLog(run, old(log))
      ensures Unchanged()
    {
      var listing := run(ListCommand);
      log := log + [ListCommand];
      if listing.Err? {
        return [];
      }
      var probed := ProbeServices(ServicesIn(listing.stdout));
      interfaces := Filter(probed, IsUp()) + Filter(probed, Not(IsUp()));
    }

    /** Runs every flush command, ignoring failures; the flush always reports success. */
    method FlushDnsCache() returns (r: OpResult)
      modifies this
      ensures r == Success(CacheFlushed)
      ensures log == old(log) + FlushCommands
      ensures Unchanged()
    {
      var i := 0;
      while i < |FlushCommands|
        invariant 0 <= i <= |FlushCommands|
        invariant log == old(log) + FlushCommands[..i]
        invariant Unchanged()
      {
        var flushed := sudo(FlushCommands[i]);
        log := log + [FlushCommands[i]];
        assert FlushCommands[..i + 1] == FlushCommands[..i] + [FlushCommands[i]];
        i := i + 1;
      }
      r := Success(CacheFlushed);
    }

    /** `setNetworkService`: the service is selected and the remembered scan forgotten. */
    method SetNetworkService(service: string)
      modifies this
      ensures selectedService == Some(service) && cachedActiveServices == [] && lastServiceCheck == old(lastServiceCheck)
      ensures log == old(log)
    {
      selectedService := Some(service);
      cachedActiveServices := [];
    }
    /**
     * `pingServer`: `elapsed` stands for the clock readings around the request; a failure has
     * latency -1 and carries the message.
     */
    method PingServer(server: string, elapsed: nat) returns (r: PingResult)
      modifies this
      ensures r.server == server && (r.success <==> run(PingCommand(server)).Ok?)
      ensures r.success ==> r.latency == elapsed && r.error.None?
      ensures !r.success ==> r.latency == -1 && r.error == Some(run(PingCommand(server)).message)
      ensures log == old(log) + [PingCommand(server)] && Unchanged()
    {
      var o := run(PingCommand(server));
      log := log + [PingCommand(server)];
      if o.Err? {
        return PingResult(server, -1, false, Some(o.message));
      }
      r := PingResult(server, elapsed, true, None);
    }

    /** `isElevated`: whether the user id is 0. */
    method IsElevated() returns (elevated: bool)
      modifies this
      ensures elevated <==> SaysRoot(run(UserIdCommand))
      ensures log == old(log) + [UserIdCommand] && Unchanged()
    {
      var o := run(UserIdCommand);
      log := log + [UserIdCommand];
      elevated := SaysRoot(o);
    }
  }
}
