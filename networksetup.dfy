/**
 * What the two macOS backends share: the `networksetup` commands they issue, how they read
 * the service listing, the service information and the DNS server listing, the choice of the
 * primary service, and how a request applied to every active service is summed up.
 */
module Networksetup {
  import opened Wrappers
  import opened Text
  import opened Lists
  import opened Shell
  import opened Patterns
  import opened Interfaces

  const ListCommand: string := "networksetup -listallnetworkservices"
  const NoActiveConnection: string := "No active network connection found"
  /** What `networksetup -getdnsservers` prints when the service takes its servers from DHCP. */
  const NoServersSet: string := "aren't any DNS Servers"

  function InfoCommand(): string -> string {
    (service: string) => "networksetup -getinfo \"" + service + "\""
  }

  function GetServersCommand(service: string): string {
    "networksetup -getdnsservers \"" + service + "\""
  }

  /** `networksetup -setdnsservers "<service>" <servers joined by spaces>`. */
  function SetCommand(servers: seq<string>): string -> string {
    (service: string) => "networksetup -setdnsservers \"" + service + "\" " + Join(servers, " ")
  }

  function EmptyCommand(): string -> string {
    (service: string) => "networksetup -setdnsservers \"" + service + "\" \"Empty\""
  }

  // ---------------------------------------------------------------- the services

  /** A listed service: not blank, and not marked disabled with a leading `*`. */
  predicate Listed(line: string) {
    Trim(line) != "" && !StartsWith(line, "*")
  }

  function ListedLine(): string -> bool {
    (line: string) => Listed(line)
  }

  /** The services of a listing: every line after the header that is listed. */
  function ServicesIn(listing: string): (r: seq<string>)
    ensures forall i :: 0 <= i < |r| ==> Listed(r[i])
  {
    var r := Filter(Split(listing, '\n')[1..], ListedLine());
    assert forall i :: 0 <= i < |r| ==> r[i] in r;
    r
  }

  /** A service is connected when its information shows an address that is not `none`. */
  predicate HasAddress(info: string) {
    Contains(info, "IP address:") && !Contains(info, "IP address: none")
  }

  /** The information on `service` could be read and shows it connected. */
  predicate Connected(service: string, run: Oracle) {
    run(InfoCommand()(service)).Ok? && HasAddress(run(InfoCommand()(service)).stdout)
  }

  function ConnectedWith(run: Oracle): string -> bool {
    (service: string) => Connected(service, run)
  }

  /**
   * `getActiveNetworkServices` when it scans: the connected services, in listing order, or
   * none when the listing cannot be read.
   */
  function ActiveServices(run: Oracle): seq<string> {
    var listing := run(ListCommand);
    if listing.Err? then [] else Filter(ServicesIn(listing.stdout), ConnectedWith(run))
  }

  /** Every active service was listed and shows an address. */
  lemma ActiveServicesConnected(run: Oracle, service: string)
    requires service in ActiveServices(run)
    ensures Listed(service) && Connected(service, run)
  {
    var listing := run(ListCommand);
    var services := ServicesIn(listing.stdout);
    assert service in Filter(services, ConnectedWith(run));
    var j :| 0 <= j < |services| && services[j] == service;
  }

  /** `log` extended by a scan: the listing, then the information on every listed service. */
  function ScanLog(run: Oracle, log: seq<string>): seq<string> {
    var log1 := log + [ListCommand];
    var listing := run(ListCommand);
    if listing.Err? then log1 else EachLog(ServicesIn(listing.stdout), InfoCommand(), log1)
  }

  /** A selected service counts only when it is not empty. */
  predicate Chosen(selected: Option<string>) {
    selected.Some? && selected.value != ""
  }

  /**
   * The service `getPrimaryService` prefers among the active ones: Wi-Fi, then Ethernet,
   * then the first one.
   */
  function Preferred(active: seq<string>): (r: Option<string>)
    ensures r.None? <==> active == []
    ensures r.Some? ==> r.value in active
    ensures "Wi-Fi" in active ==> r == Some("Wi-Fi")
    ensures "Wi-Fi" !in active && "Ethernet" in active ==> r == Some("Ethernet")
    ensures "Wi-Fi" !in active && "Ethernet" !in active && active != [] ==> r == Some(active[0])
  {
    if "Wi-Fi" in active then Some("Wi-Fi")
    else if "Ethernet" in active then Some("Ethernet")
    else if active != [] then Some(active[0])
    else None
  }

  // ---------------------------------------------------------------- the DNS servers

  /** A line of the server listing: its trimmed text, when that is a dotted quad. */
  function ServerOf(line: string): Option<string> {
    if IsQuadLine(Trim(line)) then Some(Trim(line)) else None
  }

  function ServerLine(): string -> Option<string> {
    (line: string) => ServerOf(line)
  }

  /** A dotted quad stands for itself. */
  lemma ServerOfQuad(s: string)
    requires IsQuadLine(s)
    ensures ServerOf(s) == Some(s)
  {
    QuadLineTrimmed(s);
  }

  /**
   * `getActiveDns` on the output of `networksetup -getdnsservers`: nothing when it says none
   * is set, otherwise every line that is a dotted quad once trimmed, in order.
   */
  function ServersListed(output: string): seq<string> {
    if Contains(output, NoServersSet) then [] else Collect(Split(output, '\n'), ServerLine())
  }

  /** Every address read back is a dotted quad. */
  lemma ServersListedAreQuads(output: string)
    ensures var r := ServersListed(output);
      forall i :: 0 <= i < |r| ==> IsQuadLine(r[i])
  {
    if !Contains(output, NoServersSet) {
      CollectAll(Split(output, '\n'), ServerLine(), (a: string) => IsQuadLine(a));
    }
  }

  /** A listing of dotted quads, one per line, reads back as exactly those addresses. */
  lemma ServersListedRoundTrip(servers: seq<string>)
    requires forall i :: 0 <= i < |servers| ==> IsQuadLine(servers[i])
    ensures ServersListed(Join(servers, "\n")) == servers
  {
    NoMarkerAmongQuads(servers);
    if servers == [] {
      EmptyListing();
    } else {
      QuadLinesAreText(servers);
      SplitLines(servers);
      CollectQuads(servers);
    }
  }

  lemma QuadLinesAreText(servers: seq<string>)
    requires forall i :: 0 <= i < |servers| ==> IsQuadLine(servers[i])
    ensures forall i :: 0 <= i < |servers| ==> IsAddressText(servers[i])
  {
    forall i | 0 <= i < |servers|
      ensures IsAddressText(servers[i])
    {
      QuadLineChars(servers[i]);
    }
  }

  /** Addresses joined by line breaks split back into the addresses. */
  lemma SplitLines(servers: seq<string>)
    requires servers != []
    requires forall i :: 0 <= i < |servers| ==> IsAddressText(servers[i])
    ensures Split(Join(servers, "\n"), '\n') == servers
  {
    forall i | 0 <= i < |servers|
      ensures '\n' !in servers[i]
    {
      assert forall k :: 0 <= k < |servers[i]| ==> IsAddressChar(servers[i][k]);
    }
    SplitJoin(servers, '\n');
  }

  /** An empty output lists no server. */
  lemma EmptyListing()
    ensures ServersListed("") == []
  {
    assert Split("", '\n') == [[]];
    assert !IsQuadLine([]) by {
      assert DigitPrefix([]) == [];
    }
    assert ServerOf([]) == None;
  }

  /** Quads joined by line breaks never say that no server is set. */
  lemma NoMarkerAmongQuads(servers: seq<string>)
    requires forall i :: 0 <= i < |servers| ==> IsQuadLine(servers[i])
    ensures !Contains(Join(servers, "\n"), NoServersSet)
  {
    var output := Join(servers, "\n");
    JoinedQuadChars(servers);
    if Contains(output, NoServersSet) {
      assert 'a' in NoServersSet;
      ContainsChars(output, NoServersSet, 'a');
    }
  }

  /** Only digits, dots and line breaks occur in quads joined by line breaks. */
  lemma {:induction false} JoinedQuadChars(servers: seq<string>)
    requires forall i :: 0 <= i < |servers| ==> IsQuadLine(servers[i])
    ensures forall k :: 0 <= k < |Join(servers, "\n")| ==> IsAddressChar(Join(servers, "\n")[k]) || Join(servers, "\n")[k] == '\n'
  {
    if servers != [] {
      QuadLineChars(servers[0]);
      if |servers| > 1 {
        JoinedQuadChars(servers[1..]);
      }
    }
  }

  /** Quads are read back unchanged, line by line. */
  lemma CollectQuads(servers: seq<string>)
    requires forall i :: 0 <= i < |servers| ==> IsQuadLine(servers[i])
    ensures Collect(servers, ServerLine()) == servers
  {
    forall i | 0 <= i < |servers|
      ensures ServerLine()(servers[i]) == Some(servers[i])
    {
      ServerOfQuad(servers[i]);
    }
    CollectIdentity(servers, ServerLine());
  }

  // ---------------------------------------------------------------- the interfaces

  /** `/IP address:\s*(\d+\.\d+\.\d+\.\d+)/` tried at the start of `s`: the address captured. */
  function AddressAt(): string -> Option<string> {
    (s: string) => if StartsWith(s, "IP address:") then Quad(TrimStart(s[11..])) else None
  }

  /** The first address the information shows, if any. */
  function AddressIn(info: string): Option<string> {
    Search(info, AddressAt())
  }

  /**
   * The interface `getNetworkInterfaces` records for a listed service whose information
   * could be read; the type comes from the backend's naming rule.
   */
  function Probe(name: string, run: Oracle, kind: string -> InterfaceType): (r: Option<NetworkInterface>)
    ensures r.Some? <==> run(InfoCommand()(name)).Ok?
    ensures r.Some? ==> r.value.name == name && r.value.displayName == name && r.value.kind == kind(name)
    ensures r.Some? ==> (r.value.isActive <==> Connected(name, run))
  {
    var info := run(InfoCommand()(name));
    if info.Err? then None
    else Some(NetworkInterface(name, name, kind(name), HasAddress(info.stdout), AddressIn(info.stdout)))
  }

  function ProbeWith(run: Oracle, kind: string -> InterfaceType): string -> Option<NetworkInterface> {
    (name: string) => Probe(name, run, kind)
  }

  /** `getNetworkInterfaces`: every listed service that could be probed, the active ones first. */
  function InterfacesFrom(run: Oracle, kind: string -> InterfaceType): (r: seq<NetworkInterface>)
    ensures run(ListCommand).Err? ==> r == []
    ensures run(ListCommand).Ok? ==>
      multiset(r) == multiset(Collect(ServicesIn(run(ListCommand).stdout), ProbeWith(run, kind)))
    ensures forall i, j :: 0 <= i < j < |r| && r[j].isActive ==> r[i].isActive
  {
    var listing := run(ListCommand);
    if listing.Err? then []
    else Partitioned(Collect(ServicesIn(listing.stdout), ProbeWith(run, kind)), IsUp())
  }

  // ---------------------------------------------------------------- one request on every service

  function Accepts(command: string -> string, sudo: Oracle): string -> bool {
    (service: string) => sudo(command(service)).Ok?
  }

  /** The error item for a service whose command failed: `<service>: <message>`. */
  function Rejection(command: string -> string, sudo: Oracle): string -> Option<string> {
    (service: string) =>
      var o := sudo(command(service));
      if o.Err? then Some(service + ": " + o.message) else None
  }

  /** What the loop of `setDns` or `clearDns` adds up: the services that took the command, and the errors of the others. */
  datatype Tally = Tally(accepted: nat, errors: seq<string>)

  /** The loop over the services, one service at a time, in order. */
  function TallyOf(services: seq<string>, command: string -> string, sudo: Oracle): Tally {
    if services == [] then Tally(0, [])
    else
      var t := TallyOf(services[..|services| - 1], command, sudo);
      var last := services[|services| - 1];
      var o := sudo(command(last));
      if o.Ok? then Tally(t.accepted + 1, t.errors) else Tally(t.accepted, t.errors + [last + ": " + o.message])
  }

  /** The loop counts the services that accept the command and collects the errors of the rest, in order. */
  lemma TallyCountsAndCollects(services: seq<string>, command: string -> string, sudo: Oracle)
    ensures TallyOf(services, command, sudo).accepted == CountWhere(services, Accepts(command, sudo))
    ensures TallyOf(services, command, sudo).errors == Collect(services, Rejection(command, sudo))
  {
    TallyCounts(services, command, sudo);
    TallyCollects(services, command, sudo);
  }

  lemma {:induction false} TallyCounts(services: seq<string>, command: string -> string, sudo: Oracle)
    ensures TallyOf(services, command, sudo).accepted == CountWhere(services, Accepts(command, sudo))
  {
    if services != [] {
      var n := |services| - 1;
      TallyCounts(services[..n], command, sudo);
      assert services == services[..n] + [services[n]];
      CountAppend(services[..n], [services[n]], Accepts(command, sudo));
    }
  }

  lemma {:induction false} TallyCollects(services: seq<string>, command: string -> string, sudo: Oracle)
    ensures TallyOf(services, command, sudo).errors == Collect(services, Rejection(command, sudo))
  {
    if services != [] {
      var n := |services| - 1;
      TallyCollects(services[..n], command, sudo);
      CollectStep(services, n, Rejection(command, sudo));
      assert services[..n + 1] == services;
    }
  }

  /**
   * Every service is either counted or reported: the count and the error items add up to the
   * services, and the count is positive exactly when some service accepted the command.
   */
  lemma TallyAddsUp(services: seq<string>, command: string -> string, sudo: Oracle)
    ensures var t := TallyOf(services, command, sudo);
      && t.accepted + |t.errors| == |services|
      && (t.accepted > 0 <==> exists i :: 0 <= i < |services| && sudo(command(services[i])).Ok?)
  {
    TallyCountsAndCollects(services, command, sudo);
    CountAndCollect(services, Accepts(command, sudo), Rejection(command, sudo));
    CountPositive(services, Accepts(command, sudo));
  }

  /** `<n> network service(s)`. */
  function ServiceCount(n: nat): string {
    NatToString(n) + " network service(s)"
  }

  /**
   * `setDns`: without active services nothing is tried. Otherwise the request succeeds when
   * at least one service took the servers, and otherwise reports every service's error.
   */
  function SetOutcome(services: seq<string>, servers: seq<string>, sudo: Oracle): (r: OpResult)
    ensures r.Success? <==> exists i :: 0 <= i < |services| && sudo(SetCommand(servers)(services[i])).Ok?
    ensures services == [] ==> r == Failure(NoActiveConnection)
    ensures r.Failure? && services != [] ==>
      var errors := TallyOf(services, SetCommand(servers), sudo).errors;
      |errors| == |services| && r.error == "Failed to set DNS: " + Join(errors, ", ")
  {
    TallyAddsUp(services, SetCommand(servers), sudo);
    if services == [] then Failure(NoActiveConnection)
    else
      var t := TallyOf(services, SetCommand(servers), sudo);
      if t.accepted > 0 then Success("DNS updated on " + ServiceCount(t.accepted))
      else Failure("Failed to set DNS: " + Join(t.errors, ", "))
  }

  /**
   * `log` extended by `setDns` once the services are known: the command on every service,
   * then the cache flush when one of them took effect.
   */
  function SetDnsLog(services: seq<string>, servers: seq<string>, sudo: Oracle, flush: seq<string>, log: seq<string>): seq<string> {
    if services == [] then log
    else
      var log1 := EachLog(services, SetCommand(servers), log);
      if TallyOf(services, SetCommand(servers), sudo).accepted > 0 then log1 + flush else log1
  }

  /**
   * `log` extended by `clearDns` once the services are known: without active services the
   * reset of every default service; otherwise the reset of every active one, then the flush
   * when one of them took effect.
   */
  function ClearDnsLog(services: seq<string>, defaults: seq<string>, sudo: Oracle, flush: seq<string>, log: seq<string>): seq<string> {
    if services == [] then EachLog(defaults, EmptyCommand(), log)
    else
      var log1 := EachLog(services, EmptyCommand(), log);
      if TallyOf(services, EmptyCommand(), sudo).accepted > 0 then log1 + flush else log1
  }
}
