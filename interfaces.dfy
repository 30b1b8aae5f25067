/**
 * The shared record types of the application: DNS servers, operation and ping results,
 * network interfaces and the DNS status a platform backend reports.
 */
module Interfaces {
  import opened Wrappers

  /** A catalog or user-defined DNS server. `servers` holds the primary and an optional secondary. */
  datatype DnsServer = DnsServer(
    key: string,
    name: string,
    servers: seq<string>,
    rating: int,
    tags: seq<string>,
    isDefault: bool,
    isCustom: bool,
    createdAt: Option<int>)

  /** The outcome of a DNS operation: `{success: true, message}` or `{success: false, error}`. */
  datatype OpResult = Success(message: string) | Failure(error: string) {
    predicate Succeeded() { this.Success? }
  }

  /** The outcome of pinging one server; `latency` is -1 on failure. */
  datatype PingResult = PingResult(server: string, latency: int, success: bool, error: Option<string>)

  datatype InterfaceType = Ethernet | Wifi | OtherType

  datatype NetworkInterface = NetworkInterface(
    name: string,
    displayName: string,
    kind: InterfaceType,
    isActive: bool,
    ip: Option<string>)

  /** Whether an interface is active, as a predicate for `find` and `filter`. */
  function IsUp(): NetworkInterface -> bool {
    (i: NetworkInterface) => i.isActive
  }

  datatype DnsStatus = DnsStatus(
    isConnected: bool,
    activeDns: seq<string>,
    serverName: Option<string>,
    serverKey: Option<string>,
    activeInterface: Option<NetworkInterface>)

  /** A status with only the connection flag and the address list set. */
  function PlainStatus(connected: bool, dns: seq<string>): (s: DnsStatus)
    ensures s.isConnected == connected && s.activeDns == dns
    ensures s.serverName.None? && s.serverKey.None? && s.activeInterface.None?
  {
    DnsStatus(connected, dns, None, None, None)
  }

  // The messages the backends report.
  const DnsUpdated: string := "DNS servers updated successfully"
  const DnsReset: string := "DNS reset to default"
  const DnsResetToDhcp: string := "DNS reset to DHCP"
  const CacheFlushed: string := "DNS cache flushed successfully"
  const CacheFlushAttempted: string := "DNS cache flush attempted"
}
