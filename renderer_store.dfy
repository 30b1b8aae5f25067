/**
 * The renderer's application state: the DNS status shown on screen, the connecting flag, the
 * selected server, the server lists and the settings, and the actions that update them around
 * each request to the main process. The reply of each request is a parameter (what the main
 * process answered, or the error the call threw).
 */
module RendererStore {
  import opened Wrappers
  import opened Lists
  import opened Json
  import opened Interfaces
  import Servers

  /** The reply to the server-list request; each list may be missing. */
  datatype ServersReply = ServersReply(pinned: Option<seq<string>>, custom: Option<seq<DnsServer>>)

  function NonEmpty(): string -> bool {
    (s: string) => s != ""
  }

  /** `server.servers.filter(Boolean)`: the addresses that are not empty. */
  function Addresses(server: DnsServer): (r: seq<string>)
    ensures forall a :: a in r <==> a in server.servers && a != ""
  {
    Filter(server.servers, NonEmpty())
  }

  function HasPrimary(address: string): DnsServer -> bool {
    (s: DnsServer) => |s.servers| > 0 && s.servers[0] == address
  }

  /** The first server whose primary address is `address`. */
  function ServerWithPrimary(all: seq<DnsServer>, address: string): (r: Option<DnsServer>)
    ensures r.None? <==> forall i :: 0 <= i < |all| ==> |all[i].servers| == 0 || all[i].servers[0] != address
    ensures r.Some? ==> r.value in all && |r.value.servers| > 0 && r.value.servers[0] == address
  {
    Find(all, HasPrimary(address))
  }

  /** The entry found is the first one with that primary address. */
  lemma ServerWithPrimaryFirst(all: seq<DnsServer>, address: string, i: nat)
    requires i < |all| && |all[i].servers| > 0 && all[i].servers[0] == address
    requires forall j :: 0 <= j < i ==> |all[j].servers| == 0 || all[j].servers[0] != address
    ensures ServerWithPrimary(all, address) == Some(all[i])
  {
    FindFirst(all, HasPrimary(address), i);
  }

  /** The status after a successful connection to `server`. */
  function ConnectedStatus(server: DnsServer): (s: DnsStatus)
    ensures s.isConnected && s.activeDns == Addresses(server)
    ensures s.serverName == Some(server.name) && s.serverKey == Some(server.key)
    ensures s.activeInterface.None?
  {
    DnsStatus(true, Addresses(server), Some(server.name), Some(server.key), None)
  }

  /**
   * The selection after a status report: for a connection with at least one address, the
   * server whose primary address is the first active one, when there is such a server.
   */
  function Reselected(all: seq<DnsServer>, reported: DnsStatus, current: Option<DnsServer>): Option<DnsServer> {
    if reported.isConnected && |reported.activeDns| > 0 && ServerWithPrimary(all, reported.activeDns[0]).Some?
    then ServerWithPrimary(all, reported.activeDns[0])
    else current
  }

  class AppState {
    var status: DnsStatus
    var isConnecting: bool
    var selectedServer: Option<DnsServer>
    var servers: seq<DnsServer>
    var customServers: seq<DnsServer>
    var pinnedServerKeys: seq<string>
    var config: Config
    /** Every value written to `isConnecting`, in order. */
    ghost var connectingTrace: seq<bool>

    /** The initial state: disconnected, nothing selected, the catalog and the default settings. */
    constructor()
      ensures status == PlainStatus(false, []) && !isConnecting && selectedServer.None?
      ensures servers == Servers.BuiltinServers && customServers == [] && pinnedServerKeys == []
      ensures config == DefaultConfig && connectingTrace == []
    {
      status := PlainStatus(false, []);
      isConnecting := false;
      selectedServer := None;
      servers := Servers.BuiltinServers;
      customServers := [];
      pinnedServerKeys := [];
      config := DefaultConfig;
      connectingTrace := [];
    }

    /** `setConfig`: the settings overlaid by the partial ones; nothing else changes. */
    method SetConfig(partial: Config)
      modifies this
      ensures config == Overlay(old(config), partial)
      ensures status == old(status) && isConnecting == old(isConnecting) && selectedServer == old(selectedServer)
      ensures servers == old(servers) && customServers == old(customServers) && pinnedServerKeys == old(pinnedServerKeys)
      ensures connectingTrace == old(connectingTrace)
    {
      config := Overlay(config, partial);
    }

    /** `loadConfig`: a returned, present configuration replaces the settings. */
    method LoadConfig(reply: Attempt<Option<Config>>)
      modifies this
      ensures config == if reply.Returned? && reply.value.Some? then reply.value.value else old(config)
      ensures status == old(status) && isConnecting == old(isConnecting) && selectedServer == old(selectedServer)
      ensures servers == old(servers) && customServers == old(customServers) && pinnedServerKeys == old(pinnedServerKeys)
      ensures connectingTrace == old(connectingTrace)
    {
      if reply.Returned? && reply.value.Some? {
        config := reply.value.value;
      }
    }

    /** `loadServers`: the pinned keys and custom servers, a missing list read as empty. */
    method LoadServers(reply: Attempt<ServersReply>)
      modifies this
      ensures reply.Returned? ==> pinnedServerKeys == reply.value.pinned.GetOr([]) && customServers == reply.value.custom.GetOr([])
      ensures reply.Threw? ==> pinnedServerKeys == old(pinnedServerKeys) && customServers == old(customServers)
      ensures status == old(status) && isConnecting == old(isConnecting) && selectedServer == old(selectedServer)
      ensures servers == old(servers) && config == old(config) && connectingTrace == old(connectingTrace)
    {
      if reply.Returned? {
        pinnedServerKeys := reply.value.pinned.GetOr([]);
        customServers := reply.value.custom.GetOr([]);
      }
    }

    /**
     * `loadStatus`: the reported status is shown; when it is connected with at least one
     * address, the first catalog or custom server whose primary address is the first active
     * one becomes the selection, and when there is none the selection stays.
     */
    method LoadStatus(reply: Attempt<DnsStatus>)
      modifies this
      ensures reply.Threw? ==> status == old(status) && selectedServer == old(selectedServer)
      ensures reply.Returned? ==> status == reply.value
      ensures reply.Returned? ==> selectedServer == Reselected(old(servers) + old(customServers), reply.value, old(selectedServer))
      ensures isConnecting == old(isConnecting) && servers == old(servers) && customServers == old(customServers)
      ensures pinnedServerKeys == old(pinnedServerKeys) && config == old(config) && connectingTrace == old(connectingTrace)
    {
      if reply.Threw? {
        return;
      }
      var reported := reply.value;
      status := reported;
      if reported.isConnected && |reported.activeDns| > 0 {
        var allServers := servers + customServers;
        var connected := ServerWithPrimary(allServers, reported.activeDns[0]);
        if connected.Some? {
          selectedServer := connected;
        }
      }
    }

    /**
     * `connect(server)`: `reply` answers the request to use the server's non-empty addresses.
     * The connecting flag is raised first and lowered on every way out; status and selection
     * change only on success.
     */
    method Connect(server: DnsServer, reply: Attempt<OpResult>) returns (ok: bool)
      modifies this
      ensures ok <==> reply.Returned? && reply.value.Success?
      ensures ok ==> status == ConnectedStatus(server) && selectedServer == Some(server)
      ensures !ok ==> status == old(status) && selectedServer == old(selectedServer)
      ensures !isConnecting && connectingTrace == old(connectingTrace) + [true, false]
      ensures servers == old(servers) && customServers == old(customServers)
      ensures pinnedServerKeys == old(pinnedServerKeys) && config == old(config)
    {
      isConnecting := true;
      connectingTrace := connectingTrace + [true];
      var addresses := Addresses(server);
      ok := false;
      if reply.Returned? && reply.value.Success? {
        status := DnsStatus(true, addresses, Some(server.name), Some(server.key), None);
        selectedServer := Some(server);
        ok := true;
      }
      isConnecting := false;
      connectingTrace := connectingTrace + [false];
    }

    /** `disconnect()`: on success the status is cleared and nothing is selected. */
    method Disconnect(reply: Attempt<OpResult>) returns (ok: bool)
      modifies this
      ensures ok <==> reply.Returned? && reply.value.Success?
      ensures ok ==> status == PlainStatus(false, []) && selectedServer.None?
      ensures !ok ==> status == old(status) && selectedServer == old(selectedServer)
      ensures !isConnecting && connectingTrace == old(connectingTrace) + [true, false]
      ensures servers == old(servers) && customServers == old(customServers)
      ensures pinnedServerKeys == old(pinnedServerKeys) && config == old(config)
    {
      isConnecting := true;
      connectingTrace := connectingTrace + [true];
      ok := false;
      if reply.Returned? && reply.value.Success? {
        status := PlainStatus(false, []);
        selectedServer := None;
        ok := true;
      }
      isConnecting := false;
      connectingTrace := connectingTrace + [false];
    }

    /** `addCustomServer`, `removeCustomServer`: the returned list replaces the custom servers. */
    method ReplaceCustomServers(reply: Attempt<seq<DnsServer>>)
      modifies this
      ensures customServers == if reply.Returned? then reply.value else old(customServers)
      ensures status == old(status) && isConnecting == old(isConnecting) && selectedServer == old(selectedServer)
      ensures servers == old(servers) && pinnedServerKeys == old(pinnedServerKeys) && config == old(config)
      ensures connectingTrace == old(connectingTrace)
    {
      if reply.Returned? {
        customServers := reply.value;
      }
    }

    /** `pinServer`, `unpinServer`: the returned list replaces the pinned keys. */
    method ReplacePinnedKeys(reply: Attempt<seq<string>>)
      modifies this
      ensures pinnedServerKeys == if reply.Returned? then reply.value else old(pinnedServerKeys)
      ensures status == old(status) && isConnecting == old(isConnecting) && selectedServer == old(selectedServer)
      ensures servers == old(servers) && customServers == old(customServers) && config == old(config)
      ensures connectingTrace == old(connectingTrace)
    {
      if reply.Returned? {
        pinnedServerKeys := reply.value;
      }
    }
  }

  /** `flushDns`: whether the flush succeeded; false when the request threw. */
  method FlushDns(reply: Attempt<OpResult>) returns (ok: bool)
    ensures ok <==> reply.Returned? && reply.value.Success?
  {
    match reply
    case Returned(result) => ok := result.Succeeded();
    case Threw(_) => ok := false;
  }

  /** `pingServer`: the latency of a successful ping, -1 otherwise. */
  method PingServer(reply: Attempt<PingResult>) returns (latency: int)
    ensures reply.Returned? && reply.value.success ==> latency == reply.value.latency
    ensures !(reply.Returned? && reply.value.success) ==> latency == -1
  {
    match reply
    case Returned(result) => latency := if result.success then result.latency else -1;
    case Threw(_) => latency := -1;
  }
}
