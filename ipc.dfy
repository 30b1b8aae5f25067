/**
 * The main process's request handlers: the DNS operations, which forward to the platform
 * backend and turn a thrown error into a failed reply, and the settings and server-list
 * handlers, which read and write the persisted store. The platform call of each DNS handler is
 * a parameter (what it returned or threw); the store's entries are fields, and the ghost field
 * `writes` records which entry each handler wrote back, in order.
 */
module Ipc {
  import opened Wrappers
  import opened Lists
  import opened Json
  import opened Interfaces

  // ---------------------------------------------------------------- list updates

  /** The pinned keys after pinning `key`: appended only when it is not there yet. */
  function Pinned(keys: seq<string>, key: string): (r: seq<string>)
    ensures key in r
    ensures forall k :: k in r <==> k in keys || k == key
    ensures |keys| <= |r| <= |keys| + 1 && r[..|keys|] == keys
  {
    if key in keys then keys else keys + [key]
  }

  /** Pinning never introduces a duplicate. */
  lemma PinnedNoDuplicates(keys: seq<string>, key: string)
    requires NoDuplicates(keys)
    ensures NoDuplicates(Pinned(keys, key))
  {
  }

  /** Pinning twice is pinning once. */
  lemma PinnedIdempotent(keys: seq<string>, key: string)
    ensures Pinned(Pinned(keys, key), key) == Pinned(keys, key)
  {
  }

  function OtherKey(key: string): string -> bool {
    (k: string) => k != key
  }

  /** The pinned keys after unpinning `key`: every occurrence dropped, the rest in order. */
  function Unpinned(keys: seq<string>, key: string): (r: seq<string>)
    ensures key !in r
    ensures forall k :: k != key ==> (k in r <==> k in keys)
  {
    Filter(keys, OtherKey(key))
  }

  /** Unpinning keeps the remaining keys in their order. */
  lemma UnpinnedKeepsOrder(keys: seq<string>, key: string)
    ensures IsSubsequence(Unpinned(keys, key), keys)
  {
    FilterSubsequence(keys, OtherKey(key));
  }

  /** Unpinning a key that is not pinned changes nothing. */
  lemma UnpinnedAbsent(keys: seq<string>, key: string)
    requires key !in keys
    ensures Unpinned(keys, key) == keys
  {
    FilterAll(keys, OtherKey(key));
  }

  /** Unpinning undoes pinning. */
  lemma UnpinUndoesPin(keys: seq<string>, key: string)
    ensures Unpinned(Pinned(keys, key), key) == Unpinned(keys, key)
  {
    if key !in keys {
      FilterAppend(keys, [key], OtherKey(key));
      assert Filter([key], OtherKey(key)) == [];
    }
  }

  function OtherServer(key: string): DnsServer -> bool {
    (s: DnsServer) => s.key != key
  }

  /** The custom servers after removing `key`: every entry with that key dropped, the rest in order. */
  function WithoutKey(custom: seq<DnsServer>, key: string): (r: seq<DnsServer>)
    ensures forall s :: s in r ==> s.key != key
    ensures forall s: DnsServer :: s.key != key ==> (s in r <==> s in custom)
  {
    Filter(custom, OtherServer(key))
  }

  /** Removal keeps the remaining custom servers in their order. */
  lemma WithoutKeyKeepsOrder(custom: seq<DnsServer>, key: string)
    ensures IsSubsequence(WithoutKey(custom, key), custom)
  {
    FilterSubsequence(custom, OtherServer(key));
  }

  /** Removing a freshly added server's key undoes the addition. */
  lemma RemoveUndoesAdd(custom: seq<DnsServer>, server: DnsServer)
    ensures WithoutKey(custom + [server], server.key) == WithoutKey(custom, server.key)
  {
    FilterAppend(custom, [server], OtherServer(server.key));
    assert Filter([server], OtherServer(server.key)) == [];
  }

  // ---------------------------------------------------------------- error wrapping

  /** A DNS operation's reply: the backend's result, or a failure carrying the thrown message. */
  function OperationReply(outcome: Attempt<OpResult>): (r: OpResult)
    ensures outcome.Threw? ==> r == Failure(outcome.message)
    ensures outcome.Returned? ==> r == outcome.value
  {
    match outcome
    case Returned(result) => result
    case Threw(message) => Failure(message)
  }

  /** The status reply; the error field is set only when the backend threw. */
  datatype StatusReply = StatusReply(status: DnsStatus, error: Option<string>)

  function StatusReplyOf(outcome: Attempt<DnsStatus>): (r: StatusReply)
    ensures outcome.Threw? ==> !r.status.isConnected && r.status.activeDns == [] && r.error == Some(outcome.message)
    ensures outcome.Returned? ==> r.status == outcome.value && r.error.None?
  {
    match outcome
    case Returned(status) => StatusReply(status, None)
    case Threw(message) => StatusReply(PlainStatus(false, []), Some(message))
  }

  /** The ping reply: a thrown error is a failed ping with latency -1. */
  function PingReply(server: string, outcome: Attempt<PingResult>): (r: PingResult)
    ensures outcome.Threw? ==> r.server == server && r.latency == -1 && !r.success && r.error == Some(outcome.message)
    ensures outcome.Returned? ==> r == outcome.value
  {
    match outcome
    case Returned(result) => result
    case Threw(message) => PingResult(server, -1, false, Some(message))
  }

  /** The interface listing: empty when the backend threw. */
  function InterfacesReply(outcome: Attempt<seq<NetworkInterface>>): (r: seq<NetworkInterface>)
    ensures outcome.Threw? ==> r == []
    ensures outcome.Returned? ==> r == outcome.value
  {
    match outcome
    case Returned(list) => list
    case Threw(_) => []
  }

  // ---------------------------------------------------------------- handlers

  class Handlers {
    /** The `config`, `pinnedServers` and `customServers` entries of the store. */
    var config: Config
    var pinned: seq<string>
    var custom: seq<DnsServer>
    /** Whether the tray icon exists, and the connection state it shows. */
    var hasTray: bool
    var trayConnected: bool
    /** The store entries written back, in order. */
    ghost var writes: seq<string>

    constructor(config: Config, pinned: seq<string>, custom: seq<DnsServer>, hasTray: bool)
      ensures this.config == config && this.pinned == pinned && this.custom == custom
      ensures this.hasTray == hasTray && !trayConnected && writes == []
    {
      this.config := config;
      this.pinned := pinned;
      this.custom := custom;
      this.hasTray := hasTray;
      trayConnected := false;
      writes := [];
    }

    /**
     * DNS_CONNECT: `outcome` is what `setDns(servers)` returned or threw. The tray shows
     * "connected" only after a successful change.
     */
    method Connect(outcome: Attempt<OpResult>) returns (r: OpResult)
      modifies this
      ensures r == OperationReply(outcome)
      ensures trayConnected == if hasTray && r.Success? then true else old(trayConnected)
      ensures config == old(config) && pinned == old(pinned) && custom == old(custom)
      ensures hasTray == old(hasTray) && writes == old(writes)
    {
      r := OperationReply(outcome);
      if outcome.Returned? && r.Success? && hasTray {
        trayConnected := true;
      }
    }

    /** DNS_DISCONNECT: `outcome` is what `clearDns()` returned or threw. */
    method Disconnect(outcome: Attempt<OpResult>) returns (r: OpResult)
      modifies this
      ensures r == OperationReply(outcome)
      ensures trayConnected == if hasTray && r.Success? then false else old(trayConnected)
      ensures config == old(config) && pinned == old(pinned) && custom == old(custom)
      ensures hasTray == old(hasTray) && writes == old(writes)
    {
      r := OperationReply(outcome);
      if outcome.Returned? && r.Success? && hasTray {
        trayConnected := false;
      }
    }

    /** CONFIG_GET. */
    method GetConfig() returns (r: Config)
      ensures r == config
    {
      r := config;
    }

    /** CONFIG_SET: the stored settings overlaid by the partial ones, written back and returned. */
    method SetConfig(partial: Config) returns (r: Config)
      modifies this
      ensures config == Overlay(old(config), partial) && r == config
      ensures forall k :: k in partial ==> r[k] == partial[k]
      ensures forall k :: k in old(config) && k !in partial ==> r[k] == old(config)[k]
      ensures pinned == old(pinned) && custom == old(custom)
      ensures hasTray == old(hasTray) && trayConnected == old(trayConnected)
      ensures writes == old(writes) + ["config"]
    {
      var current := config;
      config := Overlay(current, partial);
      writes := writes + ["config"];
      r := config;
    }

    /** SERVERS_GET. */
    method GetServers() returns (p: seq<string>, c: seq<DnsServer>)
      ensures p == pinned && c == custom
    {
      p, c := pinned, custom;
    }

    /** SERVERS_ADD_CUSTOM: the server appended at the end. */
    method AddCustom(server: DnsServer) returns (r: seq<DnsServer>)
      modifies this
      ensures custom == old(custom) + [server] && r == custom
      ensures config == old(config) && pinned == old(pinned)
      ensures hasTray == old(hasTray) && trayConnected == old(trayConnected)
      ensures writes == old(writes) + ["customServers"]
    {
      custom := custom + [server];
      writes := writes + ["customServers"];
      r := custom;
    }

    /** SERVERS_REMOVE_CUSTOM. */
    method RemoveCustom(key: string) returns (r: seq<DnsServer>)
      modifies this
      ensures custom == WithoutKey(old(custom), key) && r == custom
      ensures config == old(config) && pinned == old(pinned)
      ensures hasTray == old(hasTray) && trayConnected == old(trayConnected)
      ensures writes == old(writes) + ["customServers"]
    {
      custom := WithoutKey(custom, key);
      writes := writes + ["customServers"];
      r := custom;
    }

    /** SERVERS_PIN: the key is appended and written back only when it is not pinned yet. */
    method Pin(key: string) returns (r: seq<string>)
      modifies this
      ensures pinned == Pinned(old(pinned), key) && r == pinned
      ensures writes == if key in old(pinned) then old(writes) else old(writes) + ["pinnedServers"]
      ensures config == old(config) && custom == old(custom)
      ensures hasTray == old(hasTray) && trayConnected == old(trayConnected)
    {
      if key !in pinned {
        pinned := pinned + [key];
        writes := writes + ["pinnedServers"];
      }
      r := pinned;
    }

    /** SERVERS_UNPIN. */
    method Unpin(key: string) returns (r: seq<string>)
      modifies this
      ensures pinned == Unpinned(old(pinned), key) && r == pinned
      ensures writes == old(writes) + ["pinnedServers"]
      ensures config == old(config) && custom == old(custom)
      ensures hasTray == old(hasTray) && trayConnected == old(trayConnected)
    {
      pinned := Unpinned(pinned, key);
      writes := writes + ["pinnedServers"];
      r := pinned;
    }
  }
}
