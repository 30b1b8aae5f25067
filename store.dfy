/**
 * The desktop application's key-value store: a JSON object kept in memory and written back to
 * its file after every change. Reading and writing the file are outside this model: what the
 * file held when the store was created is a parameter, and every write the store attempts is
 * recorded in the ghost field `saves`. A failed write is reported only on the console, so no
 * operation of the store ever fails.
 */
module Store {
  import opened Wrappers
  import opened Json

  /** The data a store starts with: the defaults overlaid by the file, or the defaults alone. */
  function Load<V>(defaults: map<string, V>, stored: Option<map<string, V>>): (r: map<string, V>)
    ensures stored.None? ==> r == defaults
    ensures stored.Some? ==> r.Keys == defaults.Keys + stored.value.Keys
    ensures stored.Some? ==> forall k :: k in stored.value ==> r[k] == stored.value[k]
    ensures stored.Some? ==> forall k :: k in defaults && k !in stored.value ==> r[k] == defaults[k]
  {
    match stored
    case None => defaults
    case Some(file) => Overlay(defaults, file)
  }

  /** The file name: the store's name, `config` when it has none, with `.json` appended. */
  function FileName(name: Option<string>): (r: string)
    ensures name.Some? && name.value != "" ==> r == name.value + ".json"
    ensures name.None? || name.value == "" ==> r == "config.json"
  {
    (if name.None? || name.value == "" then "config" else name.value) + ".json"
  }

  class SimpleStore<V> {
    var data: map<string, V>
    const fileName: string
    /** The data handed to the file writer, one entry per change, in order. */
    ghost var saves: seq<map<string, V>>

    /**
     * `stored` is the parsed content of the store's file: `None` when the file is missing, cannot
     * be read or does not parse.
     */
    constructor(defaults: map<string, V>, name: Option<string>, stored: Option<map<string, V>>)
      ensures data == Load(defaults, stored)
      ensures fileName == FileName(name)
      ensures saves == []
    {
      data := Load(defaults, stored);
      fileName := FileName(name);
      saves := [];
    }

    /** `get(key)`: the value, `None` for a missing key. */
    function Get(key: string): (r: Option<V>)
      reads this
      ensures r.Some? <==> key in data
      ensures r.Some? ==> r.value == data[key]
    {
      if key in data then Some(data[key]) else None
    }

    /** `has(key)`. */
    function Has(key: string): (r: bool)
      reads this
      ensures r <==> Get(key).Some?
    {
      key in data
    }

    /** `set(key, value)`: the key now holds the value, every other key is unchanged. */
    method Set(key: string, value: V)
      modifies this
      ensures data == old(data)[key := value]
      ensures Get(key) == Some(value)
      ensures forall k :: k != key ==> Get(k) == old(Get(k))
      ensures saves == old(saves) + [data]
    {
      data := data[key := value];
      saves := saves + [data];
    }

    /** `delete(key)`: the key is gone, every other key is unchanged. */
    method Delete(key: string)
      modifies this
      ensures data == old(data) - {key}
      ensures !Has(key)
      ensures forall k :: k != key ==> Get(k) == old(Get(k))
      ensures saves == old(saves) + [data]
    {
      data := data - {key};
      saves := saves + [data];
    }

    /** `clear()`: no key is left. */
    method Clear()
      modifies this
      ensures data == map[]
      ensures forall k :: !Has(k)
      ensures saves == old(saves) + [data]
    {
      data := map[];
      saves := saves + [data];
    }

    /** `getAll()`: a copy of the data; the store keeps its own value. */
    method GetAll() returns (all: map<string, V>)
      ensures all == data
    {
      all := data;
    }

    /** `setAll(d)`: the keys of `d` take its values, every other key is unchanged. */
    method SetAll(d: map<string, V>)
      modifies this
      ensures data == Overlay(old(data), d)
      ensures forall k :: k in d ==> Get(k) == Some(d[k])
      ensures forall k :: k !in d ==> Get(k) == old(Get(k))
      ensures saves == old(saves) + [data]
    {
      data := Overlay(data, d);
      saves := saves + [data];
    }
  }

  /** The entries of the application's store. */
  const ConfigKey: string := "config"
  const PinnedServersKey: string := "pinnedServers"
  const CustomServersKey: string := "customServers"
  const ConnectionHistoryKey: string := "connectionHistory"
  const LastConnectedServerKey: string := "lastConnectedServer"

  /** The defaults of the application's store: default settings and empty lists. */
  const StoreDefaults: map<string, Json> := map[
    ConfigKey := JObject(DefaultConfig),
    PinnedServersKey := JArray([]),
    CustomServersKey := JArray([]),
    ConnectionHistoryKey := JArray([])
  ]

  /** `createStore()`: the store named `vanilla-dns-config` with the application defaults. */
  method CreateStore(stored: Option<map<string, Json>>) returns (store: SimpleStore<Json>)
    ensures fresh(store)
    ensures store.fileName == "vanilla-dns-config.json"
    ensures store.data == Load(StoreDefaults, stored)
    ensures stored.None? ==> store.Get(ConfigKey) == Some(JObject(DefaultConfig))
  {
    store := new SimpleStore(StoreDefaults, Some("vanilla-dns-config"), stored);
  }
}
