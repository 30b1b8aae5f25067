/**
 * The built-in catalog of public DNS resolvers and the lookups over it: by key, by name
 * (case-insensitive substring) and by tag.
 */
module Servers {
  import opened Wrappers
  import opened Text
  import opened Interfaces
  import opened Lists

  /** The keys of the catalog categories, `all` first. */
  const CategoryKeys: seq<string> :=
    ["all", "popular", "iran", "security", "adblock", "family", "gaming", "privacy", "fast"]

  /** Vanilla DNS, the default and recommended resolver. */
  const VanillaGroup: seq<DnsServer> := [
      DnsServer("vanilla", "Vanilla DNS", ["10.139.177.21", "10.139.177.22"], 5, ["popular", "iran", "fast", "security", "privacy", "adblock", "gaming"], true, false, None)
    ]

  /** Popular international resolvers. */
  const PopularInternational: seq<DnsServer> := [
      DnsServer("google", "Google DNS", ["8.8.8.8", "8.8.4.4"], 5, ["popular", "fast", "security"], false, false, None),
      DnsServer("cloudflare", "Cloudflare", ["1.1.1.1", "1.0.0.1"], 5, ["popular", "fast", "privacy"], false, false, None),
      DnsServer("cloudflare-family", "Cloudflare Family", ["1.1.1.3", "1.0.0.3"], 5, ["popular", "family", "adblock"], false, false, None),
      DnsServer("quad9", "Quad9", ["9.9.9.9", "149.112.112.112"], 5, ["popular", "security", "privacy"], false, false, None),
      DnsServer("opendns", "OpenDNS", ["208.67.222.222", "208.67.220.220"], 4, ["popular", "security"], false, false, None),
      DnsServer("opendns-family", "OpenDNS FamilyShield", ["208.67.222.123", "208.67.220.123"], 4, ["family", "security"], false, false, None),
      DnsServer("adguard", "AdGuard DNS", ["94.140.14.14", "94.140.15.15"], 5, ["popular", "adblock", "privacy"], false, false, None),
      DnsServer("adguard-family", "AdGuard Family", ["94.140.14.15", "94.140.15.16"], 5, ["family", "adblock"], false, false, None),
      DnsServer("comodo", "Comodo Secure", ["8.26.56.26", "8.20.247.20"], 4, ["security"], false, false, None),
      DnsServer("cleanbrowsing-adult", "CleanBrowsing Adult", ["185.228.168.10", "185.228.169.11"], 4, ["family", "security"], false, false, None),
      DnsServer("cleanbrowsing-family", "CleanBrowsing Family", ["185.228.168.168", "185.228.169.168"], 4, ["family"], false, false, None),
      DnsServer("cleanbrowsing-security", "CleanBrowsing Security", ["185.228.168.9", "185.228.169.9"], 4, ["security"], false, false, None),
      DnsServer("nextdns", "NextDNS", ["45.90.28.167", "45.90.30.167"], 5, ["popular", "privacy", "adblock"], false, false, None),
      DnsServer("controld", "Control D", ["76.76.2.0", "76.76.10.0"], 4, ["privacy", "adblock"], false, false, None),
      DnsServer("mullvad", "Mullvad DNS", ["194.242.2.2", "193.19.108.2"], 4, ["privacy"], false, false, None),
      DnsServer("dns0", "dns0.eu", ["193.110.81.0", "185.253.5.0"], 4, ["privacy", "security"], false, false, None)
    ]

  /** Resolvers operated in Iran. */
  const IranianServers: seq<DnsServer> := [
      DnsServer("shecan", "Shecan", ["178.22.122.100", "185.51.200.2"], 5, ["iran", "popular"], false, false, None),
      DnsServer("403", "403.online", ["10.202.10.202", "10.202.10.102"], 4, ["iran", "popular"], false, false, None),
      DnsServer("electro", "Electro Team", ["78.157.42.100", "78.157.42.101"], 4, ["iran"], false, false, None),
      DnsServer("begzar", "Begzar", ["185.55.226.26", "185.55.225.25"], 4, ["iran"], false, false, None),
      DnsServer("radar", "Radar Game", ["10.202.10.10", "10.202.10.11"], 4, ["iran", "gaming"], false, false, None),
      DnsServer("hostiran", "Host Iran", ["172.29.0.100", "172.29.2.100"], 3, ["iran"], false, false, None),
      DnsServer("asiatech", "AsiaTech", ["194.36.174.161", "178.22.122.100"], 3, ["iran"], false, false, None),
      DnsServer("pishgaman", "Pishgaman", ["5.202.100.100", "5.202.100.101"], 3, ["iran"], false, false, None)
    ]

  /** Resolvers listed for gaming and performance. */
  const GamingPerformance: seq<DnsServer> := [
      DnsServer("level3", "Level3", ["209.244.0.3", "209.244.0.4"], 3, ["fast"], false, false, None),
      DnsServer("verisign", "Verisign", ["64.6.64.6", "64.6.65.6"], 3, ["security"], false, false, None),
      DnsServer("neustar", "Neustar UltraDNS", ["64.6.64.6", "156.154.70.1"], 3, ["fast", "security"], false, false, None),
      DnsServer("yandex", "Yandex DNS", ["77.88.8.8", "77.88.8.1"], 3, ["fast"], false, false, None),
      DnsServer("yandex-safe", "Yandex Safe", ["77.88.8.88", "77.88.8.2"], 3, ["security"], false, false, None),
      DnsServer("yandex-family", "Yandex Family", ["77.88.8.7", "77.88.8.3"], 3, ["family"], false, false, None)
    ]

  /** Further international resolvers. */
  const AdditionalInternational: seq<DnsServer> := [
      DnsServer("alternate", "Alternate DNS", ["76.76.19.19", "76.223.122.150"], 3, ["adblock"], false, false, None),
      DnsServer("freenom", "Freenom World", ["80.80.80.80", "80.80.81.81"], 2, ["fast"], false, false, None),
      DnsServer("dyn", "Dyn", ["216.146.35.35", "216.146.36.36"], 3, ["fast"], false, false, None),
      DnsServer("safedns", "SafeDNS", ["195.46.39.39", "195.46.39.40"], 3, ["family", "security"], false, false, None),
      DnsServer("uncensored", "UncensoredDNS", ["91.239.100.100", "89.233.43.71"], 3, ["privacy"], false, false, None),
      DnsServer("fourth-estate", "Fourth Estate", ["45.77.165.194"], 2, ["privacy"], false, false, None),
      DnsServer("cira", "CIRA Shield", ["149.112.121.10", "149.112.122.10"], 3, ["security", "privacy"], false, false, None),
      DnsServer("switch", "SWITCH DNS", ["130.59.31.248", "130.59.31.251"], 3, ["privacy"], false, false, None)
    ]

  /** The catalog that ships with the application, in its display order. */
  const BuiltinServers: seq<DnsServer> :=
    VanillaGroup + PopularInternational + IranianServers + GamingPerformance + AdditionalInternational

  // ---------------------------------------------------------------- catalog invariants

  /** A number that tells the catalog keys apart: the length, the first and the last character. */
  function KeyPrint(key: string): int {
    if key == [] then 0 else |key| * 1000000 + key[0] as int * 1000 + key[|key| - 1] as int
  }

  /** The catalog position of each key print, found by binary search; `-1` for a print no entry has. */
  function PrintIndex(fp: int): int {
    if fp < 7111115 then
      if fp < 6108051 then
        if fp < 5113057 then
          if fp < 4099097 then
            if fp < 3100110 then
              if fp == 3052051 then 18 else -1
            else
              if fp == 3100110 then 33 else -1
          else
            if fp < 4100048 then
              if fp == 4099097 then 37 else -1
            else
              if fp == 4100048 then 16 else -1
        else
          if fp < 6098114 then
            if fp < 5114114 then
              if fp == 5113057 then 4 else -1
            else
              if fp == 5114114 then 21 else -1
          else
            if fp < 6099111 then
              if fp == 6098114 then 20 else -1
            else
              if fp < 6103101 then
                if fp == 6099111 then 9 else -1
              else
                if fp == 6103101 then 1 else -1
      else
        if fp < 7101111 then
          if fp < 6115110 then
            if fp < 6115104 then
              if fp == 6108051 then 25 else -1
            else
              if fp == 6115104 then 38 else -1
          else
            if fp < 6121120 then
              if fp == 6115110 then 17 else -1
            else
              if fp < 7097100 then
                if fp == 6121120 then 28 else -1
              else
                if fp == 7097100 then 7 else -1
        else
          if fp < 7109100 then
            if fp < 7102109 then
              if fp == 7101111 then 19 else -1
            else
              if fp == 7102109 then 32 else -1
          else
            if fp < 7110114 then
              if fp == 7109100 then 15 else -1
            else
              if fp < 7110115 then
                if fp == 7110114 then 27 else -1
              else
                if fp == 7110115 then 13 else -1
    else
      if fp < 10117100 then
        if fp < 8104110 then
          if fp < 7118097 then
            if fp < 7115115 then
              if fp == 7111115 then 5 else -1
            else
              if fp == 7115115 then 34 else -1
          else
            if fp < 8097104 then
              if fp == 7118097 then 0 else -1
            else
              if fp < 8099100 then
                if fp == 8097104 then 23 else -1
              else
                if fp == 8099100 then 14 else -1
        else
          if fp < 9097101 then
            if fp < 8118110 then
              if fp == 8104110 then 22 else -1
            else
              if fp == 8118110 then 26 else -1
          else
            if fp < 9112110 then
              if fp == 9097101 then 31 else -1
            else
              if fp < 10099101 then
                if fp == 9112110 then 24 else -1
              else
                if fp == 10099101 then 2 else -1
      else
        if fp < 14111121 then
          if fp < 13102101 then
            if fp < 11121101 then
              if fp == 10117100 then 35 else -1
            else
              if fp == 11121101 then 29 else -1
          else
            if fp < 13121121 then
              if fp == 13102101 then 36 else -1
            else
              if fp < 14097121 then
                if fp == 13121121 then 30 else -1
              else
                if fp == 14097121 then 8 else -1
        else
          if fp < 19099116 then
            if fp < 17099121 then
              if fp == 14111121 then 6 else -1
            else
              if fp == 17099121 then 3 else -1
          else
            if fp < 20099121 then
              if fp == 19099116 then 10 else -1
            else
              if fp < 22099121 then
                if fp == 20099121 then 11 else -1
              else
                if fp == 22099121 then 12 else -1
  }

  /** The shape every entry but `vanilla` and `fourth-estate` has. */
  predicate Regular(s: DnsServer) {
    && |s.servers| == 2
    && 0 <= s.rating <= 5
    && !s.isDefault
    && !s.isCustom
    && forall t :: t in s.tags ==> t in CategoryKeys && t != "all"
  }

  // The per-group lemmas below establish the entry facts a few entries at a time, each over
  // one literal group, which keeps every proof obligation small.

  lemma PopularInternationalShape()
    ensures forall j :: 0 <= j < |PopularInternational| ==> Regular(PopularInternational[j])
  {
  }

  lemma PopularInternationalPrints1()
    ensures forall j :: 0 <= j < 4 ==> PrintIndex(KeyPrint(PopularInternational[j].key)) == 1 + j
  {
    assert PrintIndex(KeyPrint(PopularInternational[0].key)) == 1;
    assert PrintIndex(KeyPrint(PopularInternational[1].key)) == 2;
    assert PrintIndex(KeyPrint(PopularInternational[2].key)) == 3;
    assert PrintIndex(KeyPrint(PopularInternational[3].key)) == 4;
  }

  lemma PopularInternationalPrints2()
    ensures forall j :: 4 <= j < 8 ==> PrintIndex(KeyPrint(PopularInternational[j].key)) == 1 + j
  {
    assert PrintIndex(KeyPrint(PopularInternational[4].key)) == 5;
    assert PrintIndex(KeyPrint(PopularInternational[5].key)) == 6;
    assert PrintIndex(KeyPrint(PopularInternational[6].key)) == 7;
    assert PrintIndex(KeyPrint(PopularInternational[7].key)) == 8;
  }

  lemma PopularInternationalPrints3()
    ensures forall j :: 8 <= j < 12 ==> PrintIndex(KeyPrint(PopularInternational[j].key)) == 1 + j
  {
    assert PrintIndex(KeyPrint(PopularInternational[8].key)) == 9;
    assert PrintIndex(KeyPrint(PopularInternational[9].key)) == 10;
    assert PrintIndex(KeyPrint(PopularInternational[10].key)) == 11;
    assert PrintIndex(KeyPrint(PopularInternational[11].key)) == 12;
  }

  lemma PopularInternationalPrints4()
    ensures forall j :: 12 <= j < 16 ==> PrintIndex(KeyPrint(PopularInternational[j].key)) == 1 + j
  {
    assert PrintIndex(KeyPrint(PopularInternational[12].key)) == 13;
    assert PrintIndex(KeyPrint(PopularInternational[13].key)) == 14;
    assert PrintIndex(KeyPrint(PopularInternational[14].key)) == 15;
    assert PrintIndex(KeyPrint(PopularInternational[15].key)) == 16;
  }

  lemma IranianServersShape()
    ensures forall j :: 0 <= j < |IranianServers| ==> Regular(IranianServers[j])
  {
  }

  lemma IranianServersPrints()
    ensures forall j :: 0 <= j < 8 ==> PrintIndex(KeyPrint(IranianServers[j].key)) == 17 + j
  {
    assert PrintIndex(KeyPrint(IranianServers[0].key)) == 17;
    assert PrintIndex(KeyPrint(IranianServers[1].key)) == 18;
    assert PrintIndex(KeyPrint(IranianServers[2].key)) == 19;
    assert PrintIndex(KeyPrint(IranianServers[3].key)) == 20;
    assert PrintIndex(KeyPrint(IranianServers[4].key)) == 21;
    assert PrintIndex(KeyPrint(IranianServers[5].key)) == 22;
    assert PrintIndex(KeyPrint(IranianServers[6].key)) == 23;
    assert PrintIndex(KeyPrint(IranianServers[7].key)) == 24;
  }

  lemma GamingPerformanceShape()
    ensures forall j :: 0 <= j < |GamingPerformance| ==> Regular(GamingPerformance[j])
  {
  }

  lemma GamingPerformancePrints()
    ensures forall j :: 0 <= j < 6 ==> PrintIndex(KeyPrint(GamingPerformance[j].key)) == 25 + j
  {
    assert PrintIndex(KeyPrint(GamingPerformance[0].key)) == 25;
    assert PrintIndex(KeyPrint(GamingPerformance[1].key)) == 26;
    assert PrintIndex(KeyPrint(GamingPerformance[2].key)) == 27;
    assert PrintIndex(KeyPrint(GamingPerformance[3].key)) == 28;
    assert PrintIndex(KeyPrint(GamingPerformance[4].key)) == 29;
    assert PrintIndex(KeyPrint(GamingPerformance[5].key)) == 30;
  }

  lemma AdditionalInternationalShape()
    ensures forall j :: 0 <= j < |AdditionalInternational| ==> (j == 5 || Regular(AdditionalInternational[j]))
  {
  }

  lemma AdditionalInternationalPrints()
    ensures forall j :: 0 <= j < 8 ==> PrintIndex(KeyPrint(AdditionalInternational[j].key)) == 31 + j
  {
    assert PrintIndex(KeyPrint(AdditionalInternational[0].key)) == 31;
    assert PrintIndex(KeyPrint(AdditionalInternational[1].key)) == 32;
    assert PrintIndex(KeyPrint(AdditionalInternational[2].key)) == 33;
    assert PrintIndex(KeyPrint(AdditionalInternational[3].key)) == 34;
    assert PrintIndex(KeyPrint(AdditionalInternational[4].key)) == 35;
    assert PrintIndex(KeyPrint(AdditionalInternational[5].key)) == 36;
    assert PrintIndex(KeyPrint(AdditionalInternational[6].key)) == 37;
    assert PrintIndex(KeyPrint(AdditionalInternational[7].key)) == 38;
  }

  /** Each entry's key print leads back to its position; every entry but `vanilla` and `fourth-estate` is regular. */
  lemma EntryFacts(i: nat)
    requires i < |BuiltinServers|
    ensures PrintIndex(KeyPrint(BuiltinServers[i].key)) == i
    ensures i != 0 && i != 36 ==> Regular(BuiltinServers[i])
  {
    PopularInternationalShape();
    PopularInternationalPrints1();
    PopularInternationalPrints2();
    PopularInternationalPrints3();
    PopularInternationalPrints4();
    IranianServersShape();
    IranianServersPrints();
    GamingPerformanceShape();
    GamingPerformancePrints();
    AdditionalInternationalShape();
    AdditionalInternationalPrints();
  }

  /** Every entry is identified by its key: no two entries share one. */
  lemma CatalogKeysDistinct()
    ensures forall i, j :: 0 <= i < j < |BuiltinServers| ==> BuiltinServers[i].key != BuiltinServers[j].key
  {
    forall i, j | 0 <= i < j < |BuiltinServers|
      ensures BuiltinServers[i].key != BuiltinServers[j].key
    {
      EntryFacts(i);
      EntryFacts(j);
    }
  }

  /**
   * The catalog's shape: one or two addresses per entry, a single one only for `fourth-estate`;
   * ratings on the 0 to 5 scale; `vanilla`, the first entry, is the only default; no entry is
   * custom; every tag names a category other than `all`.
   */
  lemma CatalogInvariants()
    ensures |BuiltinServers| == 39
    ensures forall i :: 0 <= i < |BuiltinServers| ==> 1 <= |BuiltinServers[i].servers| <= 2
    ensures forall i :: 0 <= i < |BuiltinServers| ==> (|BuiltinServers[i].servers| == 1 <==> i == 36)
    ensures BuiltinServers[36].key == "fourth-estate"
    ensures forall i :: 0 <= i < |BuiltinServers| ==> 0 <= BuiltinServers[i].rating <= 5
    ensures forall i :: 0 <= i < |BuiltinServers| ==> (BuiltinServers[i].isDefault <==> i == 0)
    ensures BuiltinServers[0].key == "vanilla"
    ensures forall i :: 0 <= i < |BuiltinServers| ==> !BuiltinServers[i].isCustom
    ensures forall i, t :: 0 <= i < |BuiltinServers| && t in BuiltinServers[i].tags ==> t in CategoryKeys && t != "all"
  {
    var vanilla := BuiltinServers[0];
    var fourth := BuiltinServers[36];
    assert vanilla == VanillaGroup[0];
    assert fourth == AdditionalInternational[5];
    assert forall t :: t in vanilla.tags ==> t in CategoryKeys && t != "all";
    assert forall t :: t in fourth.tags ==> t in CategoryKeys && t != "all";
    forall i | 0 <= i < |BuiltinServers| {
      EntryFacts(i);
    }
  }

  // ---------------------------------------------------------------- lookups

  /** `servers.find(s => s.key === key)`: the first entry whose key is exactly `key`. */
  function FindByKey(servers: seq<DnsServer>, key: string): (r: Option<DnsServer>)
    ensures r.Some? ==> r.value in servers && r.value.key == key
    ensures r.None? <==> forall i :: 0 <= i < |servers| ==> servers[i].key != key
  {
    Find(servers, (s: DnsServer) => s.key == key)
  }

  /** In a list with distinct keys, every entry is found by its own key. */
  lemma FindByKeyOfEntry(servers: seq<DnsServer>, i: nat)
    requires forall j, k :: 0 <= j < k < |servers| ==> servers[j].key != servers[k].key
    requires i < |servers|
    ensures FindByKey(servers, servers[i].key) == Some(servers[i])
  {
    var key := servers[i].key;
    FindFirst(servers, (s: DnsServer) => s.key == key, i);
  }

  /** `findServerByKey` looks the key up in the catalog. */
  function FindServerByKey(key: string): Option<DnsServer> {
    FindByKey(BuiltinServers, key)
  }

  /** Every catalog entry is found by its own key. */
  lemma FindServerByKeyOfEntry(i: nat)
    requires i < |BuiltinServers|
    ensures FindServerByKey(BuiltinServers[i].key) == Some(BuiltinServers[i])
  {
    CatalogKeysDistinct();
    FindByKeyOfEntry(BuiltinServers, i);
  }

  /** The first entry whose lower-cased name contains the lower-cased query. */
  function FindByName(servers: seq<DnsServer>, name: string): (r: Option<DnsServer>)
    ensures r.Some? ==> r.value in servers && Contains(ToLower(r.value.name), ToLower(name))
    ensures r.None? <==> forall i :: 0 <= i < |servers| ==> !Contains(ToLower(servers[i].name), ToLower(name))
  {
    var lower := ToLower(name);
    Find(servers, (s: DnsServer) => Contains(ToLower(s.name), lower))
  }

  /** The match is the first one in list order. */
  lemma FindByNameFirst(servers: seq<DnsServer>, name: string, i: nat)
    requires i < |servers| && Contains(ToLower(servers[i].name), ToLower(name))
    requires forall j :: 0 <= j < i ==> !Contains(ToLower(servers[j].name), ToLower(name))
    ensures FindByName(servers, name) == Some(servers[i])
  {
    var lower := ToLower(name);
    FindFirst(servers, (s: DnsServer) => Contains(ToLower(s.name), lower), i);
  }

  /** The query's case does not matter. */
  lemma FindByNameIgnoresCase(servers: seq<DnsServer>, name: string)
    ensures FindByName(servers, ToLower(name)) == FindByName(servers, name)
  {
    ToLowerIdempotent(name);
  }

  /** The empty query is contained in every name, so it finds the first entry. */
  lemma FindByNameEmpty(servers: seq<DnsServer>)
    requires servers != []
    ensures FindByName(servers, "") == Some(servers[0])
  {
    assert StartsWith(ToLower(servers[0].name), ToLower(""));
    FindByNameFirst(servers, "", 0);
  }

  /** `findServerByName` searches the catalog. */
  function FindServerByName(name: string): Option<DnsServer> {
    FindByName(BuiltinServers, name)
  }

  /** Exactly the entries carrying `tag`, in list order. */
  function ByTag(servers: seq<DnsServer>, tag: string): (r: seq<DnsServer>)
    ensures forall s :: s in r <==> s in servers && tag in s.tags
    ensures IsSubsequence(r, servers)
  {
    FilterSubsequence(servers, (s: DnsServer) => tag in s.tags);
    Filter(servers, (s: DnsServer) => tag in s.tags)
  }

  /** The first entry is listed first when it carries the tag, and is skipped otherwise. */
  lemma ByTagHead(servers: seq<DnsServer>, tag: string)
    requires servers != []
    ensures tag in servers[0].tags ==> ByTag(servers, tag) == [servers[0]] + ByTag(servers[1..], tag)
    ensures tag !in servers[0].tags ==> ByTag(servers, tag) == ByTag(servers[1..], tag)
  {
  }

  /**
   * `getServersByTag` filters the catalog; `getPopularServers` and `getIranianServers` are this
   * lookup with the tags `popular` and `iran`.
   */
  function GetServersByTag(tag: string): seq<DnsServer> {
    ByTag(BuiltinServers, tag)
  }

  /** `getPopularServers`: the lookup by tag, for `popular`; `ByTag` states what it lists. */
  function PopularServers(): seq<DnsServer> {
    GetServersByTag("popular")
  }

  /** `getIranianServers`: the lookup by tag, for `iran`. */
  function IranServers(): seq<DnsServer> {
    GetServersByTag("iran")
  }
}
