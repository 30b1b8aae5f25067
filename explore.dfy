/**
 * The server list of the Explore page: the catalog and the custom servers, narrowed by the
 * search box and the selected category, then ordered with Vanilla DNS first and the rest by
 * rating, highest first.
 */
module Explore {
  import opened Text
  import opened Lists
  import opened Interfaces

  const VanillaKey: string := "vanilla"

  /** The category that disables the category filter. */
  const AllCategories: string := "all"

  /**
   * The search rule: the lower-cased name, one of the addresses, or one of the lower-cased tags
   * contains `query`, which is already lower-cased.
   */
  predicate MatchesQuery(server: DnsServer, query: string) {
    || Contains(ToLower(server.name), query)
    || (exists i :: 0 <= i < |server.servers| && Contains(server.servers[i], query))
    || (exists i :: 0 <= i < |server.tags| && Contains(ToLower(server.tags[i]), query))
  }

  function Matching(query: string): DnsServer -> bool {
    (s: DnsServer) => MatchesQuery(s, query)
  }

  function Tagged(category: string): DnsServer -> bool {
    (s: DnsServer) => category in s.tags
  }

  /** The search filter; an empty search keeps every server. */
  function Searched(xs: seq<DnsServer>, searchQuery: string): seq<DnsServer> {
    if searchQuery == "" then xs else Filter(xs, Matching(ToLower(searchQuery)))
  }

  /** The category filter; `all` keeps every server. */
  function InCategory(xs: seq<DnsServer>, category: string): seq<DnsServer> {
    if category == AllCategories then xs else Filter(xs, Tagged(category))
  }

  predicate IsVanilla(s: DnsServer) {
    s.key == VanillaKey
  }

  /**
   * The comparator's strict order: the Vanilla DNS entry before any other, otherwise the higher
   * rating first.
   */
  predicate Precedes(a: DnsServer, b: DnsServer) {
    || (IsVanilla(a) && !IsVanilla(b))
    || (!IsVanilla(a) && !IsVanilla(b) && a.rating > b.rating)
  }

  /** Two entries that do not strictly precede one another may come in either order. */
  lemma PrecedesNegativelyTransitive(a: DnsServer, b: DnsServer, c: DnsServer)
    requires !Precedes(b, a) && !Precedes(c, b)
    ensures !Precedes(c, a)
  {
  }

  /** Every later entry is not strictly before an earlier one. */
  predicate Ordered(xs: seq<DnsServer>) {
    forall i, j :: 0 <= i < j < |xs| ==> !Precedes(xs[j], xs[i])
  }

  /** Places `x` in front of the first entry that does not strictly precede it. */
  function Insert(x: DnsServer, ys: seq<DnsServer>): (r: seq<DnsServer>)
    ensures multiset(r) == multiset(ys) + multiset{x}
    ensures |r| == |ys| + 1
  {
    if ys == [] then [x]
    else if Precedes(ys[0], x) then
      assert ys == [ys[0]] + ys[1..];
      [ys[0]] + Insert(x, ys[1..])
    else [x] + ys
  }

  /** The stable sort with the comparator, by insertion. */
  function Sort(xs: seq<DnsServer>): (r: seq<DnsServer>)
    ensures multiset(r) == multiset(xs)
    ensures |r| == |xs|
  {
    if xs == [] then []
    else
      assert xs == [xs[0]] + xs[1..];
      Insert(xs[0], Sort(xs[1..]))
  }

  lemma {:induction false} InsertOrdered(x: DnsServer, ys: seq<DnsServer>)
    requires Ordered(ys)
    ensures Ordered(Insert(x, ys))
  {
    if ys == [] {
    } else if Precedes(ys[0], x) {
      InsertOrdered(x, ys[1..]);
      InsertAfterHead(x, ys);
    } else {
      InsertAtFront(x, ys);
    }
  }

  /** No entry of `xs` strictly precedes `a`. */
  predicate NotBefore(a: DnsServer, xs: seq<DnsServer>) {
    forall k :: 0 <= k < |xs| ==> !Precedes(xs[k], a)
  }

  /** An entry that nothing after it precedes, in front of an ordered list, keeps it ordered. */
  lemma OrderedCons(a: DnsServer, zs: seq<DnsServer>)
    requires NotBefore(a, zs) && Ordered(zs)
    ensures Ordered([a] + zs)
  {
    var r := [a] + zs;
    forall i, j | 0 <= i < j < |r| ensures !Precedes(r[j], r[i]) {
      assert r[j] == zs[j - 1];
      if i > 0 {
        assert r[i] == zs[i - 1];
      }
    }
  }

  /** Inserting an entry that does not precede `a` keeps every entry from preceding `a`. */
  lemma {:induction false} InsertNotBefore(a: DnsServer, x: DnsServer, ys: seq<DnsServer>)
    requires NotBefore(a, ys) && !Precedes(x, a)
    ensures NotBefore(a, Insert(x, ys))
  {
    if ys != [] && Precedes(ys[0], x) {
      var rest := Insert(x, ys[1..]);
      assert NotBefore(a, ys[1..]) by {
        forall k | 0 <= k < |ys[1..]| ensures !Precedes(ys[1..][k], a) {
          assert ys[1..][k] == ys[k + 1];
        }
      }
      InsertNotBefore(a, x, ys[1..]);
      var r := [ys[0]] + rest;
      assert Insert(x, ys) == r;
      forall k | 0 <= k < |r| ensures !Precedes(r[k], a) {
        if k > 0 {
          assert r[k] == rest[k - 1];
        }
      }
    } else if ys != [] {
      var r := [x] + ys;
      assert Insert(x, ys) == r;
      forall k | 0 <= k < |r| ensures !Precedes(r[k], a) {
        if k > 0 {
          assert r[k] == ys[k - 1];
        }
      }
    }
  }

  /** When the head precedes `x`, it stays in front of the ordered insertion into the rest. */
  lemma InsertAfterHead(x: DnsServer, ys: seq<DnsServer>)
    requires ys != [] && Precedes(ys[0], x) && Ordered(ys) && Ordered(Insert(x, ys[1..]))
    ensures Ordered(Insert(x, ys))
  {
    assert NotBefore(ys[0], ys[1..]) by {
      forall k | 0 <= k < |ys[1..]| ensures !Precedes(ys[1..][k], ys[0]) {
        assert ys[1..][k] == ys[k + 1];
      }
    }
    InsertNotBefore(ys[0], x, ys[1..]);
    OrderedCons(ys[0], Insert(x, ys[1..]));
    assert Insert(x, ys) == [ys[0]] + Insert(x, ys[1..]);
  }

  /** When the head does not precede `x`, putting `x` in front keeps the order. */
  lemma InsertAtFront(x: DnsServer, ys: seq<DnsServer>)
    requires ys != [] && !Precedes(ys[0], x) && Ordered(ys)
    ensures Ordered(Insert(x, ys))
  {
    forall k | 0 <= k < |ys| ensures !Precedes(ys[k], x) {
      if k > 0 {
        PrecedesNegativelyTransitive(x, ys[0], ys[k]);
      }
    }
    OrderedCons(x, ys);
    assert Insert(x, ys) == [x] + ys;
  }

  lemma {:induction false} SortOrdered(xs: seq<DnsServer>)
    ensures Ordered(Sort(xs))
  {
    if xs != [] {
      SortOrdered(xs[1..]);
      InsertOrdered(xs[0], Sort(xs[1..]));
    }
  }

  /** `filteredServers`: search, then category, then the sort, over catalog then custom servers. */
  function FilteredServers(servers: seq<DnsServer>, customServers: seq<DnsServer>, searchQuery: string, category: string): seq<DnsServer> {
    Sort(InCategory(Searched(servers + customServers, searchQuery), category))
  }

  /** The filters only remove entries: the result is a sub-multiset of all servers. */
  lemma FilteredSubMultiset(servers: seq<DnsServer>, customServers: seq<DnsServer>, searchQuery: string, category: string)
    ensures multiset(FilteredServers(servers, customServers, searchQuery, category)) <= multiset(servers + customServers)
  {
  }

  /** Without a search and with category `all`, every server is listed, each as often as it occurs. */
  lemma FilteredEverything(servers: seq<DnsServer>, customServers: seq<DnsServer>)
    ensures multiset(FilteredServers(servers, customServers, "", AllCategories)) == multiset(servers + customServers)
  {
  }

  /**
   * A server is listed exactly when it is a catalog or custom server that passes the search
   * (when there is one) and carries the selected category (unless it is `all`).
   */
  lemma FilteredMembership(servers: seq<DnsServer>, customServers: seq<DnsServer>, searchQuery: string, category: string, s: DnsServer)
    ensures s in FilteredServers(servers, customServers, searchQuery, category) <==>
      && s in servers + customServers
      && (searchQuery == "" || MatchesQuery(s, ToLower(searchQuery)))
      && (category == AllCategories || category in s.tags)
  {
    var all := servers + customServers;
    var searched := Searched(all, searchQuery);
    var narrowed := InCategory(searched, category);
    var r := Sort(narrowed);
    var passes := searchQuery == "" || MatchesQuery(s, ToLower(searchQuery));
    assert s in searched <==> s in all && passes by {
      if searchQuery != "" {
        assert Matching(ToLower(searchQuery))(s) == MatchesQuery(s, ToLower(searchQuery));
      }
    }
    assert s in narrowed <==> s in searched && (category == AllCategories || category in s.tags) by {
      if category != AllCategories {
        assert Tagged(category)(s) == (category in s.tags);
      }
    }
    assert s in r <==> s in narrowed by {
      assert s in r <==> s in multiset(r);
      assert s in narrowed <==> s in multiset(narrowed);
    }
  }

  /**
   * The listing's order: a Vanilla DNS entry, when listed, comes first, and among the other
   * entries the ratings never increase.
   */
  lemma FilteredOrder(servers: seq<DnsServer>, customServers: seq<DnsServer>, searchQuery: string, category: string)
    ensures var r := FilteredServers(servers, customServers, searchQuery, category);
      && ((exists i :: 0 <= i < |r| && IsVanilla(r[i])) ==> IsVanilla(r[0]))
      && (forall i, j :: 0 <= i < j < |r| && !IsVanilla(r[i]) && !IsVanilla(r[j]) ==> r[i].rating >= r[j].rating)
  {
    SortOrdered(InCategory(Searched(servers + customServers, searchQuery), category));
  }
}
