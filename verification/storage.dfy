/** The in-memory store of the web server (server/storage.ts, `MemStorage`):
    users and betting sites under sequential ids, a market table bounded
    to the newest markets, the latest arbitrage opportunities per event and
    market, and a bounded history of everything detected. */
module Storage {
  import opened Wrappers
  import opened OrderedMap
  import opened Sorting
  import opened Schema
  import Arbitrage

  /** `marketRetention`. */
  const MarketRetention: nat := 500
  /** `arbitrageHistoryLimit`. */
  const ArbitrageHistoryLimit: nat := 200

  datatype User = User(id: int, username: string, password: string, email: string, notificationsEnabled: bool)

  /** `InsertUser`; an omitted `notificationsEnabled` is `None`. */
  datatype InsertUser = InsertUser(username: string, password: string, email: string, notificationsEnabled: Option<bool>)

  datatype BettingSite = BettingSite(id: int, name: string, url: string)

  /** `InsertBettingSite`: the insert schema of the sites table, whose
      serial id may be given. */
  datatype InsertBettingSite = InsertBettingSite(id: Option<int>, name: string, url: string)

  /** The two sites every store starts with. */
  const SeedSites: seq<(int, BettingSite)> :=
    [(1, BettingSite(1, "Bet365", "https://bet365.com")), (2, BettingSite(2, "Betway", "https://betway.com"))]

  function UserId(u: User): int { u.id }

  function SiteId(s: BettingSite): int { s.id }

  /** Entries numbered 1, 2, 3, … in insertion order, each value carrying
      its key as its id. */
  ghost predicate Numbered<V>(table: seq<(int, V)>, id: V -> int)
  {
    forall i :: 0 <= i < |table| ==> table[i].0 == i + 1 && id(table[i].1) == i + 1
  }

  lemma NumberedKeys<V>(table: seq<(int, V)>, id: V -> int)
    requires Numbered(table, id)
    ensures UniqueKeys(table)
    ensures forall k :: k in Keys(table) <==> 1 <= k <= |table|
  {
    forall k | 1 <= k <= |table| ensures k in Keys(table) {
      assert table[k - 1].0 == k;
    }
  }

  /** The first user with the given username: `Array.prototype.find` over
      the users in insertion order. */
  function FirstNamed(users: seq<User>, username: string): (r: Option<User>)
    ensures r.None? <==> forall i :: 0 <= i < |users| ==> users[i].username != username
    ensures r.Some? ==> exists i :: 0 <= i < |users| && users[i] == r.value && r.value.username == username &&
                                    forall j :: 0 <= j < i ==> users[j].username != username
  {
    if |users| == 0 then None
    else if users[0].username == username then Some(users[0])
    else
      assert forall i :: 1 <= i < |users| ==> users[i] == users[1..][i - 1];
      FirstNamed(users[1..], username)
  }

  // Markets

  function MarketId(m: Market): string { m.id }

  /** The sort key of the comparator `Date.parse(b.timestamp) - Date.parse(a.timestamp)`. */
  function Recency(parseDate: string -> real): Market -> real
  {
    (m: Market) => -parseDate(m.timestamp)
  }

  /** `getMarkets`' order: a permutation of the markets, newest first by
      parsed timestamp. */
  function NewestFirst(ms: seq<Market>, parseDate: string -> real): (r: seq<Market>)
    ensures multiset(r) == multiset(ms)
    ensures forall i, j :: 0 <= i < j < |r| ==> parseDate(r[i].timestamp) >= parseDate(r[j].timestamp)
  {
    var r := SortBy(ms, Recency(parseDate));
    assert forall i, j :: 0 <= i < j < |r| ==> Recency(parseDate)(r[i]) <= Recency(parseDate)(r[j]);
    r
  }

  /** A market table: keys distinct, each market stored under its own id. */
  ghost predicate KeyedById(table: seq<(string, Market)>)
  {
    UniqueKeys(table) && forall i :: 0 <= i < |table| ==> table[i].1.id == table[i].0
  }

  /** No two markets of the list share an id. */
  ghost predicate DistinctIds(ms: seq<Market>)
  {
    forall i, j :: 0 <= i < j < |ms| ==> ms[i].id != ms[j].id
  }

  /** The retention step: a table over the limit is rebuilt from its newest
      `MarketRetention` markets. */
  function Retain(table: seq<(string, Market)>, parseDate: string -> real): (r: seq<(string, Market)>)
    requires KeyedById(table)
    ensures KeyedById(r)
    ensures |r| <= MarketRetention || r == table
    ensures forall i :: 0 <= i < |r| ==> r[i] in table
  {
    if |table| > MarketRetention then
      TrimmedFromTable(table, parseDate);
      FromEntries(Entries(NewestFirst(Values(table), parseDate)[..MarketRetention], MarketId))
    else table
  }

  /** The newest `MarketRetention` markets, re-keyed by id, form a table
      keyed by id whose entries all come from the original table. */
  lemma TrimmedFromTable(table: seq<(string, Market)>, parseDate: string -> real)
    requires KeyedById(table) && |table| > MarketRetention
    ensures var r := FromEntries(Entries(NewestFirst(Values(table), parseDate)[..MarketRetention], MarketId));
      KeyedById(r) && |r| <= MarketRetention && forall i :: 0 <= i < |r| ==> r[i] in table
  {
    var kept := NewestFirst(Values(table), parseDate)[..MarketRetention];
    var entries := Entries(kept, MarketId);
    var r := FromEntries(entries);
    KeptStored(table, parseDate);
    forall i | 0 <= i < |r| ensures r[i] in table && r[i].1.id == r[i].0 {
      assert r[i] in entries;
      var j :| 0 <= j < |kept| && entries[j] == r[i];
      var e :| 0 <= e < |table| && table[e].1 == kept[j];
    }
  }

  /** Every kept market is stored in the table. */
  lemma KeptStored(table: seq<(string, Market)>, parseDate: string -> real)
    requires |table| > MarketRetention
    ensures forall j :: 0 <= j < MarketRetention ==>
      exists e :: 0 <= e < |table| && table[e].1 == NewestFirst(Values(table), parseDate)[j]
  {
    var sorted := NewestFirst(Values(table), parseDate);
    forall j | 0 <= j < MarketRetention
      ensures exists e :: 0 <= e < |table| && table[e].1 == sorted[j]
    {
      assert sorted[j] in multiset(Values(table));
    }
  }

  /** The market table after `upsertMarkets(batch)`: an empty batch leaves
      it alone; otherwise each market is set under its id in batch order,
      then the retention step runs. */
  function Upsert(table: seq<(string, Market)>, batch: seq<Market>, parseDate: string -> real): (r: seq<(string, Market)>)
    requires KeyedById(table)
    ensures KeyedById(r)
    ensures |table| <= MarketRetention ==> |r| <= MarketRetention
  {
    if |batch| == 0 then table
    else
      MergedKeyedById(table, batch);
      Retain(SetAll(table, Entries(batch, MarketId)), parseDate)
  }

  /** Setting each market of a batch under its id keeps a table keyed by
      id. */
  lemma MergedKeyedById(table: seq<(string, Market)>, batch: seq<Market>)
    requires KeyedById(table)
    ensures KeyedById(SetAll(table, Entries(batch, MarketId)))
  {
    var merged := SetAll(table, Entries(batch, MarketId));
    forall i | 0 <= i < |merged| ensures merged[i].1.id == merged[i].0 {
      if merged[i] !in table {
        assert merged[i] in Entries(batch, MarketId);
      }
    }
  }

  /** How many times x occurs in a list without repeated ids. */
  lemma {:induction false} OccursAtMostOnce(t: seq<Market>, x: Market)
    requires DistinctIds(t)
    ensures multiset(t)[x] <= 1
  {
    if |t| > 0 {
      var front, last := t[..|t| - 1], t[|t| - 1];
      assert t == front + [last];
      OccursAtMostOnce(front, x);
      if last == x {
        assert x !in front;
      }
    }
  }

  /** An element at two positions occurs twice. */
  lemma OccursTwice(s: seq<Market>, i: nat, j: nat)
    requires i < j < |s| && s[i] == s[j]
    ensures multiset(s)[s[i]] >= 2
  {
    assert s == s[..j] + s[j..];
    assert s[..j][i] == s[i];
    assert s[j..][0] == s[i];
  }

  /** Reordering a list keeps its ids distinct. */
  lemma DistinctIdsPermuted(s: seq<Market>, t: seq<Market>)
    requires multiset(s) == multiset(t) && DistinctIds(t)
    ensures DistinctIds(s)
  {
    forall i, j | 0 <= i < j < |s| ensures s[i].id != s[j].id {
      OccursAtMostOnce(t, s[i]);
      if s[i] == s[j] {
        OccursTwice(s, i, j);
      }
      assert s[i] in multiset(t) && s[j] in multiset(t);
      var p :| 0 <= p < |t| && t[p] == s[i];
      var q :| 0 <= q < |t| && t[q] == s[j];
    }
  }

  /** Over the limit, exactly the `MarketRetention` newest markets of the
      table are kept, in newest-first order: no dropped market is newer
      than a kept one. */
  lemma RetainKeepsNewest(table: seq<(string, Market)>, parseDate: string -> real)
    requires KeyedById(table) && |table| > MarketRetention
    ensures |Retain(table, parseDate)| == MarketRetention
    ensures forall x, y :: x in Values(Retain(table, parseDate)) && y in Values(table) && y !in Values(Retain(table, parseDate)) ==>
      parseDate(x.timestamp) >= parseDate(y.timestamp)
  {
    RetainValues(table, parseDate);
    NewestPrefix(Values(table), parseDate, MarketRetention);
  }

  /** Over the limit, the retained table holds the newest markets in
      newest-first order. */
  lemma RetainValues(table: seq<(string, Market)>, parseDate: string -> real)
    requires KeyedById(table) && |table| > MarketRetention
    ensures Values(Retain(table, parseDate)) == NewestFirst(Values(table), parseDate)[..MarketRetention]
  {
    var values := Values(table);
    var sorted := NewestFirst(values, parseDate);
    var kept := sorted[..MarketRetention];
    assert DistinctIds(values);
    DistinctIdsPermuted(sorted, values);
    var entries := Entries(kept, MarketId);
    assert UniqueKeys(entries);
    FromDistinctEntries(entries);
  }

  /** No market outside a newest-first prefix is newer than one inside it. */
  lemma NewestPrefix(values: seq<Market>, parseDate: string -> real, n: nat)
    requires n <= |values|
    ensures var kept := NewestFirst(values, parseDate)[..n];
      forall x, y :: x in kept && y in values && y !in kept ==> parseDate(x.timestamp) >= parseDate(y.timestamp)
  {
    var sorted := NewestFirst(values, parseDate);
    var kept := sorted[..n];
    forall x, y | x in kept && y in values && y !in kept
      ensures parseDate(x.timestamp) >= parseDate(y.timestamp)
    {
      var i :| 0 <= i < |kept| && kept[i] == x;
      assert y in multiset(sorted);
      var j :| 0 <= j < |sorted| && sorted[j] == y;
      InPrefix(sorted, n, j);
    }
  }

  lemma InPrefix<T>(s: seq<T>, n: nat, j: nat)
    requires n <= |s| && j < |s|
    ensures j < n ==> s[j] in s[..n]
  {
    if j < n {
      assert s[..n][j] == s[j];
    }
  }

  /** Upsert semantics: a market of the batch replaces the one stored under
      its id, a later market of the batch wins over an earlier one with the
      same id, other ids keep their market, and retention only ever removes
      entries. */
  lemma UpsertGet(table: seq<(string, Market)>, batch: seq<Market>, parseDate: string -> real, k: string)
    requires KeyedById(table)
    ensures var stored := Get(Upsert(table, batch, parseDate), k);
      var merged := SetAll(table, Entries(batch, MarketId));
      (|batch| == 0 ==> stored == Get(table, k)) &&
      (|batch| > 0 ==> Get(merged, k) == if k in Keys(Entries(batch, MarketId)) then LastValue(Entries(batch, MarketId), k) else Get(table, k)) &&
      (|batch| > 0 && stored.Some? ==> stored == Get(merged, k)) &&
      (|batch| > 0 && |merged| <= MarketRetention ==> stored == Get(merged, k))
  {
    if |batch| > 0 {
      SetAllGet(table, Entries(batch, MarketId), k);
      MergedKeyedById(table, batch);
      RetainGet(SetAll(table, Entries(batch, MarketId)), parseDate, k);
    }
  }

  /** Retention never changes the market stored under an id: it either
      keeps the entry or drops it. */
  lemma RetainGet(table: seq<(string, Market)>, parseDate: string -> real, k: string)
    requires KeyedById(table)
    ensures Get(Retain(table, parseDate), k).Some? ==> Get(Retain(table, parseDate), k) == Get(table, k)
  {
    var r := Retain(table, parseDate);
    if Get(r, k).Some? {
      var e :| 0 <= e < |r| && r[e].0 == k;
      GetAt(r, e);
      var f :| 0 <= f < |table| && table[f] == r[e];
      GetAt(table, f);
    }
  }

  /** `for (const market of markets) this.markets.set(market.id, market)`. */
  method SetEach(table: seq<(string, Market)>, batch: seq<Market>) returns (r: seq<(string, Market)>)
    requires UniqueKeys(table)
    ensures r == SetAll(table, Entries(batch, MarketId))
  {
    r := table;
    for i := 0 to |batch|
      invariant r == SetAll(table, Entries(batch[..i], MarketId))
    {
      var market := batch[i];
      assert Entries(batch[..i + 1], MarketId)[..i] == Entries(batch[..i], MarketId);
      r := Set(r, market.id, market);
    }
    assert batch[..|batch|] == batch;
  }

  /** The table update of `upsertMarkets`: nothing for an empty batch,
      otherwise the set loop, then the trim to the newest `MarketRetention`
      markets. */
  method SetAndTrim(markets: seq<(string, Market)>, batch: seq<Market>, parseDate: string -> real)
    returns (table: seq<(string, Market)>)
    requires MarketTable(markets)
    ensures table == Upsert(markets, batch, parseDate)
    ensures MarketTable(table)
  {
    if |batch| == 0 {
      return markets;
    }
    table := SetEach(markets, batch);
    MergedKeyedById(markets, batch);
    if |table| > MarketRetention {
      var sorted := NewestFirst(Values(table), parseDate);
      var trimmed := sorted[..MarketRetention];
      table := FromEntries(Entries(trimmed, MarketId));
    }
  }

  // Arbitrage opportunities

  /** The key of the latest map: `${eventId}:${marketName}`. */
  function ArbitrageKey(o: ArbitrageOpportunity): string
  {
    o.eventId + ":" + o.marketName
  }

  /** `{ ...opportunity, createdAt: opportunity.createdAt ?? now }`. */
  function Stamp(o: ArbitrageOpportunity, now: string): ArbitrageOpportunity
  {
    o.(createdAt := Some(o.createdAt.GetOr(now)))
  }

  /** `updated`: every opportunity carries a creation time, the one it had
      or else `now`, and nothing else about it changes. */
  function Stamped(batch: seq<ArbitrageOpportunity>, now: string): (r: seq<ArbitrageOpportunity>)
    ensures |r| == |batch|
    ensures forall i :: 0 <= i < |r| ==>
      r[i].createdAt.Some? && r[i].(createdAt := batch[i].createdAt) == batch[i] &&
      (batch[i].createdAt.Some? ==> r[i] == batch[i]) &&
      (batch[i].createdAt.None? ==> r[i].createdAt == Some(now))
  {
    seq(|batch|, i requires 0 <= i < |batch| => Stamp(batch[i], now))
  }

  /** The latest map after `setArbitrageOpportunities(batch)`: built from
      the batch alone, holding exactly the batch's keys. */
  function Latest(batch: seq<ArbitrageOpportunity>, now: string): (r: seq<(string, ArbitrageOpportunity)>)
    ensures UniqueKeys(r) && |r| <= |batch|
    ensures forall k :: k in Keys(r) <==> exists i :: 0 <= i < |batch| && ArbitrageKey(batch[i]) == k
    ensures forall i :: 0 <= i < |r| ==> r[i].0 == ArbitrageKey(r[i].1) && r[i].1.createdAt.Some?
  {
    LatestKeys(batch, now);
    FromEntries(Entries(Stamped(batch, now), ArbitrageKey))
  }

  /** The keys of the latest map are the batch's keys, and each entry is
      stored under its own key with a creation time. */
  lemma LatestKeys(batch: seq<ArbitrageOpportunity>, now: string)
    ensures var r := FromEntries(Entries(Stamped(batch, now), ArbitrageKey));
      (forall k :: k in Keys(r) <==> exists i :: 0 <= i < |batch| && ArbitrageKey(batch[i]) == k) &&
      forall i :: 0 <= i < |r| ==> r[i].0 == ArbitrageKey(r[i].1) && r[i].1.createdAt.Some?
  {
    var updated := Stamped(batch, now);
    var entries := Entries(updated, ArbitrageKey);
    var r := FromEntries(entries);
    forall k | k in Keys(r) ensures exists i :: 0 <= i < |batch| && ArbitrageKey(batch[i]) == k {
      var i :| 0 <= i < |entries| && entries[i].0 == k;
      assert ArbitrageKey(updated[i]) == ArbitrageKey(batch[i]);
    }
    forall k | exists i :: 0 <= i < |batch| && ArbitrageKey(batch[i]) == k ensures k in Keys(r) {
      var i :| 0 <= i < |batch| && ArbitrageKey(batch[i]) == k;
      assert entries[i].0 == k;
    }
    forall i | 0 <= i < |r| ensures r[i].0 == ArbitrageKey(r[i].1) && r[i].1.createdAt.Some? {
      assert r[i] in entries;
    }
  }

  /** On a repeated key the later opportunity of the batch is the one kept. */
  lemma LatestLastWins(batch: seq<ArbitrageOpportunity>, now: string, i: nat, j: nat)
    requires i < |batch| && (forall l :: i < l < |batch| ==> ArbitrageKey(batch[l]) != ArbitrageKey(batch[i]))
    ensures Get(Latest(batch, now), ArbitrageKey(batch[i])) == Some(Stamp(batch[i], now))
  {
    var entries := Entries(Stamped(batch, now), ArbitrageKey);
    var k := ArbitrageKey(batch[i]);
    assert entries[i].0 == k;
    SetAllGet([], entries, k);
    var v := LastValue(entries, k).value;
    var m :| 0 <= m < |entries| && entries[m] == (k, v) && forall l :: m < l < |entries| ==> entries[l].0 != k;
    StampedKeys(batch, now);
    assert m == i;
  }

  /** Stamping keeps every opportunity's key. */
  lemma StampedKeys(batch: seq<ArbitrageOpportunity>, now: string)
    ensures forall l :: 0 <= l < |batch| ==> Entries(Stamped(batch, now), ArbitrageKey)[l].0 == ArbitrageKey(batch[l])
  {
    var updated := Stamped(batch, now);
    forall l | 0 <= l < |batch| ensures ArbitrageKey(updated[l]) == ArbitrageKey(batch[l]) {
      assert updated[l].eventId == batch[l].eventId && updated[l].marketName == batch[l].marketName;
    }
  }

  /** `[...updated, ...history].slice(0, arbitrageHistoryLimit)`: the new
      batch in front of the old history, cut to the limit. */
  function History(history: seq<ArbitrageOpportunity>, updated: seq<ArbitrageOpportunity>): (r: seq<ArbitrageOpportunity>)
    ensures |r| <= ArbitrageHistoryLimit
    ensures |r| == if |updated| + |history| < ArbitrageHistoryLimit then |updated| + |history| else ArbitrageHistoryLimit
    ensures forall i :: 0 <= i < |r| && i < |updated| ==> r[i] == updated[i]
    ensures forall i :: |updated| <= i < |r| ==> r[i] == history[i - |updated|]
  {
    var all := updated + history;
    if |all| < ArbitrageHistoryLimit then all else all[..ArbitrageHistoryLimit]
  }

  /** `getArbitrageOpportunities`' order: the latest opportunities, most
      profitable first. */
  function ByProfit(latest: seq<(string, ArbitrageOpportunity)>): (r: seq<ArbitrageOpportunity>)
    ensures multiset(r) == multiset(Values(latest))
    ensures forall i, j :: 0 <= i < j < |r| ==> r[i].guaranteedProfitFraction >= r[j].guaranteedProfitFraction
  {
    var r := SortBy(Values(latest), Arbitrage.NegatedProfit);
    assert forall i, j :: 0 <= i < j < |r| ==> Arbitrage.NegatedProfit(r[i]) <= Arbitrage.NegatedProfit(r[j]);
    r
  }

  /** The users table: ids 1, 2, ... in creation order, and the next id
      one past the last. */
  ghost predicate UserTable(users: seq<(int, User)>, nextId: int)
  {
    Numbered(users, UserId) && nextId == |users| + 1
  }

  /** The sites table: numbered like the users, the two seeded sites first. */
  ghost predicate SiteTable(sites: seq<(int, BettingSite)>, nextId: int)
  {
    Numbered(sites, SiteId) && nextId == |sites| + 1 && |sites| >= 2 && sites[..2] == SeedSites
  }

  /** The market table: keyed by id, never over the retention limit. */
  ghost predicate MarketTable(markets: seq<(string, Market)>)
  {
    KeyedById(markets) && |markets| <= MarketRetention
  }

  /** `MemStorage`; `Date.parse` is the injected `parseDate`. The session
      store and the opportunities table are not part of this model. */
  class MemStorage {
    var users: seq<(int, User)>
    var bettingSites: seq<(int, BettingSite)>
    var markets: seq<(string, Market)>
    var arbitrageLatest: seq<(string, ArbitrageOpportunity)>
    var arbitrageHistory: seq<ArbitrageOpportunity>
    var currentUserId: int
    var currentBettingSiteId: int
    const parseDate: string -> real

    /** Ids are handed out in sequence, the two seeded sites stay first,
        the market table is keyed by id and bounded, the latest map is
        keyed by event and market, and the history is bounded. */
    ghost predicate Valid()
      reads this
    {
      UserTable(users, currentUserId) &&
      SiteTable(bettingSites, currentBettingSiteId) &&
      MarketTable(markets) &&
      UniqueKeys(arbitrageLatest) &&
      |arbitrageHistory| <= ArbitrageHistoryLimit
    }

    constructor(parseDate: string -> real)
      ensures Valid()
      ensures users == [] && currentUserId == 1
      ensures bettingSites == SeedSites && currentBettingSiteId == 3
      ensures markets == [] && arbitrageLatest == [] && arbitrageHistory == []
      ensures this.parseDate == parseDate
    {
      users := [];
      bettingSites := SeedSites;
      markets := [];
      arbitrageLatest := [];
      arbitrageHistory := [];
      currentUserId := 1;
      currentBettingSiteId := 3;
      this.parseDate := parseDate;
    }

    /** `getUser`: the users are exactly the ids handed out so far. */
    function GetUser(id: int): (r: Option<User>)
      reads this
      requires Valid()
      ensures r.Some? <==> 1 <= id < currentUserId
      ensures r.Some? ==> r.value.id == id
    {
      NumberedKeys(users, UserId);
      if 1 <= id < currentUserId then GetAt(users, id - 1); Get(users, id) else Get(users, id)
    }

    /** `getUserByUsername`: the earliest-created user with that name. */
    function GetUserByUsername(username: string): (r: Option<User>)
      reads this
      ensures r.Some? ==> r.value.username == username && r.value in Values(users)
      ensures r.None? <==> forall i :: 0 <= i < |users| ==> users[i].1.username != username
    {
      FirstNamed(Values(users), username)
    }

    /** `getBettingSites`: the seeded sites first, then the created ones. */
    function GetBettingSites(): (r: seq<BettingSite>)
      reads this
      requires Valid()
      ensures |r| == currentBettingSiteId - 1
      ensures r[0] == SeedSites[0].1 && r[1] == SeedSites[1].1
      ensures forall i :: 0 <= i < |r| ==> r[i].id == i + 1
    {
      assert bettingSites[0] == bettingSites[..2][0] && bettingSites[1] == bettingSites[..2][1];
      Values(bettingSites)
    }

    /** `createUser`: the next id, `notificationsEnabled` defaulting to
        true. */
    method CreateUser(insertUser: InsertUser) returns (user: User)
      requires Valid()
      modifies this
      ensures Valid()
      ensures user == User(old(currentUserId), insertUser.username, insertUser.password, insertUser.email,
                           insertUser.notificationsEnabled.GetOr(true))
      ensures currentUserId == old(currentUserId) + 1
      ensures users == old(users) + [(user.id, user)]
      ensures bettingSites == old(bettingSites) && currentBettingSiteId == old(currentBettingSiteId)
      ensures markets == old(markets) && arbitrageLatest == old(arbitrageLatest) && arbitrageHistory == old(arbitrageHistory)
    {
      var id := currentUserId;
      currentUserId := currentUserId + 1;
      user := User(id, insertUser.username, insertUser.password, insertUser.email, insertUser.notificationsEnabled.GetOr(true));
      NumberedKeys(users, UserId);
      users := Set(users, id, user);
    }

    /** `createBettingSite`: the next id, overriding any id the insert
        carries. */
    method CreateBettingSite(site: InsertBettingSite) returns (newSite: BettingSite)
      requires Valid()
      modifies this
      ensures Valid()
      ensures newSite == BettingSite(old(currentBettingSiteId), site.name, site.url) && newSite.id >= 3
      ensures currentBettingSiteId == old(currentBettingSiteId) + 1
      ensures bettingSites == old(bettingSites) + [(newSite.id, newSite)]
      ensures users == old(users) && currentUserId == old(currentUserId)
      ensures markets == old(markets) && arbitrageLatest == old(arbitrageLatest) && arbitrageHistory == old(arbitrageHistory)
    {
      var id := currentBettingSiteId;
      currentBettingSiteId := currentBettingSiteId + 1;
      newSite := BettingSite(id, site.name, site.url);
      NumberedKeys(bettingSites, SiteId);
      bettingSites := Set(bettingSites, id, newSite);
    }

    /** `getMarkets`. */
    function GetMarkets(): (r: seq<Market>)
      reads this
      ensures multiset(r) == multiset(Values(markets))
      ensures forall i, j :: 0 <= i < j < |r| ==> parseDate(r[i].timestamp) >= parseDate(r[j].timestamp)
    {
      NewestFirst(Values(markets), parseDate)
    }

    /** `upsertMarkets`: the set loop, then the retention step. */
    method UpsertMarkets(batch: seq<Market>) returns (r: seq<Market>)
      requires Valid()
      modifies this
      ensures Valid()
      ensures markets == Upsert(old(markets), batch, parseDate)
      ensures r == GetMarkets()
      ensures users == old(users) && currentUserId == old(currentUserId)
      ensures bettingSites == old(bettingSites) && currentBettingSiteId == old(currentBettingSiteId)
      ensures arbitrageLatest == old(arbitrageLatest) && arbitrageHistory == old(arbitrageHistory)
    {
      markets := SetAndTrim(markets, batch, parseDate);
      r := GetMarkets();
    }

    /** `setArbitrageOpportunities`; `now` is the clock reading as an ISO
        string. */
    method SetArbitrageOpportunities(opportunities: seq<ArbitrageOpportunity>, now: string)
      requires Valid()
      modifies this
      ensures Valid()
      ensures arbitrageLatest == Latest(opportunities, now)
      ensures arbitrageHistory == History(old(arbitrageHistory), Stamped(opportunities, now))
      ensures users == old(users) && currentUserId == old(currentUserId)
      ensures bettingSites == old(bettingSites) && currentBettingSiteId == old(currentBettingSiteId)
      ensures markets == old(markets)
    {
      var updated := Stamped(opportunities, now);
      arbitrageLatest := FromEntries(Entries(updated, ArbitrageKey));
      var all := updated + arbitrageHistory;
      arbitrageHistory := if |all| < ArbitrageHistoryLimit then all else all[..ArbitrageHistoryLimit];
    }

    /** `getArbitrageOpportunities`. */
    function GetArbitrageOpportunities(): (r: seq<ArbitrageOpportunity>)
      reads this
      ensures multiset(r) == multiset(Values(arbitrageLatest))
      ensures forall i, j :: 0 <= i < j < |r| ==> r[i].guaranteedProfitFraction >= r[j].guaranteedProfitFraction
    {
      ByProfit(arbitrageLatest)
    }

    /** `getArbitrageHistory`: a copy, most recent batch first, never more
        than the limit. */
    function GetArbitrageHistory(): (r: seq<ArbitrageOpportunity>)
      reads this
      requires Valid()
      ensures |r| <= ArbitrageHistoryLimit
    {
      arbitrageHistory
    }
  }
}
