/** Odds ingestion (server/workers/ingestOdds.ts): converting provider prices
    to decimal odds, resolving provider events against canonical events,
    flattening a provider payload into one market record per runner, and
    de-duplicating records last-write-wins. */
module IngestOdds {
  import opened Wrappers
  import opened Numeric
  import opened Text
  import opened Schema
  import opened OrderedMap
  import KeepBest

  datatype OddsFormat = Decimal | American | Fractional

  /** A runner's price as the payload carries it: a number or a string. */
  datatype Price = PriceNumber(n: Num) | PriceString(s: string)

  /** What the ingestion code throws. */
  datatype IngestError = InvalidDecimal | InvalidAmerican | InvalidFractional | SchemaViolation

  datatype ProviderRunner = ProviderRunner(id: string, name: string, price: Price)

  datatype ProviderMarket = ProviderMarket(
    id: string, name: string, marketType: MarketType, line: Option<real>, runners: seq<ProviderRunner>)

  datatype ProviderEvent = ProviderEvent(
    id: string, name: string, startTime: string,
    sport: Option<string>, league: Option<string>,
    homeTeam: Option<string>, awayTeam: Option<string>,
    markets: seq<ProviderMarket>)

  /** A payload after schema validation. */
  datatype Payload = Payload(events: seq<ProviderEvent>, generatedAt: Option<string>)

  datatype NormalizeOptions = NormalizeOptions(
    canonicalEvents: Option<seq<CanonicalEvent>>,
    timestamp: Option<string>,
    oddsFormat: Option<OddsFormat>)

  /** JavaScript truthiness of an optional string: present and non-empty. */
  predicate Truthy(s: Option<string>)
  {
    s.Some? && s.value != ""
  }

  function Abs(x: real): real
  {
    if x < 0.0 then -x else x
  }

  /** `typeof price === "string" ? Number(price) : price`. */
  function NumberOf(price: Price): Num
  {
    match price
    case PriceNumber(n) => n
    case PriceString(s) => ParseNumber(s)
  }

  /** `const [numStr, denStr] = price.split("/")` followed by `Number` of
      each part; a missing denominator is `Number(undefined)`, which is NaN. */
  function FractionParts(s: string): (Num, Num)
  {
    var (numStr, denStr) := SplitFirstTwo(s, '/');
    (ParseNumber(numStr), match denStr case None => NonFinite case Some(d) => ParseNumber(d))
  }

  /** The decimal branch: the number itself, which must exceed 1. */
  function DecimalOdds(value: Num): (r: Result<real, IngestError>)
    ensures r.Ok? <==> value.Finite? && value.value > 1.0
    ensures r.Ok? ==> r.value == value.value
    ensures r.Err? ==> r.error == InvalidDecimal
  {
    if value.NonFinite? || value.value <= 1.0 then Err(InvalidDecimal) else Ok(value.value)
  }

  /** The American branch: |v| must reach 100; +v pays v per 100 staked,
      -v needs v staked to win 100. */
  function AmericanOdds(value: Num): (r: Result<real, IngestError>)
    ensures r.Ok? <==> value.Finite? && Abs(value.value) >= 100.0
    ensures r.Ok? && value.value > 0.0 ==> r.value == value.value / 100.0 + 1.0
    ensures r.Ok? && value.value < 0.0 ==> (r.value - 1.0) * -value.value == 100.0
    ensures r.Ok? ==> r.value > 1.0
    ensures r.Err? ==> r.error == InvalidAmerican
  {
    if value.NonFinite? || Abs(value.value) < 100.0 then Err(InvalidAmerican)
    else if value.value > 0.0 then Ok(value.value / 100.0 + 1.0)
    else Ok(100.0 / Abs(value.value) + 1.0)
  }

  /** The fractional branch: a number must be positive; a string "n/d" needs
      both parts numeric and d non-zero, and n is not sign-checked. */
  function FractionalOdds(price: Price): (r: Result<real, IngestError>)
    ensures price.PriceNumber? ==>
      (r.Ok? <==> price.n.Finite? && price.n.value > 0.0) &&
      (r.Ok? ==> r.value == price.n.value + 1.0 && r.value > 1.0)
    ensures price.PriceString? ==>
      var (n, d) := FractionParts(price.s);
      (r.Ok? <==> n.Finite? && d.Finite? && d.value != 0.0) &&
      (r.Ok? ==> r.value == n.value / d.value + 1.0)
    ensures r.Err? ==> r.error == InvalidFractional
  {
    match price
    case PriceNumber(n) =>
      if n.NonFinite? || n.value <= 0.0 then Err(InvalidFractional) else Ok(n.value + 1.0)
    case PriceString(s) =>
      var (n, d) := FractionParts(s);
      if n.NonFinite? || d.NonFinite? || d.value == 0.0 then Err(InvalidFractional)
      else Ok(n.value / d.value + 1.0)
  }

  /** `convertOddsToDecimal`: strings are read with `Number` for the decimal
      and American formats, and split on "/" for the fractional one. */
  function ConvertOddsToDecimal(price: Price, format: OddsFormat): (r: Result<real, IngestError>)
    ensures format == Decimal ==> r == DecimalOdds(NumberOf(price))
    ensures format == American ==> r == AmericanOdds(NumberOf(price))
    ensures format == Fractional ==> r == FractionalOdds(price)
    ensures format != Fractional && r.Ok? ==> r.value > 1.0
  {
    match format
    case Decimal => DecimalOdds(NumberOf(price))
    case American => AmericanOdds(NumberOf(price))
    case Fractional => FractionalOdds(price)
  }

  /** The American price that quotes decimal odds d (> 1): positive from
      even money upwards, negative below it. */
  function DecimalToAmerican(d: real): real
    requires d > 1.0
  {
    if d >= 2.0 then (d - 1.0) * 100.0 else -100.0 / (d - 1.0)
  }

  /** Converting an accepted American price and back gives the price again,
      except for -100, which denotes the same even-money odds as +100. */
  lemma AmericanRoundTrip(v: real)
    requires Abs(v) >= 100.0 && v != -100.0
    ensures ConvertOddsToDecimal(PriceNumber(Finite(v)), American).Ok?
    ensures DecimalToAmerican(ConvertOddsToDecimal(PriceNumber(Finite(v)), American).value) == v
  {
    var d := ConvertOddsToDecimal(PriceNumber(Finite(v)), American).value;
    if v < 0.0 {
      assert -v > 100.0;
      assert d - 1.0 == 100.0 / (-v);
      assert 100.0 / (-v) < 1.0;
      assert -100.0 / (100.0 / (-v)) == v;
    }
  }

  /** -100 and +100 both mean even money. */
  lemma AmericanEvenMoney()
    ensures ConvertOddsToDecimal(PriceNumber(Finite(-100.0)), American) == Ok(2.0)
    ensures ConvertOddsToDecimal(PriceNumber(Finite(100.0)), American) == Ok(2.0)
  {
  }

  /** The numerator of a fractional string is not sign-checked: "0/1" is
      accepted and gives odds of exactly 1. */
  lemma ZeroFractionAccepted()
    ensures ConvertOddsToDecimal(PriceString("0/1"), Fractional) == Ok(1.0)
  {
    ZeroOverOneParts();
  }

  lemma ZeroOverOneParts()
    ensures FractionParts("0/1") == (Finite(0.0), Finite(1.0))
  {
    assert IndexOf("0/1", '/') == Some(1);
    assert "0/1"[..1] == "0" && "0/1"[2..] == "1";
    assert ParseNumber("0") == Finite(0.0);
    assert ParseNumber("1") == Finite(1.0);
  }

  /** The first position whose element satisfies p: `Array.prototype.find`. */
  function FindIndex<T>(s: seq<T>, p: T -> bool): (r: Option<nat>)
    ensures r.Some? ==> r.value < |s| && p(s[r.value])
    ensures r.Some? ==> forall j :: 0 <= j < r.value ==> !p(s[j])
    ensures r.None? ==> forall j :: 0 <= j < |s| ==> !p(s[j])
  {
    if |s| == 0 then None
    else if p(s[0]) then Some(0)
    else match FindIndex(s[1..], p)
      case None => None
      case Some(k) => Some(k + 1)
  }

  /** The fuzzy test: equal names ignoring case, or, when both sides name
      both teams, equal home and away teams ignoring case. */
  predicate FuzzyMatch(candidate: CanonicalEvent, event: ProviderEvent)
  {
    Lower(candidate.eventName) == Lower(event.name) ||
    (Truthy(candidate.homeTeam) && Truthy(candidate.awayTeam) && Truthy(event.homeTeam) && Truthy(event.awayTeam) &&
     Lower(candidate.homeTeam.value) == Lower(event.homeTeam.value) &&
     Lower(candidate.awayTeam.value) == Lower(event.awayTeam.value))
  }

  /** The event made up when no candidate matches. */
  function SynthesizedEvent(event: ProviderEvent, provider: Provider): (c: CanonicalEvent)
    ensures c.id == provider.slug + "-" + event.id
    ensures c.eventName == event.name && c.startTime == event.startTime
    ensures Truthy(event.sport) ==> c.sport == event.sport.value
    ensures !Truthy(event.sport) ==> c.sport == "unknown"
    ensures c.league == event.league && c.homeTeam == event.homeTeam && c.awayTeam == event.awayTeam
  {
    CanonicalEvent(
      provider.slug + "-" + event.id, event.name, event.startTime,
      if Truthy(event.sport) then event.sport.value else "unknown",
      event.league, event.homeTeam, event.awayTeam)
  }

  /** `inferCanonicalEvent`: an exact id match first, then the first fuzzy
      match, else a synthesised event. */
  function InferCanonicalEvent(event: ProviderEvent, provider: Provider, candidates: seq<CanonicalEvent>): (r: CanonicalEvent)
    ensures (exists k :: 0 <= k < |candidates| && candidates[k].id == event.id) ==>
      exists k :: 0 <= k < |candidates| && r == candidates[k] && r.id == event.id &&
        forall j :: 0 <= j < k ==> candidates[j].id != event.id
    ensures (forall k :: 0 <= k < |candidates| ==> candidates[k].id != event.id) &&
            (exists k :: 0 <= k < |candidates| && FuzzyMatch(candidates[k], event)) ==>
      exists k :: 0 <= k < |candidates| && r == candidates[k] && FuzzyMatch(r, event) &&
        forall j :: 0 <= j < k ==> !FuzzyMatch(candidates[j], event)
    ensures (forall k :: 0 <= k < |candidates| ==> candidates[k].id != event.id && !FuzzyMatch(candidates[k], event)) ==>
      r == SynthesizedEvent(event, provider)
  {
    match FindIndex(candidates, (c: CanonicalEvent) => c.id == event.id)
    case Some(k) => candidates[k]
    case None =>
      match FindIndex(candidates, (c: CanonicalEvent) => FuzzyMatch(c, event))
      case Some(k) => candidates[k]
      case None => SynthesizedEvent(event, provider)
  }

  /** `options.timestamp || payload.generatedAt || new Date().toISOString()`,
      with the clock reading passed in as `now`. */
  function ResolveTimestamp(optionTimestamp: Option<string>, generatedAt: Option<string>, now: string): (r: string)
    ensures Truthy(optionTimestamp) ==> r == optionTimestamp.value
    ensures !Truthy(optionTimestamp) && Truthy(generatedAt) ==> r == generatedAt.value
    ensures !Truthy(optionTimestamp) && !Truthy(generatedAt) ==> r == now
  {
    if Truthy(optionTimestamp) then optionTimestamp.value
    else if Truthy(generatedAt) then generatedAt.value
    else now
  }

  function RecordId(provider: Provider, event: ProviderEvent, market: ProviderMarket, runner: ProviderRunner): string
  {
    provider.slug + "-" + event.id + "-" + market.id + "-" + runner.id
  }

  /** One iteration of the innermost loop of `normalizeMarkets`: convert the
      price, build the record and validate it against the market schema. */
  function MarketRecord(
    provider: Provider, event: ProviderEvent, canonical: CanonicalEvent, market: ProviderMarket,
    runner: ProviderRunner, format: OddsFormat, timestamp: string): (r: Result<Market, IngestError>)
    ensures ConvertOddsToDecimal(runner.price, format).Err? ==> r == Err(ConvertOddsToDecimal(runner.price, format).error)
    ensures ConvertOddsToDecimal(runner.price, format).Ok? && r.Err? ==> r.error == SchemaViolation
    ensures r.Ok? ==> ValidMarket(r.value)
    ensures r.Ok? ==>
      var odds := ConvertOddsToDecimal(runner.price, format).value;
      r.value.id == RecordId(provider, event, market, runner) &&
      r.value.provider == provider && r.value.eventId == canonical.id &&
      r.value.eventName == canonical.eventName && r.value.sport == Some(canonical.sport) &&
      r.value.marketName == market.name && r.value.runner == Runner(runner.id, runner.name) &&
      r.value.oddsDecimal == odds && r.value.impliedProbability == RoundFixed(1.0 / odds, 6) &&
      r.value.timestamp == timestamp
  {
    var odds :- ConvertOddsToDecimal(runner.price, format);
    if odds <= 0.0 then Err(SchemaViolation)
    else
      var record := Market(
        RecordId(provider, event, market, runner), provider, canonical.id, canonical.eventName,
        canonical.league, Some(canonical.sport), market.name, market.marketType,
        Runner(runner.id, runner.name), odds, RoundFixed(1.0 / odds, 6), timestamp, market.line, None);
      if ValidMarket(record) then Ok(record) else Err(SchemaViolation)
  }

  /** `Number((1).toFixed(6))` is 1. */
  lemma RoundOne()
    ensures RoundFixed(1.0, 6) == 1.0
  {
    assert Pow10(6) == 1000000.0;
    RoundFixedOnGrid(1000000, 6);
  }

  /** Odds above 1 always pass the market schema: 1/odds rounded to six
      places stays within [0, 1]. */
  lemma ImpliedOfOddsAboveOne(odds: real)
    requires odds > 1.0
    ensures 0.0 <= RoundFixed(1.0 / odds, 6) <= 1.0
  {
    RoundFixedMonotone(1.0 / odds, 1.0, 6);
    RoundOne();
  }

  /** Only a fractional string can make a converted price fail validation;
      every other accepted price yields a record. */
  lemma OnlyFractionStringsViolateSchema(
    provider: Provider, event: ProviderEvent, canonical: CanonicalEvent, market: ProviderMarket,
    runner: ProviderRunner, format: OddsFormat, timestamp: string)
    requires format != Fractional || runner.price.PriceNumber?
    ensures MarketRecord(provider, event, canonical, market, runner, format, timestamp).Ok?
        <==> ConvertOddsToDecimal(runner.price, format).Ok?
  {
    var c := ConvertOddsToDecimal(runner.price, format);
    if c.Ok? {
      ImpliedOfOddsAboveOne(c.value);
    }
  }

  /** A runner priced "0/1" yields odds 1 and a probability of exactly 1. */
  lemma ZeroFractionRecord(
    provider: Provider, event: ProviderEvent, canonical: CanonicalEvent, market: ProviderMarket,
    runner: ProviderRunner, timestamp: string)
    requires runner.price == PriceString("0/1")
    ensures MarketRecord(provider, event, canonical, market, runner, Fractional, timestamp).Ok?
    ensures MarketRecord(provider, event, canonical, market, runner, Fractional, timestamp).value.impliedProbability == 1.0
  {
    ZeroFractionAccepted();
    RoundOne();
  }

  lemma NegativeHalfParts()
    ensures FractionParts("-1/2") == (Finite(-1.0), Finite(2.0))
  {
    assert IndexOf("-1/2", '/') == Some(2);
    assert "-1/2"[..2] == "-1" && "-1/2"[3..] == "2";
    assert "-1"[1..] == "1";
    assert ParseNumber("-1") == Finite(-1.0);
    assert ParseNumber("2") == Finite(2.0);
  }

  /** A negative fraction such as "-1/2" converts (to odds 0.5) but its
      implied probability of 2 fails the market schema. */
  lemma NegativeFractionRejected(
    provider: Provider, event: ProviderEvent, canonical: CanonicalEvent, market: ProviderMarket,
    runner: ProviderRunner, timestamp: string)
    requires runner.price == PriceString("-1/2")
    ensures ConvertOddsToDecimal(runner.price, Fractional) == Ok(0.5)
    ensures MarketRecord(provider, event, canonical, market, runner, Fractional, timestamp) == Err(SchemaViolation)
  {
    NegativeHalfParts();
    assert 1.0 / 0.5 == 2.0;
    assert Pow10(6) == 1000000.0;
    RoundFixedOnGrid(2000000, 6);
    assert 2000000 as real / Pow10(6) == 2.0;
  }

  /** Two providers whose slugs differ and contain no hyphen never produce
      the same record id. */
  lemma RecordIdsDistinct(
    p1: Provider, e1: ProviderEvent, m1: ProviderMarket, r1: ProviderRunner,
    p2: Provider, e2: ProviderEvent, m2: ProviderMarket, r2: ProviderRunner)
    requires p1.slug != p2.slug
    requires '-' !in p1.slug && '-' !in p2.slug
    ensures RecordId(p1, e1, m1, r1) != RecordId(p2, e2, m2, r2)
  {
    var a, b := RecordId(p1, e1, m1, r1), RecordId(p2, e2, m2, r2);
    var s1, s2 := p1.slug, p2.slug;
    assert a == s1 + ("-" + e1.id + "-" + m1.id + "-" + r1.id);
    assert b == s2 + ("-" + e2.id + "-" + m2.id + "-" + r2.id);
    if |s1| < |s2| {
      assert a[|s1|] == '-';
      assert b[|s1|] == s2[|s1|];
      assert s2[|s1|] in s2;
    } else if |s2| < |s1| {
      assert b[|s2|] == '-';
      assert a[|s2|] == s1[|s2|];
      assert s1[|s2|] in s1;
    } else {
      assert a[..|s1|] == s1 && b[..|s2|] == s2;
    }
  }

  /** With hyphenated slugs two providers can collide: slug "a" with event
      "b-c" and slug "a-b" with event "c". */
  lemma HyphenatedSlugsCollide(m: ProviderMarket, r: ProviderRunner, e1: ProviderEvent, e2: ProviderEvent)
    requires e1.id == "b-c" && e2.id == "c"
    ensures RecordId(Provider("1", "A", "a"), e1, m, r) == RecordId(Provider("2", "B", "a-b"), e2, m, r)
  {
  }

  /* ---------- flattening a payload ---------- */

  /** One runner of one market of one event: one record of the output. */
  datatype Slot = Slot(event: ProviderEvent, market: ProviderMarket, runner: ProviderRunner)

  function MarketSlots(event: ProviderEvent, market: ProviderMarket): (s: seq<Slot>)
    ensures |s| == |market.runners|
    ensures forall c :: 0 <= c < |s| ==> s[c] == Slot(event, market, market.runners[c])
  {
    seq(|market.runners|, c requires 0 <= c < |market.runners| => Slot(event, market, market.runners[c]))
  }

  function EventSlots(event: ProviderEvent, markets: seq<ProviderMarket>): seq<Slot>
  {
    if |markets| == 0 then []
    else EventSlots(event, markets[..|markets| - 1]) + MarketSlots(event, markets[|markets| - 1])
  }

  /** Every runner of every market of every event, in loop order. */
  function PayloadSlots(events: seq<ProviderEvent>): seq<Slot>
  {
    if |events| == 0 then []
    else PayloadSlots(events[..|events| - 1]) + EventSlots(events[|events| - 1], events[|events| - 1].markets)
  }

  ghost predicate IsPrefix<T>(p: seq<T>, s: seq<T>)
  {
    |p| <= |s| && s[..|p|] == p
  }

  lemma {:induction false} EventSlotsPrefix(event: ProviderEvent, markets: seq<ProviderMarket>, b: nat)
    requires b <= |markets|
    ensures IsPrefix(EventSlots(event, markets[..b]), EventSlots(event, markets))
  {
    if b < |markets| {
      var front := markets[..|markets| - 1];
      assert front[..b] == markets[..b];
      EventSlotsPrefix(event, front, b);
    } else {
      assert markets[..b] == markets;
    }
  }

  lemma {:induction false} PayloadSlotsPrefix(events: seq<ProviderEvent>, a: nat)
    requires a <= |events|
    ensures IsPrefix(PayloadSlots(events[..a]), PayloadSlots(events))
  {
    if a < |events| {
      var front := events[..|events| - 1];
      assert front[..a] == events[..a];
      PayloadSlotsPrefix(front, a);
    } else {
      assert events[..a] == events;
    }
  }

  /** The record of one slot. */
  function SlotRecord(slot: Slot, provider: Provider, candidates: seq<CanonicalEvent>, format: OddsFormat, timestamp: string): Result<Market, IngestError>
  {
    MarketRecord(provider, slot.event, InferCanonicalEvent(slot.event, provider, candidates), slot.market, slot.runner, format, timestamp)
  }

  function Recorder(provider: Provider, candidates: seq<CanonicalEvent>, format: OddsFormat, timestamp: string): Slot -> Result<Market, IngestError>
  {
    (slot: Slot) => SlotRecord(slot, provider, candidates, format, timestamp)
  }

  /** The records of a run of slots, in order; the first failing slot aborts
      the whole run with its error. */
  function BuildRecords(slots: seq<Slot>, record: Slot -> Result<Market, IngestError>): Result<seq<Market>, IngestError>
  {
    if |slots| == 0 then Ok([])
    else
      match BuildRecords(slots[..|slots| - 1], record)
      case Err(e) => Err(e)
      case Ok(ms) =>
        match record(slots[|slots| - 1])
        case Err(e) => Err(e)
        case Ok(m) => Ok(ms + [m])
  }

  /** The run succeeds iff every slot's record does, and then holds exactly
      those records in slot order. */
  lemma {:induction false} BuildRecordsSpec(slots: seq<Slot>, record: Slot -> Result<Market, IngestError>)
    ensures BuildRecords(slots, record).Ok? <==> forall k :: 0 <= k < |slots| ==> record(slots[k]).Ok?
    ensures BuildRecords(slots, record).Ok? ==>
      |BuildRecords(slots, record).value| == |slots| &&
      forall k :: 0 <= k < |slots| ==> BuildRecords(slots, record).value[k] == record(slots[k]).value
  {
    if |slots| > 0 {
      var front := slots[..|slots| - 1];
      BuildRecordsSpec(front, record);
      assert forall k :: 0 <= k < |front| ==> front[k] == slots[k];
    }
  }

  /** Once a run has failed, further slots do not change its error. */
  lemma {:induction false} BuildRecordsErrorSticks(a: seq<Slot>, b: seq<Slot>, record: Slot -> Result<Market, IngestError>)
    requires BuildRecords(a, record).Err?
    ensures BuildRecords(a + b, record) == BuildRecords(a, record)
  {
    if |b| == 0 {
      assert a + b == a;
    } else {
      BuildRecordsErrorSticks(a, b[..|b| - 1], record);
      assert (a + b)[..|a + b| - 1] == a + b[..|b| - 1];
    }
  }

  /** A run split in two: the first part's error wins, then the second's;
      otherwise the records concatenate. */
  lemma {:induction false} BuildRecordsConcat(a: seq<Slot>, b: seq<Slot>, record: Slot -> Result<Market, IngestError>)
    ensures BuildRecords(a + b, record) ==
      if BuildRecords(a, record).Err? then BuildRecords(a, record)
      else if BuildRecords(b, record).Err? then BuildRecords(b, record)
      else Ok(BuildRecords(a, record).value + BuildRecords(b, record).value)
  {
    if |b| == 0 {
      assert a + b == a;
      if BuildRecords(a, record).Ok? {
        assert BuildRecords(a, record).value + [] == BuildRecords(a, record).value;
      }
    } else {
      var front := b[..|b| - 1];
      BuildRecordsConcat(a, front, record);
      assert (a + b)[..|a + b| - 1] == a + front;
      assert (a + b)[|a + b| - 1] == b[|b| - 1];
      if BuildRecords(a, record).Ok? && BuildRecords(front, record).Ok? && record(b[|b| - 1]).Ok? {
        var x, y, z := BuildRecords(a, record).value, BuildRecords(front, record).value, record(b[|b| - 1]).value;
        assert x + y + [z] == x + (y + [z]);
      }
    }
  }

  function Candidates(options: NormalizeOptions): seq<CanonicalEvent>
  {
    options.canonicalEvents.GetOr([])
  }

  function Format(options: NormalizeOptions): OddsFormat
  {
    options.oddsFormat.GetOr(Decimal)
  }

  /** What `normalizeMarkets` returns or throws. */
  function Normalize(provider: Provider, payload: Payload, options: NormalizeOptions, now: string): Result<seq<Market>, IngestError>
  {
    var timestamp := ResolveTimestamp(options.timestamp, payload.generatedAt, now);
    match BuildRecords(PayloadSlots(payload.events), Recorder(provider, Candidates(options), Format(options), timestamp))
    case Err(e) => Err(e)
    case Ok(ms) => Ok(Dedupe(ms))
  }

  /* ---------- de-duplication ---------- */

  function DedupeKey(m: Market): string
  {
    m.eventId + ":" + m.marketName + ":" + m.runner.id + ":" + m.provider.id
  }

  /** `existing.timestamp < market.timestamp`. */
  predicate TimestampBefore(a: Market, b: Market)
  {
    StrLess(a.timestamp, b.timestamp)
  }

  function Dedupe(markets: seq<Market>): seq<Market>
  {
    Values(KeepBest.Fold(markets, DedupeKey, TimestampBefore))
  }

  lemma TimestampOrder()
    ensures KeepBest.StrictWeakOrder(TimestampBefore)
  {
    forall a: Market, b: Market | TimestampBefore(a, b) ensures !TimestampBefore(b, a) {
      StrLessAsymmetric(a.timestamp, b.timestamp);
    }
    forall a: Market, b: Market, c: Market | !TimestampBefore(b, a) && TimestampBefore(b, c)
      ensures TimestampBefore(a, c)
    {
      StrLessTotal(a.timestamp, b.timestamp);
      if a.timestamp != b.timestamp {
        StrLessTransitive(a.timestamp, b.timestamp, c.timestamp);
      }
    }
  }

  /** `dedupeMarkets` keeps, for each key, an input record carrying the
      greatest timestamp of that key, the first such on ties. */
  lemma DedupeChosen(markets: seq<Market>)
    ensures forall e :: 0 <= e < |Dedupe(markets)| ==>
      exists i :: KeepBest.Chosen(markets, i, DedupeKey, TimestampBefore) && Dedupe(markets)[e] == markets[i]
  {
    var t := KeepBest.Fold(markets, DedupeKey, TimestampBefore);
    var d := Dedupe(markets);
    TimestampOrder();
    KeepBest.FoldEntries(markets, DedupeKey, TimestampBefore);
    forall e | 0 <= e < |d|
      ensures exists i :: KeepBest.Chosen(markets, i, DedupeKey, TimestampBefore) && d[e] == markets[i]
    {
      var i :| KeepBest.Chosen(markets, i, DedupeKey, TimestampBefore) && t[e] == (DedupeKey(markets[i]), markets[i]);
      assert d[e] == t[e].1;
    }
  }

  /** No two records `dedupeMarkets` returns share a key. */
  lemma DedupeKeysDistinct(markets: seq<Market>)
    ensures forall e, f :: 0 <= e < f < |Dedupe(markets)| ==> DedupeKey(Dedupe(markets)[e]) != DedupeKey(Dedupe(markets)[f])
  {
    var t := KeepBest.Fold(markets, DedupeKey, TimestampBefore);
    var d := Dedupe(markets);
    forall e | 0 <= e < |t| ensures DedupeKey(d[e]) == t[e].0 {
      EntryKey(markets, e);
    }
  }

  /** Each de-duplication entry is stored under its record's own key. */
  lemma EntryKey(markets: seq<Market>, e: nat)
    requires e < |KeepBest.Fold(markets, DedupeKey, TimestampBefore)|
    ensures DedupeKey(Dedupe(markets)[e]) == KeepBest.Fold(markets, DedupeKey, TimestampBefore)[e].0
  {
    var t := KeepBest.Fold(markets, DedupeKey, TimestampBefore);
    TimestampOrder();
    KeepBest.FoldEntries(markets, DedupeKey, TimestampBefore);
    var i :| KeepBest.Chosen(markets, i, DedupeKey, TimestampBefore) && t[e] == (DedupeKey(markets[i]), markets[i]);
  }

  /** Every key of the input is represented in the output of `dedupeMarkets`. */
  lemma DedupeComplete(markets: seq<Market>)
    ensures forall i :: 0 <= i < |markets| ==>
      exists e :: 0 <= e < |Dedupe(markets)| && DedupeKey(Dedupe(markets)[e]) == DedupeKey(markets[i])
  {
    var t := KeepBest.Fold(markets, DedupeKey, TimestampBefore);
    var d := Dedupe(markets);
    KeepBest.FoldComplete(markets, DedupeKey, TimestampBefore);
    forall i | 0 <= i < |markets|
      ensures exists e :: 0 <= e < |d| && DedupeKey(d[e]) == DedupeKey(markets[i])
    {
      var e :| 0 <= e < |t| && t[e].0 == DedupeKey(markets[i]);
      EntryKey(markets, e);
    }
  }

  /** `dedupeMarkets`, as the loop over a `Map` it is. */
  method DedupeMarkets(markets: seq<Market>) returns (r: seq<Market>)
    ensures r == Dedupe(markets)
  {
    var table: seq<(string, Market)> := [];
    var i := 0;
    while i < |markets|
      invariant 0 <= i <= |markets|
      invariant table == KeepBest.Fold(markets[..i], DedupeKey, TimestampBefore)
    {
      var market := markets[i];
      var key := DedupeKey(market);
      var existing := Get(table, key);
      if existing.None? || StrLess(existing.value.timestamp, market.timestamp) {
        table := Set(table, key, market);
      }
      assert markets[..i + 1][..i] == markets[..i];
      i := i + 1;
    }
    assert markets[..i] == markets;
    r := Values(table);
  }

  /** The innermost loop of `normalizeMarkets`: the records of one
      market's runners, stopping at the first failure. */
  method MarketRecords(provider: Provider, event: ProviderEvent, canonical: CanonicalEvent, market: ProviderMarket,
                       format: OddsFormat, timestamp: string, ghost candidates: seq<CanonicalEvent>)
    returns (r: Result<seq<Market>, IngestError>)
    requires canonical == InferCanonicalEvent(event, provider, candidates)
    ensures r == BuildRecords(MarketSlots(event, market), Recorder(provider, candidates, format, timestamp))
  {
    ghost var record := Recorder(provider, candidates, format, timestamp);
    ghost var slots := MarketSlots(event, market);
    var markets: seq<Market> := [];
    var c := 0;
    while c < |market.runners|
      invariant 0 <= c <= |market.runners|
      invariant BuildRecords(slots[..c], record) == Ok(markets)
    {
      var built := MarketRecord(provider, event, canonical, market, market.runners[c], format, timestamp);
      assert slots[..c + 1][..c] == slots[..c];
      assert record(slots[c]) == built;
      if built.Err? {
        assert slots == slots[..c + 1] + slots[c + 1..];
        BuildRecordsErrorSticks(slots[..c + 1], slots[c + 1..], record);
        return Err(built.error);
      }
      markets := markets + [built.value];
      c := c + 1;
    }
    assert slots[..c] == slots;
    r := Ok(markets);
  }

  /** The loop over one event's markets. */
  method EventRecords(provider: Provider, event: ProviderEvent, candidates: seq<CanonicalEvent>, format: OddsFormat, timestamp: string)
    returns (r: Result<seq<Market>, IngestError>)
    ensures r == BuildRecords(EventSlots(event, event.markets), Recorder(provider, candidates, format, timestamp))
  {
    ghost var record := Recorder(provider, candidates, format, timestamp);
    var canonical := InferCanonicalEvent(event, provider, candidates);
    var markets: seq<Market> := [];
    var b := 0;
    while b < |event.markets|
      invariant 0 <= b <= |event.markets|
      invariant BuildRecords(EventSlots(event, event.markets[..b]), record) == Ok(markets)
    {
      var built := MarketRecords(provider, event, canonical, event.markets[b], format, timestamp, candidates);
      MarketStep(event, event.markets, b);
      BuildRecordsConcat(EventSlots(event, event.markets[..b]), MarketSlots(event, event.markets[b]), record);
      if built.Err? {
        EventSlotsPrefix(event, event.markets, b + 1);
        PrefixSplit(EventSlots(event, event.markets[..b + 1]), EventSlots(event, event.markets));
        BuildRecordsErrorSticks(EventSlots(event, event.markets[..b + 1]), EventSlots(event, event.markets)[|EventSlots(event, event.markets[..b + 1])|..], record);
        return Err(built.error);
      }
      markets := markets + built.value;
      b := b + 1;
    }
    assert event.markets[..b] == event.markets;
    r := Ok(markets);
  }

  /** `normalizeMarkets`: the nested loops over events, markets and runners,
      aborting on the first failing runner, followed by de-duplication. */
  method NormalizeMarkets(provider: Provider, payload: Payload, options: NormalizeOptions, now: string)
    returns (r: Result<seq<Market>, IngestError>)
    ensures r == Normalize(provider, payload, options, now)
  {
    var timestamp := ResolveTimestamp(options.timestamp, payload.generatedAt, now);
    var candidates := Candidates(options);
    var format := Format(options);
    var events := payload.events;
    ghost var record := Recorder(provider, candidates, format, timestamp);
    var markets: seq<Market> := [];
    var a := 0;
    while a < |events|
      invariant 0 <= a <= |events|
      invariant BuildRecords(PayloadSlots(events[..a]), record) == Ok(markets)
    {
      var built := EventRecords(provider, events[a], candidates, format, timestamp);
      EventStep(events, a);
      BuildRecordsConcat(PayloadSlots(events[..a]), EventSlots(events[a], events[a].markets), record);
      if built.Err? {
        PayloadSlotsPrefix(events, a + 1);
        PrefixSplit(PayloadSlots(events[..a + 1]), PayloadSlots(events));
        BuildRecordsErrorSticks(PayloadSlots(events[..a + 1]), PayloadSlots(events)[|PayloadSlots(events[..a + 1])|..], record);
        return Err(built.error);
      }
      markets := markets + built.value;
      a := a + 1;
    }
    assert events[..a] == events;
    var deduped := DedupeMarkets(markets);
    r := Ok(deduped);
  }

  lemma MarketStep(event: ProviderEvent, markets: seq<ProviderMarket>, b: nat)
    requires b < |markets|
    ensures EventSlots(event, markets[..b]) + MarketSlots(event, markets[b]) == EventSlots(event, markets[..b + 1])
  {
    assert markets[..b + 1][..b] == markets[..b];
  }

  lemma EventStep(events: seq<ProviderEvent>, a: nat)
    requires a < |events|
    ensures PayloadSlots(events[..a]) + EventSlots(events[a], events[a].markets) == PayloadSlots(events[..a + 1])
  {
    assert events[..a + 1][..a] == events[..a];
  }

  lemma PrefixSplit<T>(a: seq<T>, s: seq<T>)
    requires IsPrefix(a, s)
    ensures s == a + s[|a|..]
  {
  }
}
