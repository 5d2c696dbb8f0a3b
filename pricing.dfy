/**
 * The NEAR price oracle: a two-field cache (`cachedPrice`, `lastFetchTime`)
 * in front of a remote price feed, a persisted price table keyed by minute,
 * a fallback chain for when the feed fails, and a "latest persisted price at
 * or before t" lookup for historical valuations.
 *
 * The remote feed is a parameter (`FetchResult`: a reply, possibly without a
 * price, or a failure), and so are the clock and the store's failures.
 * Prices are exact reals; amounts are decimal strings of yoctoNEAR.
 */
module Pricing {
  import opened Wrappers

  /** Freshness window of the cached price: five minutes, in milliseconds. */
  const CacheDurationMs: int := 5 * 60 * 1000
  const MinuteMs: int := 60 * 1000
  /** yoctoNEAR per NEAR (10^24). */
  const YoctoPerNear: nat := 1_000_000_000_000_000_000_000_000

  // ---------------------------------------------------------------------------
  // Amounts

  predicate IsDigits(s: string) {
    forall i :: 0 <= i < |s| ==> '0' <= s[i] <= '9'
  }

  /** The number a string of decimal digits denotes (the empty string reads as 0). */
  function DigitsValue(s: string): nat
    requires IsDigits(s)
  {
    if s == [] then 0 else DigitsValue(s[..|s| - 1]) * 10 + (s[|s| - 1] as int - '0' as int)
  }

  /** The decimal rendering of a natural number, as amounts arrive in event logs. */
  function DigitsOf(n: nat): (s: string)
    ensures IsDigits(s) && |s| > 0
  {
    if n < 10 then [('0' as int + n) as char]
    else DigitsOf(n / 10) + [('0' as int + n % 10) as char]
  }

  /** Reading an amount back from its decimal rendering gives the amount. */
  lemma {:induction false} DigitsRoundTrip(n: nat)
    ensures DigitsValue(DigitsOf(n)) == n
  {
    var s := DigitsOf(n);
    if n >= 10 {
      DigitsRoundTrip(n / 10);
      assert s[..|s| - 1] == DigitsOf(n / 10);
    } else {
      assert s[..|s| - 1] == [];
    }
  }

  /** `Number(s)` for the decimal strings the model covers; anything else reads as 0. */
  function AmountValue(s: Option<string>): nat {
    if s.Some? && IsDigits(s.value) then DigitsValue(s.value) else 0
  }

  /** `yoctoToNear`: an amount of yoctoNEAR as NEAR, exactly. */
  function YoctoToNear(s: Option<string>): (r: real)
    ensures r >= 0.0
    ensures r * YoctoPerNear as real == AmountValue(s) as real
  {
    AmountValue(s) as real / YoctoPerNear as real
  }

  /** The conversion is exact on every rendered amount. */
  lemma YoctoToNearOfRendered(n: nat)
    ensures YoctoToNear(Some(DigitsOf(n))) * YoctoPerNear as real == n as real
  {
    DigitsRoundTrip(n);
  }

  /** Valuing the NEAR amount at a price is valuing the yoctoNEAR amount at that price, scaled down. */
  lemma ScaledBack(amount: string, price: real)
    ensures (YoctoToNear(Some(amount)) * price) * YoctoPerNear as real == AmountValue(Some(amount)) as real * price
  {
    var near := YoctoToNear(Some(amount));
    calc {
      (near * price) * YoctoPerNear as real;
      == (near * YoctoPerNear as real) * price;
      == AmountValue(Some(amount)) as real * price;
    }
  }

  // ---------------------------------------------------------------------------
  // The persisted price table

  /** `timestamp.setSeconds(0, 0)`: the start of the minute holding `t`. */
  function MinuteOf(t: int): (m: int)
    ensures m <= t < m + MinuteMs
    ensures m % MinuteMs == 0
  {
    t - t % MinuteMs
  }

  /** A minute-aligned time at or before `t` is at or before `t`'s minute. */
  lemma AlignedAtOrBeforeMinute(x: int, t: int)
    requires x % MinuteMs == 0 && x <= t
    ensures x <= MinuteOf(t)
  {
    var q := x / MinuteMs;
    var qt := t / MinuteMs;
    assert x == MinuteMs * q;
    assert MinuteOf(t) == MinuteMs * qt;
    assert MinuteMs * q <= t < MinuteMs * (qt + 1);
    assert q <= qt;
  }

  /** One row of the `near` token price table. */
  datatype PriceRow = PriceRow(timestamp: int, priceUsd: real)

  /** The table's unique key (token, timestamp): no two rows share a timestamp. */
  predicate Keyed(rows: seq<PriceRow>) {
    forall i, j :: 0 <= i < j < |rows| ==> rows[i].timestamp != rows[j].timestamp
  }

  /** Every row was written at the start of a minute. */
  predicate MinuteAligned(rows: seq<PriceRow>) {
    forall i :: 0 <= i < |rows| ==> rows[i].timestamp % MinuteMs == 0
  }

  /** The upsert on key `t`: replace the price of the row at `t`, or add one. */
  function Upsert(rows: seq<PriceRow>, t: int, price: real): (r: seq<PriceRow>)
    requires Keyed(rows)
    ensures Keyed(r)
    ensures PriceRow(t, price) in r
    ensures forall row :: row in r ==> row == PriceRow(t, price) || (row in rows && row.timestamp != t)
    ensures forall row :: row in rows && row.timestamp != t ==> row in r
  {
    if rows == [] then [PriceRow(t, price)]
    else if rows[0].timestamp == t then
      assert forall row :: row in rows[1..] ==> row.timestamp != t;
      [PriceRow(t, price)] + rows[1..]
    else
      assert forall row :: row in rows ==> row == rows[0] || row in rows[1..];
      [rows[0]] + Upsert(rows[1..], t, price)
  }

  /**
   * `findFirst` ordered by timestamp descending: the row with the greatest
   * timestamp, among those at or before `upTo` when a bound is given.
   */
  function Newest(rows: seq<PriceRow>, upTo: Option<int>): (r: Option<PriceRow>)
    ensures r.None? <==> forall i :: 0 <= i < |rows| ==> upTo.Some? && rows[i].timestamp > upTo.value
    ensures r.Some? ==> r.value in rows && (upTo.Some? ==> r.value.timestamp <= upTo.value)
    ensures r.Some? ==> forall i :: 0 <= i < |rows| && (upTo.None? || rows[i].timestamp <= upTo.value)
                                    ==> rows[i].timestamp <= r.value.timestamp
  {
    if rows == [] then None
    else
      var rest := Newest(rows[1..], upTo);
      assert forall i :: 1 <= i < |rows| ==> rows[i] == rows[1..][i - 1];
      if upTo.Some? && rows[0].timestamp > upTo.value then rest
      else if rest.Some? && rest.value.timestamp > rows[0].timestamp then rest
      else Some(rows[0])
  }

  // ---------------------------------------------------------------------------
  // The oracle as a state machine

  /** What the remote feed answered: a reply (`near.usd` possibly missing) or an error. */
  datatype FetchResult = Fetched(usd: Option<real>) | FetchFailed

  /** Which of the store operations of one call fail (every such failure is caught). */
  datatype StoreFaults = StoreFaults(saveFails: bool, latestReadFails: bool, historyReadFails: bool)

  /** The oracle's state: the two cache fields and the price table. */
  datatype Oracle = Oracle(cachedPrice: real, lastFetchTime: int, rows: seq<PriceRow>)

  /** A price together with the oracle's state after producing it. */
  datatype Priced = Priced(oracle: Oracle, price: real)

  /** The cache answers when it holds a non-zero price fetched less than five minutes ago. */
  predicate Fresh(o: Oracle, now: int) {
    o.cachedPrice != 0.0 && now - o.lastFetchTime < CacheDurationMs
  }

  /** `savePriceToDb`: upsert the price at the current minute; a failing write is swallowed. */
  function SavePrice(rows: seq<PriceRow>, now: int, price: real, fails: bool): (r: seq<PriceRow>)
    requires Keyed(rows)
    ensures Keyed(r)
    ensures fails ==> r == rows
    ensures !fails ==> PriceRow(MinuteOf(now), price) in r
    ensures forall row :: row in rows && row.timestamp != MinuteOf(now) ==> row in r
    ensures forall row :: row in r ==> row in rows || row == PriceRow(MinuteOf(now), price)
    ensures MinuteAligned(rows) ==> MinuteAligned(r)
  {
    if fails then rows else Upsert(rows, MinuteOf(now), price)
  }

  /** `getLatestPriceFromDb`: the newest persisted price; a failing read gives none. */
  function LatestPersisted(rows: seq<PriceRow>, readFails: bool): (r: Option<real>)
    ensures r.Some? ==> exists i :: 0 <= i < |rows| && rows[i].priceUsd == r.value
                                    && forall j :: 0 <= j < |rows| ==> rows[j].timestamp <= rows[i].timestamp
    ensures r.None? <==> readFails || rows == []
  {
    if readFails then None
    else
      match Newest(rows, None)
      case None => None
      case Some(row) => Some(row.priceUsd)
  }

  /** `getCurrentNearPrice` as a function of the state, the clock, the feed and the store. */
  function CurrentPrice(o: Oracle, now: int, fetch: FetchResult, faults: StoreFaults): (r: Priced)
    requires Keyed(o.rows)
    // a fresh cache answers alone: no fetch, no write, no change
    ensures Fresh(o, now) ==> r == Priced(o, o.cachedPrice)
    // a reply is cached with the current time and persisted; a missing price reads as 0
    ensures !Fresh(o, now) && fetch.Fetched? ==>
              && r.price == fetch.usd.GetOr(0.0)
              && r.oracle.cachedPrice == r.price && r.oracle.lastFetchTime == now
              && r.oracle.rows == SavePrice(o.rows, now, r.price, faults.saveFails)
    // on a failed fetch nothing changes and the fallback chain answers
    ensures !Fresh(o, now) && fetch.FetchFailed? ==> r.oracle == o
    ensures !Fresh(o, now) && fetch.FetchFailed? && o.cachedPrice != 0.0 ==> r.price == o.cachedPrice
    ensures !Fresh(o, now) && fetch.FetchFailed? && o.cachedPrice == 0.0 ==>
              r.price == LatestPersisted(o.rows, faults.latestReadFails).GetOr(0.0)
    ensures Keyed(r.oracle.rows)
  {
    if Fresh(o, now) then Priced(o, o.cachedPrice)
    else
      match fetch
      case Fetched(usd) =>
        var price := usd.GetOr(0.0);
        Priced(Oracle(price, now, SavePrice(o.rows, now, price, faults.saveFails)), price)
      case FetchFailed =>
        if o.cachedPrice != 0.0 then Priced(o, o.cachedPrice)
        else Priced(o, LatestPersisted(o.rows, faults.latestReadFails).GetOr(0.0))
  }

  /**
   * `getHistoricalPrice`: the persisted price with the greatest timestamp at or
   * before `t`; when there is none, or the lookup fails, the current-price path.
   */
  function HistoricalPrice(o: Oracle, t: int, now: int, fetch: FetchResult, faults: StoreFaults): (r: Priced)
    requires Keyed(o.rows)
    ensures !faults.historyReadFails && Newest(o.rows, Some(t)).Some? ==>
              r == Priced(o, Newest(o.rows, Some(t)).value.priceUsd)
    ensures faults.historyReadFails || (forall i :: 0 <= i < |o.rows| ==> o.rows[i].timestamp > t) ==>
              r == CurrentPrice(o, now, fetch, faults)
    ensures Keyed(r.oracle.rows)
  {
    if !faults.historyReadFails && Newest(o.rows, Some(t)).Some? then
      Priced(o, Newest(o.rows, Some(t)).value.priceUsd)
    else CurrentPrice(o, now, fetch, faults)
  }

  /** `nearAmount * price`: the value in USD of a yoctoNEAR amount at a NEAR price, exactly. */
  function AmountUsd(amount: string, price: real): (v: real)
    ensures v * YoctoPerNear as real == AmountValue(Some(amount)) as real * price
  {
    ScaledBack(amount, price);
    YoctoToNear(Some(amount)) * price
  }

  /**
   * `calculateUsdValue`: the amount valued at the price of the historical
   * path exactly when a timestamp is supplied, else at the current price.
   */
  function UsdValue(o: Oracle, amount: string, at: Option<int>, now: int, fetch: FetchResult, faults: StoreFaults): (r: Priced)
    requires Keyed(o.rows)
    ensures at.Some? ==> r.oracle == HistoricalPrice(o, at.value, now, fetch, faults).oracle
                         && r.price == AmountUsd(amount, HistoricalPrice(o, at.value, now, fetch, faults).price)
    ensures at.None? ==> r.oracle == CurrentPrice(o, now, fetch, faults).oracle
                         && r.price == AmountUsd(amount, CurrentPrice(o, now, fetch, faults).price)
  {
    var p := if at.Some? then HistoricalPrice(o, at.value, now, fetch, faults) else CurrentPrice(o, now, fetch, faults);
    Priced(p.oracle, AmountUsd(amount, p.price))
  }

  // ---------------------------------------------------------------------------
  // Properties of the oracle

  /**
   * After a successful fetch of a non-zero price, every call in the next five
   * minutes returns that price and changes nothing, whatever the feed says.
   */
  lemma CachedWithinWindow(o: Oracle, now: int, usd: real, faults: StoreFaults,
                           later: int, fetch2: FetchResult, faults2: StoreFaults)
    requires Keyed(o.rows) && !Fresh(o, now) && usd != 0.0
    requires now <= later < now + CacheDurationMs
    ensures var first := CurrentPrice(o, now, Fetched(Some(usd)), faults);
            CurrentPrice(first.oracle, later, fetch2, faults2) == Priced(first.oracle, usd)
  {
  }

  /**
   * Write-through is visible: once a price is persisted at the current minute,
   * a historical lookup at the current time finds exactly that price.
   */
  lemma {:induction false} SavedPriceIsNewest(rows: seq<PriceRow>, now: int, price: real)
    requires Keyed(rows) && MinuteAligned(rows)
    ensures var saved := SavePrice(rows, now, price, false);
            Newest(saved, Some(now)) == Some(PriceRow(MinuteOf(now), price))
  {
    var saved := SavePrice(rows, now, price, false);
    var m := MinuteOf(now);
    var r := Newest(saved, Some(now));
    assert r.Some? by {
      var k :| 0 <= k < |saved| && saved[k] == PriceRow(m, price);
      assert saved[k].timestamp <= now;
    }
    var row := r.value;
    var k :| 0 <= k < |saved| && saved[k] == PriceRow(m, price);
    assert m <= row.timestamp <= now;
    if row != PriceRow(m, price) {
      assert row in rows && row.timestamp != m;
      var j :| 0 <= j < |rows| && rows[j] == row;
      AlignedAtOrBeforeMinute(row.timestamp, now);
    }
  }

  /**
   * A historical lookup never returns a price from after the requested time:
   * when the table answers, the answer is a row at or before `t`.
   */
  lemma HistoryNeverLooksAhead(o: Oracle, t: int, now: int, fetch: FetchResult, faults: StoreFaults)
    requires Keyed(o.rows) && !faults.historyReadFails
    requires exists i :: 0 <= i < |o.rows| && o.rows[i].timestamp <= t
    ensures var r := HistoricalPrice(o, t, now, fetch, faults);
            r.oracle == o
            && exists i :: 0 <= i < |o.rows| && o.rows[i].timestamp <= t && o.rows[i].priceUsd == r.price
                           && forall j :: 0 <= j < |o.rows| && o.rows[j].timestamp <= t ==> o.rows[j].timestamp <= o.rows[i].timestamp
  {
    var row := Newest(o.rows, Some(t)).value;
    var i :| 0 <= i < |o.rows| && o.rows[i] == row;
  }

  // ---------------------------------------------------------------------------
  // The service object

  /** `PriceService`: the cache fields and the price table it writes through. */
  class PriceService {
    var cachedPrice: real
    var lastFetchTime: int
    var prices: seq<PriceRow>

    ghost predicate Valid()
      reads this
    {
      Keyed(prices)
    }

    function State(): Oracle
      reads this
    {
      Oracle(cachedPrice, lastFetchTime, prices)
    }

    /** A fresh service over an existing table: the cache starts empty. */
    constructor (table: seq<PriceRow>)
      requires Keyed(table)
      ensures Valid() && cachedPrice == 0.0 && lastFetchTime == 0 && prices == table
    {
      cachedPrice := 0.0;
      lastFetchTime := 0;
      prices := table;
    }

    method SavePriceToDb(price: real, now: int, fails: bool)
      requires Valid()
      modifies this`prices
      ensures Valid()
      ensures prices == SavePrice(old(prices), now, price, fails)
    {
      if fails {
        return;
      }
      prices := Upsert(prices, MinuteOf(now), price);
    }

    method GetLatestPriceFromDb(readFails: bool) returns (price: Option<real>)
      requires Valid()
      ensures price == LatestPersisted(prices, readFails)
    {
      if readFails {
        return None;
      }
      var latest := Newest(prices, None);
      price := if latest.Some? then Some(latest.value.priceUsd) else None;
    }

    method GetCurrentNearPrice(now: int, fetch: FetchResult, faults: StoreFaults) returns (price: real)
      requires Valid()
      modifies this
      ensures Valid()
      ensures Priced(State(), price) == CurrentPrice(old(State()), now, fetch, faults)
    {
      if cachedPrice != 0.0 && now - lastFetchTime < CacheDurationMs {
        return cachedPrice;
      }
      match fetch {
        case Fetched(usd) =>
          price := usd.GetOr(0.0);
          cachedPrice := price;
          lastFetchTime := now;
          SavePriceToDb(price, now, faults.saveFails);
        case FetchFailed =>
          if cachedPrice != 0.0 {
            return cachedPrice;
          }
          var fallback := GetLatestPriceFromDb(faults.latestReadFails);
          price := fallback.GetOr(0.0);
      }
    }

    method GetHistoricalPrice(t: int, now: int, fetch: FetchResult, faults: StoreFaults) returns (price: real)
      requires Valid()
      modifies this
      ensures Valid()
      ensures Priced(State(), price) == HistoricalPrice(old(State()), t, now, fetch, faults)
    {
      var row := if faults.historyReadFails then None else Newest(prices, Some(t));
      if row.Some? {
        return row.value.priceUsd;
      }
      price := GetCurrentNearPrice(now, fetch, faults);
    }

    method CalculateUsdValue(amount: string, at: Option<int>, now: int, fetch: FetchResult, faults: StoreFaults)
      returns (usd: real)
      requires Valid()
      modifies this
      ensures Valid()
      ensures Priced(State(), usd) == UsdValue(old(State()), amount, at, now, fetch, faults)
    {
      ghost var before := State();
      var nearAmount := YoctoToNear(Some(amount));
      if at.Some? {
        ghost var spec := HistoricalPrice(before, at.value, now, fetch, faults);
        var price := GetHistoricalPrice(at.value, now, fetch, faults);
        assert State() == spec.oracle && price == spec.price;
        usd := nearAmount * price;
      } else {
        ghost var spec := CurrentPrice(before, now, fetch, faults);
        var price := GetCurrentNearPrice(now, fetch, faults);
        assert State() == spec.oracle && price == spec.price;
        usd := nearAmount * price;
      }
    }
  }
}
