/** The surge cache and the pricing service (pricing.py:53-92). Time is in seconds. */
module Pricing {
  import opened Models
  import opened Surge
  import opened SurgeText
  import opened Fares

  const SURGE_TTL_SECONDS: nat := 30
  const SURGE_SEARCH_RADIUS_KM: real := 3.0

  /** surge_grid_key of a location: the 0.01-degree cell, taken as given. */
  type Cell = nat

  datatype Entry = Entry(text: string, deadline: nat)

  type Cache = map<Cell, Entry>

  /** Redis hides an entry from its deadline on. */
  predicate Live(cache: Cache, cell: Cell, now: nat) {
    cell in cache && now < cache[cell].deadline
  }

  /** SurgeCache.get. */
  function Lookup(cache: Cache, cell: Cell, now: nat): Option<Decimal> {
    if Live(cache, cell, now) then Parse(cache[cell].text) else None
  }

  /** Every entry parses. */
  predicate Readable(cache: Cache) {
    forall cell :: cell in cache ==> Parse(cache[cell].text).Some?
  }

  /** SurgeCache.set: SET ... EX 30. */
  function Put(cache: Cache, cell: Cell, m: Decimal, now: nat): Cache {
    cache[cell := Entry(Print(m), now + SURGE_TTL_SECONDS)]
  }

  /** get_surge_multiplier: the cache after the call and the multiplier it returns, given
      what compute_surge_multiplier makes of the call's counts. */
  function Quote(cache: Cache, cell: Cell, now: nat, computed: Decimal): (Cache, Option<Decimal>) {
    if Live(cache, cell, now) then (cache, Parse(cache[cell].text))
    else (Put(cache, cell, computed, now), Some(computed))
  }

  /** A multiplier set is read back, as the same decimal, for 30 seconds and no longer, and
      setting one cell leaves what every other cell reads alone. */
  lemma ReadsBackUntilDeadline(cache: Cache, cell: Cell, m: Decimal, at: nat, other: Cell, now: nat)
    ensures Lookup(Put(cache, cell, m, at), other, now) ==
            if other != cell then Lookup(cache, other, now)
            else if now < at + 30 then Some(m)
            else None
  {
    ParsePrint(m);
  }

  class SurgeCache {
    var entries: Cache

    /** Only str(Decimal) is ever stored, so every entry parses. */
    ghost predicate Valid()
      reads this
    {
      Readable(entries)
    }

    constructor ()
      ensures Valid() && entries == map[]
    {
      entries := map[];
    }

    method Get(cell: Cell, now: nat) returns (m: Option<Decimal>)
      ensures m == Lookup(entries, cell, now)
      ensures Valid() ==> (m.Some? <==> Live(entries, cell, now))
    {
      m := None;
      if cell in entries && now < entries[cell].deadline {
        m := Parse(entries[cell].text);
      }
    }

    method Set(cell: Cell, m: Decimal, now: nat)
      requires Valid()
      modifies this
      ensures Valid() && entries == Put(old(entries), cell, m, now)
    {
      ParsePrint(m);
      entries := entries[cell := Entry(Print(m), now + SURGE_TTL_SECONDS)];
    }
  }

  class PricingService {
    const cache: SurgeCache

    constructor (cache: SurgeCache)
      ensures this.cache == cache
    {
      this.cache := cache;
    }

    method GetSurgeMultiplier(cell: Cell, now: nat, pending: nat, free: nat) returns (m: Decimal)
      requires cache.Valid()
      modifies cache
      ensures cache.Valid()
      ensures (cache.entries, Some(m)) == Quote(old(cache.entries), cell, now, ComputeMultiplier(pending, free))
    {
      var cached := cache.Get(cell, now);
      if cached.Some? {
        return cached.value;
      }
      m := ComputeMultiplier(pending, free);
      cache.Set(cell, m, now);
    }

    method GetFareQuote(d: Km, cell: Cell, now: nat, pending: nat, free: nat)
      returns (fare: nat, surge: Decimal)
      requires ValidKm(d) && cache.Valid()
      modifies cache
      ensures cache.Valid()
      ensures (cache.entries, Some(surge)) == Quote(old(cache.entries), cell, now, ComputeMultiplier(pending, free))
      ensures fare == FareCents(d, surge)
      ensures var one := d.den * Pow10(surge.places);
              -(one as int) <= 2 * ((200 * d.den + 150 * d.num) * surge.coeff - fare * one) < one
    {
      surge := GetSurgeMultiplier(cell, now, pending, free);
      FareWithinHalfCent(d, surge);
      fare := FareCents(d, surge);
    }
  }

  // ---------- serial runs of calls ----------

  /** A call, with the multiplier its own counts give. */
  datatype SurgeCall = SurgeCall(cell: Cell, now: nat, computed: Decimal)

  predicate TimeOrdered(calls: seq<SurgeCall>) {
    forall i, j :: 0 <= i <= j < |calls| ==> calls[i].now <= calls[j].now
  }

  function CacheAfter(calls: seq<SurgeCall>, n: nat): Cache
    requires n <= |calls|
  {
    if n == 0 then map[]
    else
      var c := calls[n - 1];
      Quote(CacheAfter(calls, n - 1), c.cell, c.now, c.computed).0
  }

  /** The multiplier call i returns. */
  function Served(calls: seq<SurgeCall>, i: nat): Option<Decimal>
    requires i < |calls|
  {
    var c := calls[i];
    Quote(CacheAfter(calls, i), c.cell, c.now, c.computed).1
  }

  /** Call i misses the cache and computes afresh. */
  predicate Recomputes(calls: seq<SurgeCall>, i: nat)
    requires i < |calls|
  {
    !Live(CacheAfter(calls, i), calls[i].cell, calls[i].now)
  }

  /** The latest of the first n calls that recomputed for the cell. */
  function LastRecompute(calls: seq<SurgeCall>, n: nat, cell: Cell): (j: Option<nat>)
    requires n <= |calls|
    ensures j.Some? ==> j.value < n
  {
    if n == 0 then None
    else if calls[n - 1].cell == cell && Recomputes(calls, n - 1) then Some(n - 1)
    else LastRecompute(calls, n - 1, cell)
  }

  lemma {:induction false} LastRecomputeIsLast(calls: seq<SurgeCall>, n: nat, cell: Cell)
    requires n <= |calls|
    ensures var j := LastRecompute(calls, n, cell);
            (j.Some? ==> calls[j.value].cell == cell && Recomputes(calls, j.value))
            && forall i :: 0 <= i < n && calls[i].cell == cell && Recomputes(calls, i)
                           ==> j.Some? && i <= j.value
  {
    if n > 0 {
      LastRecomputeIsLast(calls, n - 1, cell);
    }
  }

  /** One call writes its own cell's entry when it misses, and no entry otherwise. */
  lemma QuoteEffect(cache: Cache, c: SurgeCall, cell: Cell)
    ensures var after := Quote(cache, c.cell, c.now, c.computed).0;
            if c.cell == cell && !Live(cache, c.cell, c.now) then
              cell in after
              && after[cell] == Entry(Print(c.computed), c.now + 30)
            else
              (cell in after <==> cell in cache) && (cell in cache ==> after[cell] == cache[cell])
  {
  }

  /** What the cache holds for a cell is what its last recomputation stored; hits in between
      leave the entry and its deadline alone. */
  lemma {:induction false} EntryIsLastRecompute(calls: seq<SurgeCall>, n: nat, cell: Cell)
    requires n <= |calls|
    ensures var j, cache := LastRecompute(calls, n, cell), CacheAfter(calls, n);
            (cell in cache <==> j.Some?)
            && (j.Some? ==>
                  cache[cell] ==
                  Entry(Print(calls[j.value].computed),
                        calls[j.value].now + 30))
  {
    hide Print, Parse;
    if n > 0 {
      EntryIsLastRecompute(calls, n - 1, cell);
      QuoteEffect(CacheAfter(calls, n - 1), calls[n - 1], cell);
    }
  }

  /** A call recomputes exactly when no call for its cell recomputed in the last 30 seconds. */
  lemma RecomputesExactlyWhen(calls: seq<SurgeCall>, i: nat)
    requires TimeOrdered(calls) && i < |calls|
    ensures Recomputes(calls, i) <==>
            forall j :: 0 <= j < i && calls[j].cell == calls[i].cell && Recomputes(calls, j)
                        ==> calls[j].now + 30 <= calls[i].now
  {
    var cell := calls[i].cell;
    EntryIsLastRecompute(calls, i, cell);
    LastRecomputeIsLast(calls, i, cell);
    var last := LastRecompute(calls, i, cell);
    if last.Some? {
      ParsePrint(calls[last.value].computed);
      assert calls[last.value].cell == cell && Recomputes(calls, last.value);
    }
  }

  /** Every multiplier returned was computed, from that call's own counts, by a call for the
      same cell that recomputed less than 30 seconds before (possibly the call itself). */
  lemma ServedWasRecentlyComputed(calls: seq<SurgeCall>, i: nat) returns (j: nat)
    requires TimeOrdered(calls) && i < |calls|
    ensures j <= i && calls[j].cell == calls[i].cell && Recomputes(calls, j)
    ensures Served(calls, i) == Some(calls[j].computed)
    ensures calls[j].now <= calls[i].now < calls[j].now + 30
  {
    j := i;
    if !Recomputes(calls, i) {
      EntryIsLastRecompute(calls, i, calls[i].cell);
      LastRecomputeIsLast(calls, i, calls[i].cell);
      j := LastRecompute(calls, i, calls[i].cell).value;
      ParsePrint(calls[j].computed);
    }
  }
}
