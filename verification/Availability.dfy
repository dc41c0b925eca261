/**
 * The availability quote: which nights of a window are taken, what the stay costs, and why it cannot be booked.
 */
module Availability {
  import opened Bookings
  import Ranges
  import Pricing

  datatype Unit = Unit(tenant: nat, basePrice: int, minStay: int, maxGuests: int, archived: bool)

  /** A row of `unit_price_override`. */
  datatype Override = Override(tenant: nat, unit: nat, span: Pricing.Span)

  datatype Reason = Overlap | MinStay

  datatype Response = Response(
    available: bool,
    nights: int,
    total: int,
    minStay: int,
    reasons: seq<Reason>,
    blocked: seq<Ranges.Range>)

  /** `NotRupiah` is the RangeError of a total outside the safe-integer range. */
  datatype QuoteOutcome = Quoted(response: Response) | Archived | NotFound | NotRupiah

  // ---- Occupied nights --------------------------------------------------------------------------------

  /** Some booking of the unit occupies night n. */
  ghost predicate Taken(rows: Rows, tenant: nat, unit: nat, n: int) {
    exists k | k in rows ::
      rows[k].tenant == tenant && rows[k].unit == unit && Occupying(rows[k]) && HasNight(rows[k], n)
  }

  /** A night is taken by a paid or held booking of the unit, from its check-in to the night before it ends. */
  lemma TakenIff(rows: Rows, tenant: nat, unit: nat, n: int)
    ensures Taken(rows, tenant, unit, n) <==>
            exists k | k in rows ::
              && rows[k].tenant == tenant && rows[k].unit == unit
              && (rows[k].status == PendingPayment || rows[k].status == Confirmed)
              && rows[k].checkIn <= n < rows[k].checkOut
  {
    if Taken(rows, tenant, unit, n) {
      var k :| && k in rows && rows[k].tenant == tenant && rows[k].unit == unit
               && Occupying(rows[k]) && HasNight(rows[k], n);
      assert rows[k].checkIn <= n < rows[k].checkOut;
    }
  }

  /** The WHERE clause of the blocked-range query. */
  predicate InWindow(b: Booking, tenant: nat, unit: nat, checkIn: int, checkOut: int) {
    && b.unit == unit && b.tenant == tenant && Occupying(b)
    && b.checkIn < checkOut && checkIn < b.checkOut
  }

  function Clip(b: Booking, checkIn: int, checkOut: int): Ranges.Range {
    Ranges.Range(Pricing.Max(b.checkIn, checkIn), Pricing.Min(b.checkOut, checkOut))
  }

  /** rs lists the clipped stays of the rows in `seen` that touch the window. */
  ghost predicate Lists(rows: Rows, seen: set<Key>, tenant: nat, unit: nat, checkIn: int, checkOut: int,
                        rs: seq<Ranges.Range>)
  {
    && (forall r | r in rs :: exists k | k in seen && k in rows ::
          InWindow(rows[k], tenant, unit, checkIn, checkOut) && r == Clip(rows[k], checkIn, checkOut))
    && (forall k | k in seen && k in rows && InWindow(rows[k], tenant, unit, checkIn, checkOut) ::
          Clip(rows[k], checkIn, checkOut) in rs)
  }

  /** The query, in whatever order the rows come. */
  method FindBlockedRanges(rows: Rows, tenant: nat, unit: nat, checkIn: int, checkOut: int)
    returns (rs: seq<Ranges.Range>)
    requires StaysNonEmpty(rows) && checkIn < checkOut
    ensures Ranges.NonEmpty(rs)
    ensures forall n :: Ranges.Covers(rs, n) <==> checkIn <= n < checkOut && Taken(rows, tenant, unit, n)
  {
    rs := [];
    var todo := rows.Keys;
    ghost var seen: set<Key> := {};
    while todo != {}
      invariant seen + todo == rows.Keys
      invariant Lists(rows, seen, tenant, unit, checkIn, checkOut, rs)
      decreases |todo|
    {
      var k :| k in todo;
      var was := rs;
      if InWindow(rows[k], tenant, unit, checkIn, checkOut) {
        rs := rs + [Clip(rows[k], checkIn, checkOut)];
      }
      ListsMore(rows, seen, k, tenant, unit, checkIn, checkOut, was, rs);
      todo := todo - {k};
      seen := seen + {k};
    }
    ListedNights(rows, tenant, unit, checkIn, checkOut, rs);
  }

  lemma ListsMore(rows: Rows, seen: set<Key>, k: Key, tenant: nat, unit: nat, checkIn: int, checkOut: int,
                  was: seq<Ranges.Range>, rs: seq<Ranges.Range>)
    requires Lists(rows, seen, tenant, unit, checkIn, checkOut, was) && k in rows
    requires rs == if InWindow(rows[k], tenant, unit, checkIn, checkOut) then was + [Clip(rows[k], checkIn, checkOut)]
                   else was
    ensures Lists(rows, seen + {k}, tenant, unit, checkIn, checkOut, rs)
  {
    forall r | r in rs
      ensures exists j | j in seen + {k} && j in rows ::
                InWindow(rows[j], tenant, unit, checkIn, checkOut) && r == Clip(rows[j], checkIn, checkOut)
    {
      if r in was {
        var j :| j in seen && j in rows &&
                 InWindow(rows[j], tenant, unit, checkIn, checkOut) && r == Clip(rows[j], checkIn, checkOut);
        assert j in seen + {k};
      } else {
        assert k in seen + {k};
      }
    }
  }

  lemma ListedNights(rows: Rows, tenant: nat, unit: nat, checkIn: int, checkOut: int, rs: seq<Ranges.Range>)
    requires StaysNonEmpty(rows) && checkIn < checkOut
    requires Lists(rows, rows.Keys, tenant, unit, checkIn, checkOut, rs)
    ensures Ranges.NonEmpty(rs)
    ensures forall n :: Ranges.Covers(rs, n) <==> checkIn <= n < checkOut && Taken(rows, tenant, unit, n)
  {
    forall i | 0 <= i < |rs|
      ensures rs[i].from < rs[i].to
    {
      assert rs[i] in rs;
    }
    forall n
      ensures Ranges.Covers(rs, n) <==> checkIn <= n < checkOut && Taken(rows, tenant, unit, n)
    {
      if Ranges.Covers(rs, n) {
        var i :| 0 <= i < |rs| && Ranges.Has(rs[i], n);
        assert rs[i] in rs;
        var k :| && k in rows && InWindow(rows[k], tenant, unit, checkIn, checkOut)
                 && rs[i] == Clip(rows[k], checkIn, checkOut);
        assert HasNight(rows[k], n);
      }
      if checkIn <= n < checkOut && Taken(rows, tenant, unit, n) {
        var k :| && k in rows && rows[k].tenant == tenant && rows[k].unit == unit
                 && Occupying(rows[k]) && HasNight(rows[k], n);
        var c := Clip(rows[k], checkIn, checkOut);
        assert c in rs;
        var i :| 0 <= i < |rs| && rs[i] == c;
        assert Ranges.Has(rs[i], n);
      }
    }
  }

  // ---- Overrides --------------------------------------------------------------------------------------

  /** The spans of one unit's overrides, in table order. */
  function SpansOf(overrides: seq<Override>, tenant: nat, unit: nat): (spans: seq<Pricing.Span>)
    ensures forall s | s in spans :: exists o | o in overrides :: o.tenant == tenant && o.unit == unit && o.span == s
  {
    if overrides == [] then []
    else
      var n := |overrides| - 1;
      SpansOf(overrides[..n], tenant, unit)
      + if overrides[n].tenant == tenant && overrides[n].unit == unit then [overrides[n].span] else []
  }

  /** The unit's overrides and no others. */
  lemma {:induction false} SpansExactly(overrides: seq<Override>, tenant: nat, unit: nat, s: Pricing.Span)
    ensures s in SpansOf(overrides, tenant, unit) <==> Override(tenant, unit, s) in overrides
  {
    if overrides != [] {
      var n := |overrides| - 1;
      SpansExactly(overrides[..n], tenant, unit, s);
      assert overrides == overrides[..n] + [overrides[n]];
    }
  }

  /** `price_override_no_overlap` and the rate cap, over the whole table. */
  ghost predicate OverridesHold(overrides: seq<Override>) {
    && (forall i, j, n | 0 <= i < j < |overrides| && overrides[i].unit == overrides[j].unit
                      && Pricing.InSpan(overrides[i].span, n) ::
          !Pricing.InSpan(overrides[j].span, n))
    && (forall i | 0 <= i < |overrides| :: 0 <= overrides[i].span.rate <= Pricing.MAX_NIGHTLY_RATE)
  }

  /** The two constraints as the database states them: ranges that do not overlap, rates between zero and the cap. */
  lemma OverridesHoldIff(overrides: seq<Override>)
    ensures OverridesHold(overrides) <==>
            && (forall i, j | 0 <= i < j < |overrides| && overrides[i].unit == overrides[j].unit
                            && overrides[i].span.from < overrides[i].span.to
                            && overrides[j].span.from < overrides[j].span.to ::
                  overrides[i].span.to <= overrides[j].span.from || overrides[j].span.to <= overrides[i].span.from)
            && (forall o | o in overrides :: 0 <= o.span.rate <= 1_000_000_000)
  {
    if OverridesHold(overrides) {
      forall i, j | 0 <= i < j < |overrides| && overrides[i].unit == overrides[j].unit
                 && overrides[i].span.from < overrides[i].span.to && overrides[j].span.from < overrides[j].span.to
        ensures overrides[i].span.to <= overrides[j].span.from || overrides[j].span.to <= overrides[i].span.from
      {
        var n := Pricing.Max(overrides[i].span.from, overrides[j].span.from);
        assert Pricing.InSpan(overrides[i].span, n) ==> !Pricing.InSpan(overrides[j].span, n);
      }
    } else if forall o | o in overrides :: 0 <= o.span.rate <= 1_000_000_000 {
      assert forall i | 0 <= i < |overrides| :: overrides[i] in overrides;
    }
  }

  lemma {:induction false} SpansHold(overrides: seq<Override>, tenant: nat, unit: nat)
    requires OverridesHold(overrides)
    ensures Pricing.Disjoint(SpansOf(overrides, tenant, unit)) && Pricing.Rated(SpansOf(overrides, tenant, unit))
  {
    if overrides != [] {
      var n := |overrides| - 1;
      SpansHold(overrides[..n], tenant, unit);
      var init := SpansOf(overrides[..n], tenant, unit);
      forall i, m | 0 <= i < |init| && overrides[n].unit == unit && Pricing.InSpan(init[i], m)
        ensures !Pricing.InSpan(overrides[n].span, m)
      {
        assert init[i] in init;
        var o :| o in overrides[..n] && o.unit == unit && o.span == init[i];
        var j :| 0 <= j < n && overrides[..n][j] == o;
        assert overrides[j] == o;
      }
    }
  }

  // ---- The quote --------------------------------------------------------------------------------------

  /** The quote a booking write repeats inside its own transaction. */
  method Quote(rows: Rows, units: map<nat, Unit>, overrides: seq<Override>, tenant: nat, unit: nat, checkIn: int,
               checkOut: int)
    returns (q: QuoteOutcome)
    requires StaysNonEmpty(rows) && OverridesHold(overrides) && checkIn < checkOut
    ensures q.NotFound? <==> unit !in units || units[unit].tenant != tenant
    ensures !q.NotFound? ==> (q.Archived? <==> units[unit].archived)
    ensures q.Quoted? ==>
              var r, busy := q.response, exists n | checkIn <= n < checkOut :: Taken(rows, tenant, unit, n);
              && r.available == (!busy && checkOut - checkIn >= units[unit].minStay)
              && r.nights == checkOut - checkIn && r.minStay == units[unit].minStay
              && r.reasons == (if busy then [Overlap] else [])
                              + (if checkOut - checkIn < units[unit].minStay then [MinStay] else [])
              && r.total == Pricing.NightlySum(units[unit].basePrice, SpansOf(overrides, tenant, unit), checkIn,
                                               checkOut)
              && 0 <= r.total <= 9_007_199_254_740_991
              && Ranges.Canonical(r.blocked)
              && forall n :: Ranges.Covers(r.blocked, n) <==> checkIn <= n < checkOut && Taken(rows, tenant, unit, n)
    ensures !q.NotFound? && !q.Archived? ==>
              (q.NotRupiah? <==>
               !(0 <= Pricing.NightlySum(units[unit].basePrice, SpansOf(overrides, tenant, unit), checkIn, checkOut)
                 <= 9_007_199_254_740_991))
    ensures !q.NotFound? && 0 <= units[unit].basePrice <= 1_000_000_000 && checkOut - checkIn <= 366 ==> !q.NotRupiah?
  {
    hide Taken, SpansOf, OverridesHold, Pricing.Total, Pricing.Clipped, Pricing.NightlySum, Pricing.Disjoint,
         Ranges.Canonical;
    if unit !in units || units[unit].tenant != tenant {
      return NotFound;
    }
    var u := units[unit];
    if u.archived {
      return Archived;
    }
    var ranges := FindBlockedRanges(rows, tenant, unit, checkIn, checkOut);
    var blocked := Ranges.CoalesceRanges(ranges);
    Ranges.CoalesceCanonical(ranges);
    ghost var spans := SpansOf(overrides, tenant, unit);
    var total := Pricing.QuoteTotal(u.basePrice, checkIn, checkOut,
                                    Pricing.Clipped(SpansOf(overrides, tenant, unit), checkIn, checkOut));
    SpansHold(overrides, tenant, unit);
    Pricing.ClippingKeepsTotal(u.basePrice, spans, checkIn, checkOut);
    Pricing.TotalIsNightlySum(u.basePrice, spans, checkIn, checkOut);
    var nights := checkOut - checkIn;
    var reasons := [];
    if blocked != [] {
      reasons := reasons + [Overlap];
    }
    if nights < u.minStay {
      reasons := reasons + [MinStay];
    }
    if !Pricing.Representable(total) {
      NeverOutOfRange(u, spans, checkIn, checkOut);
      return NotRupiah;
    }
    SomeNight(blocked);
    assert forall n :: Ranges.Covers(blocked, n) <==> Ranges.Covers(ranges, n);
    return Quoted(Response(blocked == [] && nights >= u.minStay, nights, total, u.minStay, reasons, blocked));
  }

  lemma NeverOutOfRange(u: Unit, spans: seq<Pricing.Span>, checkIn: int, checkOut: int)
    requires checkIn < checkOut && Pricing.Disjoint(spans) && Pricing.Rated(spans)
    ensures 0 <= u.basePrice <= Pricing.MAX_NIGHTLY_RATE && checkOut - checkIn <= Pricing.MAX_NIGHTS
            ==> Pricing.Representable(Pricing.Total(u.basePrice, checkIn, checkOut, spans))
  {
    if 0 <= u.basePrice <= Pricing.MAX_NIGHTLY_RATE && checkOut - checkIn <= Pricing.MAX_NIGHTS {
      Pricing.TotalIsRupiah(u.basePrice, spans, checkIn, checkOut);
    }
  }

  lemma SomeNight(rs: seq<Ranges.Range>)
    requires Ranges.NonEmpty(rs)
    ensures rs != [] <==> exists n :: Ranges.Covers(rs, n)
  {
    if rs != [] {
      assert Ranges.Has(rs[0], rs[0].from);
      assert Ranges.Covers(rs, rs[0].from);
    }
  }

  /**
   * A quote calls the window free exactly when the exclusion constraint would take the stay: the read and the
   * write share one definition of overlap. Units belong to one tenant (the composite foreign key).
   */
  lemma FreeIffAccepted(rows: Rows, tenant: nat, b: Booking, key: Key)
    requires StaysNonEmpty(rows) && b.checkIn < b.checkOut && key !in rows
    requires forall k | k in rows && rows[k].unit == b.unit :: rows[k].tenant == tenant
    ensures Refused(rows, key, b) <==> exists n | b.checkIn <= n < b.checkOut :: Taken(rows, tenant, b.unit, n)
  {
    if Refused(rows, key, b) {
      var k :| k in rows && k != key && Blocks(rows, k, b);
      var n := Pricing.Max(rows[k].checkIn, b.checkIn);
      assert HasNight(rows[k], n);
      assert Taken(rows, tenant, b.unit, n);
    }
    if n :| b.checkIn <= n < b.checkOut && Taken(rows, tenant, b.unit, n) {
      var k :| && k in rows && rows[k].tenant == tenant && rows[k].unit == b.unit
               && Occupying(rows[k]) && HasNight(rows[k], n);
      assert Blocks(rows, k, b);
    }
  }
}
