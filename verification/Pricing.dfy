/**
 * The price of a stay: an arithmetic identity over the dated overrides, and the night-by-night rule it stands for.
 */
module Pricing {

  const MAX_NIGHTS: int := 366
  const MAX_NIGHTLY_RATE: int := 1_000_000_000
  const MAX_SAFE_INTEGER: int := 9_007_199_254_740_991

  /** Every night in [from, to) costs `rate`. */
  datatype Span = Span(from: int, to: int, rate: int)

  predicate InSpan(o: Span, n: int) {
    o.from <= n < o.to
  }

  function Max(a: int, b: int): int { if a > b then a else b }

  function Min(a: int, b: int): int { if a < b then a else b }

  // ---- The identity -----------------------------------------------------------------------------------

  /** What one override adds to `base * nights`. */
  function Correction(base: int, checkIn: int, checkOut: int, o: Span): int {
    var nights := Min(o.to, checkOut) - Max(o.from, checkIn);
    if nights > 0 then (o.rate - base) * nights else 0
  }

  function Total(base: int, checkIn: int, checkOut: int, overrides: seq<Span>): int {
    if overrides == [] then base * (checkOut - checkIn)
    else
      var n := |overrides| - 1;
      Total(base, checkIn, checkOut, overrides[..n]) + Correction(base, checkIn, checkOut, overrides[n])
  }

  method QuoteTotal(base: int, checkIn: int, checkOut: int, overrides: seq<Span>) returns (total: int)
    ensures total == Total(base, checkIn, checkOut, overrides)
    ensures checkIn <= checkOut && Disjoint(overrides) ==> total == NightlySum(base, overrides, checkIn, checkOut)
  {
    total := base * (checkOut - checkIn);
    for i := 0 to |overrides|
      invariant total == Total(base, checkIn, checkOut, overrides[..i])
    {
      var o := overrides[i];
      var overlapFrom := if o.from > checkIn then o.from else checkIn;
      var overlapTo := if o.to < checkOut then o.to else checkOut;
      var nights := overlapTo - overlapFrom;
      assert overrides[..i + 1][..i] == overrides[..i];
      if nights > 0 {
        total := total + (o.rate - base) * nights;
      }
    }
    assert overrides[..|overrides|] == overrides;
    if checkIn <= checkOut && Disjoint(overrides) {
      TotalIsNightlySum(base, overrides, checkIn, checkOut);
    }
  }

  // ---- Night by night ---------------------------------------------------------------------------------

  /** The override covering night n, else the base price. */
  function NightPrice(base: int, overrides: seq<Span>, n: int): int {
    if overrides == [] then base
    else if InSpan(overrides[0], n) then overrides[0].rate
    else NightPrice(base, overrides[1..], n)
  }

  function NightlySum(base: int, overrides: seq<Span>, checkIn: int, checkOut: int): int
    decreases checkOut - checkIn
  {
    if checkOut <= checkIn then 0
    else NightlySum(base, overrides, checkIn, checkOut - 1) + NightPrice(base, overrides, checkOut - 1)
  }

  /** `price_override_no_overlap`: no night has two overrides. */
  ghost predicate Disjoint(overrides: seq<Span>) {
    forall i, j, n | 0 <= i < j < |overrides| && InSpan(overrides[i], n) :: !InSpan(overrides[j], n)
  }

  /** No night has two overrides exactly when, of any two that hold a night, one ends before the other starts. */
  lemma DisjointIff(overrides: seq<Span>)
    ensures Disjoint(overrides) <==>
            forall i, j | 0 <= i < j < |overrides| && overrides[i].from < overrides[i].to
                       && overrides[j].from < overrides[j].to ::
              overrides[i].to <= overrides[j].from || overrides[j].to <= overrides[i].from
  {
    if Disjoint(overrides) {
      forall i, j | 0 <= i < j < |overrides| && overrides[i].from < overrides[i].to
                 && overrides[j].from < overrides[j].to
        ensures overrides[i].to <= overrides[j].from || overrides[j].to <= overrides[i].from
      {
        var n := Max(overrides[i].from, overrides[j].from);
        assert InSpan(overrides[i], n) ==> !InSpan(overrides[j], n);
      }
    }
  }

  /** The base price corrected by every override that covers the night, however many there are. */
  function Corrected(base: int, overrides: seq<Span>, n: int): int {
    if overrides == [] then base
    else
      var k := |overrides| - 1;
      Corrected(base, overrides[..k], n) + if InSpan(overrides[k], n) then overrides[k].rate - base else 0
  }

  function CorrectedSum(base: int, overrides: seq<Span>, checkIn: int, checkOut: int): int
    decreases checkOut - checkIn
  {
    if checkOut <= checkIn then 0
    else CorrectedSum(base, overrides, checkIn, checkOut - 1) + Corrected(base, overrides, checkOut - 1)
  }

  lemma {:induction false} CorrectionStep(base: int, checkIn: int, checkOut: int, o: Span)
    requires checkIn < checkOut
    ensures Correction(base, checkIn, checkOut, o) ==
            Correction(base, checkIn, checkOut - 1, o) + if InSpan(o, checkOut - 1) then o.rate - base else 0
  {
    var d := o.rate - base;
    var a := Min(o.to, checkOut) - Max(o.from, checkIn);
    var b := Min(o.to, checkOut - 1) - Max(o.from, checkIn);
    assert InSpan(o, checkOut - 1) ==> a == b + 1 && b >= 0 && d * a == d * b + d;
    assert !InSpan(o, checkOut - 1) && a > 0 ==> a == b;
  }

  lemma {:induction false} CorrectedSumAdds(base: int, overrides: seq<Span>, o: Span, checkIn: int, checkOut: int)
    requires checkIn <= checkOut
    ensures CorrectedSum(base, overrides + [o], checkIn, checkOut)
         == CorrectedSum(base, overrides, checkIn, checkOut) + Correction(base, checkIn, checkOut, o)
    decreases checkOut - checkIn
  {
    if checkIn < checkOut {
      CorrectedSumAdds(base, overrides, o, checkIn, checkOut - 1);
      CorrectionStep(base, checkIn, checkOut, o);
      assert (overrides + [o])[..|overrides|] == overrides;
    }
  }

  lemma {:induction false} BaseSum(base: int, checkIn: int, checkOut: int)
    requires checkIn <= checkOut
    ensures CorrectedSum(base, [], checkIn, checkOut) == base * (checkOut - checkIn)
    decreases checkOut - checkIn
  {
    if checkIn < checkOut {
      BaseSum(base, checkIn, checkOut - 1);
      assert base * (checkOut - checkIn) == base * (checkOut - 1 - checkIn) + base;
    }
  }

  /** With no assumption on the overrides, the identity corrects each night once per override that covers it. */
  lemma {:induction false} TotalCorrectsEachNight(base: int, overrides: seq<Span>, checkIn: int, checkOut: int)
    requires checkIn <= checkOut
    ensures Total(base, checkIn, checkOut, overrides) == CorrectedSum(base, overrides, checkIn, checkOut)
  {
    if overrides == [] {
      BaseSum(base, checkIn, checkOut);
    } else {
      var k := |overrides| - 1;
      TotalCorrectsEachNight(base, overrides[..k], checkIn, checkOut);
      CorrectedSumAdds(base, overrides[..k], overrides[k], checkIn, checkOut);
      assert overrides == overrides[..k] + [overrides[k]];
    }
  }

  lemma {:induction false} Uncovered(base: int, overrides: seq<Span>, n: int)
    requires forall i | 0 <= i < |overrides| :: !InSpan(overrides[i], n)
    ensures Corrected(base, overrides, n) == base == NightPrice(base, overrides, n)
    decreases |overrides|
  {
    if overrides != [] {
      Uncovered(base, overrides[..|overrides| - 1], n);
      Uncovered(base, overrides[1..], n);
    }
  }

  lemma {:induction false} CoveredOnce(base: int, overrides: seq<Span>, n: int, i: nat)
    requires i < |overrides| && InSpan(overrides[i], n)
    requires forall j | 0 <= j < |overrides| && j != i :: !InSpan(overrides[j], n)
    ensures Corrected(base, overrides, n) == overrides[i].rate
    ensures NightPrice(base, overrides, n) == overrides[i].rate
    decreases |overrides|
  {
    var k := |overrides| - 1;
    if i == k {
      Uncovered(base, overrides[..k], n);
    } else {
      CoveredOnce(base, overrides[..k], n, i);
    }
    if i > 0 {
      CoveredOnce(base, overrides[1..], n, i - 1);
    }
  }

  /** What the night costs is settled by the override covering it, wherever it stands in the list. */
  lemma NightPriceIs(base: int, overrides: seq<Span>, n: int)
    requires Disjoint(overrides)
    ensures Corrected(base, overrides, n) == NightPrice(base, overrides, n)
    ensures forall o | o in overrides && o.from <= n < o.to :: NightPrice(base, overrides, n) == o.rate
    ensures (forall o | o in overrides :: !(o.from <= n < o.to)) ==> NightPrice(base, overrides, n) == base
  {
    if i :| 0 <= i < |overrides| && InSpan(overrides[i], n) {
      CoveredOnce(base, overrides, n, i);
    } else {
      Uncovered(base, overrides, n);
    }
  }

  lemma {:induction false} CorrectedSumIsNightly(base: int, overrides: seq<Span>, checkIn: int, checkOut: int)
    requires Disjoint(overrides)
    ensures CorrectedSum(base, overrides, checkIn, checkOut) == NightlySum(base, overrides, checkIn, checkOut)
    decreases checkOut - checkIn
  {
    if checkIn < checkOut {
      CorrectedSumIsNightly(base, overrides, checkIn, checkOut - 1);
      NightPriceIs(base, overrides, checkOut - 1);
    }
  }

  /** On disjoint overrides in any order, the identity is the night-by-night sum. */
  lemma TotalIsNightlySum(base: int, overrides: seq<Span>, checkIn: int, checkOut: int)
    requires checkIn <= checkOut && Disjoint(overrides)
    ensures Total(base, checkIn, checkOut, overrides) == NightlySum(base, overrides, checkIn, checkOut)
  {
    TotalCorrectsEachNight(base, overrides, checkIn, checkOut);
    CorrectedSumIsNightly(base, overrides, checkIn, checkOut);
  }

  /** A night under two overrides is corrected twice: the identity leans on the constraint. */
  lemma OverlappingOverridesMisprice()
    ensures var os := [Span(0, 1, 5), Span(0, 1, 5)];
            Total(3, 0, 1, os) == 7 && NightlySum(3, os, 0, 1) == 5
  {
    var os := [Span(0, 1, 5), Span(0, 1, 5)];
    assert os[..1] == [Span(0, 1, 5)];
    assert Total(3, 0, 1, os[..1]) == 5;
    assert NightlySum(3, os, 0, 0) == 0;
  }

  // ---- Order and clipping -----------------------------------------------------------------------------

  lemma {:induction false} SameNightlySum(base: int, a: seq<Span>, b: seq<Span>, checkIn: int, checkOut: int)
    requires Disjoint(a) && Disjoint(b) && multiset(a) == multiset(b)
    ensures NightlySum(base, a, checkIn, checkOut) == NightlySum(base, b, checkIn, checkOut)
    decreases checkOut - checkIn
  {
    if checkIn < checkOut {
      SameNightlySum(base, a, b, checkIn, checkOut - 1);
      NightPriceIs(base, a, checkOut - 1);
      NightPriceIs(base, b, checkOut - 1);
      assert forall o :: o in a <==> o in multiset(a);
      assert forall o :: o in b <==> o in multiset(b);
    }
  }

  /** Listing the overrides in another order prices every stay the same. */
  lemma TotalIgnoresOrder(base: int, a: seq<Span>, b: seq<Span>, checkIn: int, checkOut: int)
    requires checkIn <= checkOut && Disjoint(a) && Disjoint(b) && multiset(a) == multiset(b)
    ensures Total(base, checkIn, checkOut, a) == Total(base, checkIn, checkOut, b)
  {
    TotalIsNightlySum(base, a, checkIn, checkOut);
    TotalIsNightlySum(base, b, checkIn, checkOut);
    SameNightlySum(base, a, b, checkIn, checkOut);
  }

  /** The override query: the spans that touch the window, cut down to it. */
  function Clipped(overrides: seq<Span>, checkIn: int, checkOut: int): seq<Span> {
    if overrides == [] then []
    else
      var n := |overrides| - 1;
      var o := overrides[n];
      Clipped(overrides[..n], checkIn, checkOut)
      + if Touches(o, checkIn, checkOut) then [ClipOne(o, checkIn, checkOut)] else []
  }

  /** The query answers the part inside the window of every override that has a night there, and nothing else. */
  lemma {:induction false} ClippedExactly(overrides: seq<Span>, checkIn: int, checkOut: int, s: Span)
    requires checkIn < checkOut
    ensures s in Clipped(overrides, checkIn, checkOut) <==>
            && checkIn <= s.from < s.to <= checkOut
            && exists o | o in overrides ::
                 && o.rate == s.rate && o.from <= s.from && s.to <= o.to
                 && (s.from == checkIn || s.from == o.from) && (s.to == checkOut || s.to == o.to)
  {
    if overrides != [] {
      var n := |overrides| - 1;
      ClippedExactly(overrides[..n], checkIn, checkOut, s);
      assert overrides == overrides[..n] + [overrides[n]];
    }
  }

  lemma TotalAppends(base: int, checkIn: int, checkOut: int, overrides: seq<Span>, o: Span)
    ensures Total(base, checkIn, checkOut, overrides + [o])
         == Total(base, checkIn, checkOut, overrides) + Correction(base, checkIn, checkOut, o)
  {
    assert (overrides + [o])[..|overrides|] == overrides;
  }

  /** The override meets the window. */
  predicate Touches(o: Span, checkIn: int, checkOut: int) {
    o.from < checkOut && checkIn < o.to && o.from < o.to
  }

  function ClipOne(o: Span, checkIn: int, checkOut: int): Span {
    Span(Max(o.from, checkIn), Min(o.to, checkOut), o.rate)
  }

  /** Raw or clipped, the overrides price the window the same. */
  lemma {:induction false} ClippingKeepsTotal(base: int, overrides: seq<Span>, checkIn: int, checkOut: int)
    requires checkIn < checkOut
    ensures Total(base, checkIn, checkOut, Clipped(overrides, checkIn, checkOut))
         == Total(base, checkIn, checkOut, overrides)
  {
    hide Total, Correction, ClipOne, Touches;
    if overrides != [] {
      var n := |overrides| - 1;
      var o := overrides[n];
      var init := Clipped(overrides[..n], checkIn, checkOut);
      ClippingKeepsTotal(base, overrides[..n], checkIn, checkOut);
      assert overrides == overrides[..n] + [o];
      TotalAppends(base, checkIn, checkOut, overrides[..n], o);
      if Touches(o, checkIn, checkOut) {
        TotalAppends(base, checkIn, checkOut, init, ClipOne(o, checkIn, checkOut));
        ClippedCorrection(base, checkIn, checkOut, o);
      } else {
        assert init + [] == init;
        UntouchedCorrection(base, checkIn, checkOut, o);
      }
    }
  }

  lemma UntouchedCorrection(base: int, checkIn: int, checkOut: int, o: Span)
    requires checkIn < checkOut && !Touches(o, checkIn, checkOut)
    ensures Correction(base, checkIn, checkOut, o) == 0
  {
  }

  lemma ClippedCorrection(base: int, checkIn: int, checkOut: int, o: Span)
    ensures Correction(base, checkIn, checkOut, ClipOne(o, checkIn, checkOut))
         == Correction(base, checkIn, checkOut, o)
  {
  }

  // ---- Range ------------------------------------------------------------------------------------------

  ghost predicate Rated(overrides: seq<Span>) {
    forall i | 0 <= i < |overrides| :: 0 <= overrides[i].rate <= MAX_NIGHTLY_RATE
  }

  lemma {:induction false} NightPriceInRange(base: int, overrides: seq<Span>, n: int)
    requires 0 <= base <= MAX_NIGHTLY_RATE && Rated(overrides)
    ensures 0 <= NightPrice(base, overrides, n) <= MAX_NIGHTLY_RATE
  {
    if overrides != [] {
      NightPriceInRange(base, overrides[1..], n);
    }
  }

  lemma {:induction false} NightlySumInRange(base: int, overrides: seq<Span>, checkIn: int, checkOut: int)
    requires checkIn <= checkOut && 0 <= base <= MAX_NIGHTLY_RATE && Rated(overrides)
    ensures 0 <= NightlySum(base, overrides, checkIn, checkOut) <= (checkOut - checkIn) * MAX_NIGHTLY_RATE
    decreases checkOut - checkIn
  {
    if checkIn < checkOut {
      NightlySumInRange(base, overrides, checkIn, checkOut - 1);
      NightPriceInRange(base, overrides, checkOut - 1);
    }
  }

  /** Rates up to the cap and windows up to a year and a day price below the safe-integer bound. */
  lemma TotalIsRupiah(base: int, overrides: seq<Span>, checkIn: int, checkOut: int)
    requires checkIn <= checkOut <= checkIn + MAX_NIGHTS && 0 <= base <= MAX_NIGHTLY_RATE && Rated(overrides)
               && Disjoint(overrides)
    ensures 0 <= Total(base, checkIn, checkOut, overrides) <= MAX_NIGHTS * MAX_NIGHTLY_RATE <= MAX_SAFE_INTEGER
    ensures MAX_NIGHTS == 366 && MAX_NIGHTLY_RATE == 1_000_000_000 && MAX_SAFE_INTEGER == 9_007_199_254_740_991
  {
    TotalIsNightlySum(base, overrides, checkIn, checkOut);
    NightlySumInRange(base, overrides, checkIn, checkOut);
  }

  /** Whole rupiah in the safe-integer range, else the RangeError. */
  predicate Representable(value: int) {
    0 <= value <= MAX_SAFE_INTEGER
  }
}
