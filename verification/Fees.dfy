/**
 * The gross amount to charge so that what remains after the Paystack fee covers a base amount
 * (calculatePaystackFee and calculateGrossAmountForNet in src/payments/paystack.service.ts).
 * The fee jumps by 10000 at 250000, so what remains is not monotone in what is charged.
 */
module Fees {

  type Fee = nat -> nat

  /** A fee that never falls, is nothing on nothing and between 1 and 200000 on anything else. */
  ghost predicate IsFee(fee: Fee) {
    && fee(0) == 0
    && (forall g: nat :: g > 0 ==> 1 <= fee(g) <= 200000)
    && (forall g: nat, h: nat :: g <= h ==> fee(g) <= fee(h))
  }

  function Net(fee: Fee, gross: nat): int {
    gross - fee(gross)
  }

  predicate Covers(fee: Fee, base: nat, gross: nat) {
    Net(fee, gross) >= base
  }

  /** The binary search, from a range whose upper end covers the base. */
  function Search(fee: Fee, base: nat, low: nat, high: nat): (gross: nat)
    requires low <= high
    ensures low <= gross <= high
    decreases high - low
  {
    if low == high then low
    else
      var mid := (low + high) / 2;
      if Covers(fee, base, mid) then Search(fee, base, low, mid) else Search(fee, base, mid + 1, high)
  }

  /** One more charged is at most one more kept. */
  lemma NetGrowsSlowly(fee: Fee, gross: nat)
    requires IsFee(fee) && gross > 0
    ensures Net(fee, gross) <= Net(fee, gross - 1) + 1
  {
    assert fee(gross - 1) <= fee(gross);
  }

  lemma {:induction false} SearchStopsAtTheEdge(fee: Fee, base: nat, low: nat, high: nat)
    requires base <= low <= high && Covers(fee, base, high)
    requires low > base ==> !Covers(fee, base, low - 1)
    ensures var gross := Search(fee, base, low, high);
      Covers(fee, base, gross) && (gross > base ==> !Covers(fee, base, gross - 1))
    decreases high - low
  {
    hide Covers;
    if low < high {
      var mid := (low + high) / 2;
      if Covers(fee, base, mid) {
        SearchStopsAtTheEdge(fee, base, low, mid);
      } else {
        SearchStopsAtTheEdge(fee, base, mid + 1, high);
      }
    }
  }

  /**
   * Whatever the fee, and although the net is not monotone, the search ends on a gross whose net is exactly the base.
   */
  lemma SearchIsExact(fee: Fee, base: nat, high: nat)
    requires IsFee(fee) && high >= base + 200000
    ensures Net(fee, Search(fee, base, base, high)) == base
  {
    assert fee(high) <= 200000;
    SearchStopsAtTheEdge(fee, base, base, high);
    var gross := Search(fee, base, base, high);
    if gross > base {
      NetGrowsSlowly(fee, gross);
    } else {
      assert fee(base) == 0;
    }
  }

  // ---- The Paystack fee ------------------------------------------------------------------

  /** Fifteen in a thousand, rounded up. */
  function Percentage(gross: nat): nat {
    (15 * gross + 999) / 1000
  }

  function PaystackFee(gross: nat): nat {
    var fee := if gross < 250000 then Percentage(gross) else Percentage(gross) + 10000;
    if fee <= 200000 then fee else 200000
  }

  lemma PaystackFeeIsFee()
    ensures IsFee(PaystackFee)
  {
  }

  /** The least whole number of kobo that is at least fifteen in a thousand of the gross. */
  predicate IsRoundedUp(n: nat, gross: nat) {
    1000 * n >= 15 * gross && (n > 0 ==> 1000 * (n - 1) < 15 * gross)
  }

  /** Below 250000 the fee is the percentage; from there it is 10000 more, and never more than 200000. */
  lemma PaystackFeeIs(gross: nat)
    ensures exists n: nat :: IsRoundedUp(n, gross)
    ensures forall n: nat | IsRoundedUp(n, gross) ::
      PaystackFee(gross) == if gross < 250000 then n else if n + 10000 <= 200000 then n + 10000 else 200000
  {
    assert IsRoundedUp(Percentage(gross), gross);
  }

  /** The upper end of the search: the base and 210000, divided by 0.985 and rounded up. */
  function Ceiling(base: nat): nat {
    ((base + 210000) * 1000 + 984) / 985
  }

  function Gross(base: nat): (gross: nat)
    ensures base <= gross <= Ceiling(base)
  {
    Search(PaystackFee, base, base, Ceiling(base))
  }

  /** What is left of the gross after the fee is the base, to the kobo. */
  lemma GrossIsExact(base: nat)
    ensures Gross(base) - PaystackFee(Gross(base)) == base
  {
    PaystackFeeIsFee();
    SearchIsExact(PaystackFee, base, Ceiling(base));
  }

  /** calculateGrossAmountForNet */
  method GrossAmountForNet(base: nat) returns (gross: nat)
    ensures gross == Gross(base)
    ensures gross - PaystackFee(gross) == base
  {
    var low: nat, high: nat := base, Ceiling(base);
    while low < high
      invariant low <= high
      invariant Search(PaystackFee, base, low, high) == Gross(base)
      decreases high - low
    {
      var mid := (low + high) / 2;
      var net := mid - PaystackFee(mid);
      if net >= base { high := mid; } else { low := mid + 1; }
    }
    GrossIsExact(base);
    return low;
  }

  // ---- When the gross is the least -------------------------------------------------------

  ghost predicate IsLeast(base: nat, gross: nat) {
    Covers(PaystackFee, base, gross) && forall g: nat :: g < gross ==> !Covers(PaystackFee, base, g)
  }

  /** From `low` to `high` a gross that covers the base is followed by grosses that cover it. */
  ghost predicate Closed(fee: Fee, base: nat, low: nat, high: nat) {
    forall g: nat, h: nat :: low <= g <= h <= high && Covers(fee, base, g) ==> Covers(fee, base, h)
  }

  lemma {:induction false} SearchFindsTheLeast(fee: Fee, base: nat, low: nat, high: nat)
    requires low <= high && Covers(fee, base, high) && Closed(fee, base, low, high)
    ensures var gross := Search(fee, base, low, high);
      Covers(fee, base, gross) && forall g: nat :: low <= g < gross ==> !Covers(fee, base, g)
    decreases high - low
  {
    hide Covers;
    if low < high {
      var mid := (low + high) / 2;
      if Covers(fee, base, mid) {
        SearchFindsTheLeast(fee, base, low, mid);
      } else {
        SearchFindsTheLeast(fee, base, mid + 1, high);
      }
    }
  }

  /** Below the jump and from the jump on, what is kept never falls. */
  lemma NetRises(g: nat, h: nat)
    requires g <= h && (h < 250000 || g >= 250000)
    ensures Net(PaystackFee, g) <= Net(PaystackFee, h)
  {
  }

  /** The dip: 246249 is kept of 249999, but only 236250 of 250000. */
  lemma TheDip()
    ensures Net(PaystackFee, 249999) == 246249 && Net(PaystackFee, 250000) == 236250
  {
  }

  lemma ClosedOutsideTheDip(base: nat, low: nat, high: nat)
    requires base <= 236250 || base > 246249 || high < 250000
    ensures Closed(PaystackFee, base, low, high)
  {
    TheDip();
    forall g: nat, h: nat | low <= g <= h <= high && Covers(PaystackFee, base, g) ensures Covers(PaystackFee, base, h) {
      if g < 250000 <= h {
        NetRises(g, 249999);
        NetRises(250000, h);
      } else {
        NetRises(g, h);
      }
    }
  }

  function Probe(base: nat, high: nat): nat {
    (base + high) / 2
  }

  lemma ProbeThatCovers(base: nat, high: nat)
    requires base < high && Covers(PaystackFee, base, Probe(base, high))
    ensures Search(PaystackFee, base, base, high) == Search(PaystackFee, base, base, Probe(base, high))
  {
  }

  function FourthProbe(base: nat): nat {
    Probe(base, Probe(base, Probe(base, Probe(base, Ceiling(base)))))
  }

  lemma FourthProbeIs(base: nat)
    ensures FourthProbe(base) == (15 * base + Ceiling(base)) / 16
  {
  }

  /** For a base in the dip the first three probes lie above the jump and cover it. */
  lemma ThreeProbesCover(base: nat) returns (third: nat)
    requires 236250 < base <= 246249
    ensures base < third && Covers(PaystackFee, base, third)
    ensures Gross(base) == Search(PaystackFee, base, base, third) && Probe(base, third) == FourthProbe(base)
  {
    var high := Ceiling(base);
    var first := Probe(base, high);
    var second := Probe(base, first);
    third := Probe(base, second);
    assert Covers(PaystackFee, base, first) && Covers(PaystackFee, base, second) && Covers(PaystackFee, base, third);
    hide PaystackFee, Covers, Search;
    ProbeThatCovers(base, high);
    ProbeThatCovers(base, first);
    ProbeThatCovers(base, second);
  }

  /** The fourth probe decides on which side of the jump the search goes on. */
  lemma FourthProbeDecides(base: nat)
    requires 236250 < base <= 246249
    ensures var fourth := FourthProbe(base);
      && base < fourth
      && (base <= 236450 ==> fourth < 250000 && Covers(PaystackFee, base, fourth))
      && (base > 236450 ==> fourth >= 250000 && !Covers(PaystackFee, base, fourth))
  {
    FourthProbeIs(base);
    hide FourthProbe;
  }

  lemma LeastBelowTheJump(base: nat)
    requires 236250 < base <= 236450
    ensures IsLeast(base, Gross(base))
  {
    var third := ThreeProbesCover(base);
    FourthProbeDecides(base);
    var fourth := FourthProbe(base);
    hide FourthProbe;
    ProbeThatCovers(base, third);
    ClosedOutsideTheDip(base, base, fourth);
    SearchFindsTheLeast(PaystackFee, base, base, fourth);
  }

  lemma NotLeastAboveTheJump(base: nat)
    requires 236450 < base <= 246249
    ensures Gross(base) > 250000 && Covers(PaystackFee, base, 249999)
  {
    var third := ThreeProbesCover(base);
    FourthProbeDecides(base);
    TheDip();
    hide FourthProbe, PaystackFee;
  }

  lemma LeastOutsideTheDip(base: nat)
    requires base <= 236250 || base > 246249
    ensures IsLeast(base, Gross(base))
  {
    var high := Ceiling(base);
    assert Covers(PaystackFee, base, high);
    ClosedOutsideTheDip(base, base, high);
    SearchFindsTheLeast(PaystackFee, base, base, high);
  }

  /** The gross charged is the least that covers the base, except for bases from 236451 to 246249. */
  lemma GrossIsLeastOutsideTheDip(base: nat)
    ensures IsLeast(base, Gross(base)) <==> base <= 236450 || base > 246249
  {
    hide Gross, Covers;
    if base <= 236250 || base > 246249 {
      LeastOutsideTheDip(base);
    } else if base <= 236450 {
      LeastBelowTheJump(base);
    } else {
      NotLeastAboveTheJump(base);
    }
  }

  /** From a base of 12466602 on the fee is at its cap: the customer pays 200000 more than the base, and never more. */
  lemma GrossAtTheCap(base: nat)
    ensures Gross(base) <= base + 200000
    ensures Gross(base) == base + 200000 <==> base >= 12466602
  {
    var gross := Gross(base);
    GrossIsExact(base);
    CapIsReached(gross);
    if base == 12466601 {
      LeastOutsideTheDip(base);
      assert Covers(PaystackFee, base, 12666600);
    }
    hide Gross, PaystackFee;
  }

  lemma CapIsReached(gross: nat)
    ensures PaystackFee(gross) <= 200000
    ensures PaystackFee(gross) == 200000 <==> gross >= 12666601
    ensures gross <= 12666600 ==> Net(PaystackFee, gross) <= Net(PaystackFee, 12666600) == 12466601
  {
  }
}
