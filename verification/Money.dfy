/** Amounts in stroops (1e-7 USDC), bounded like a signed 64-bit integer (packages/protocol/src/money.ts). */
module Money {

  const MAX_STROOPS: int := 9_223_372_036_854_775_807
  const SCALE: int := 10_000_000

  /** The range `stroops()` accepts; outside it a MoneyError is thrown. */
  predicate InRange(v: int) { -MAX_STROOPS <= v <= MAX_STROOPS }

  /** An amount that already passed `stroops()`. */
  type Stroops = v: int | -MAX_STROOPS <= v <= MAX_STROOPS witness 0

  /** A computation that may end in a MoneyError. */
  datatype Checked<+T> = Fine(value: T) | MoneyError

  /** BigInt division truncates towards zero; Dafny's is Euclidean. They differ only below zero. */
  function Quotient(a: int, b: int): int
    requires b > 0
  {
    if a >= 0 then a / b else -((-a) / b)
  }

  predicate ValidShare(bps: int) { 0 <= bps <= 10_000 }

  function PublisherShare(rate: int, bps: int): int { Quotient(rate * bps, 10_000) }

  /** `splitRevenue`: the platform takes the remainder, it is never computed on its own. */
  function SplitRevenue(rate: Stroops, bps: int): (r: Checked<(int, int)>)
    ensures r.MoneyError? <==> rate < 0 || !ValidShare(bps)
    ensures r.Fine? ==> 0 <= r.value.0 <= rate && 0 <= r.value.1 && r.value.0 + r.value.1 == rate
    ensures r.Fine? ==> r.value.0 * 10_000 <= rate * bps < (r.value.0 + 1) * 10_000
  {
    if rate < 0 || !ValidShare(bps) then MoneyError
    else
      ShareBounds(rate, bps);
      Fine((PublisherShare(rate, bps), rate - PublisherShare(rate, bps)))
  }

  lemma {:induction false} ShareBounds(rate: int, bps: int)
    requires 0 <= rate && ValidShare(bps)
    ensures 0 <= PublisherShare(rate, bps) <= rate
  {
    assert 0 <= rate * bps <= rate * 10_000;
  }

  /** `rateFromCpm`: the price of one impression out of a thousand, rounded down. */
  function RateFromCpm(bid: int): int
    requires 0 <= bid
  {
    bid / 1000
  }

}
