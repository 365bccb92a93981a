/** Money in whole hundredths of the currency unit, percentages in hundredths of a percent. */
module Money {
  import opened Sums

  /** A whole: one hundred percent in hundredths of a percent. */
  const WHOLE: nat := 10000

  /** A cancellation fee: a percentage from 0 to 100. */
  type Fee = n: nat | n <= WHOLE

  /** An amount in ten-thousandths of a hundredth, rounded to the nearest hundredth, halves upward. */
  function HalfUp(n: nat): (r: nat)
    ensures -5000 <= n - 10000 * r < 5000
  {
    (2 * n + WHOLE) / (2 * WHOLE)
  }

  /** The refund of one payment: what is still refundable less the cancellation fee. */
  function RefundDue(refundable: nat, fee: Fee): nat
  {
    HalfUp(refundable * (WHOLE - fee))
  }

  lemma RefundWithinPayment(refundable: nat, fee: Fee)
    ensures 0 <= RefundDue(refundable, fee) <= refundable
    ensures fee == 0 ==> RefundDue(refundable, fee) == refundable
    ensures fee == WHOLE ==> RefundDue(refundable, fee) == 0
  {
    assert 0 <= refundable * (WHOLE - fee) <= refundable * WHOLE;
  }

  lemma RefundFallsWithFee(refundable: nat, fee: Fee, higher: Fee)
    requires fee <= higher
    ensures RefundDue(refundable, higher) <= RefundDue(refundable, fee)
  {
    assert refundable * (WHOLE - higher) <= refundable * (WHOLE - fee);
  }

  function KeptAt(amounts: seq<nat>, fee: Fee): nat -> int
  {
    (i: nat) => if i < |amounts| then amounts[i] - RefundDue(amounts[i], fee) else 0
  }

  function AmountAt(amounts: seq<nat>): nat -> int {
    (i: nat) => if i < |amounts| then amounts[i] else 0
  }

  /** Whatever the payments, the fee kept differs from the exact percentage by at most half a
      cent per payment. */
  lemma {:induction false} KeptNearExactFee(amounts: seq<nat>, fee: Fee, n: nat)
    requires n <= |amounts|
    ensures -5000 * n <= WHOLE * Total(n, KeptAt(amounts, fee)) - fee * Total(n, AmountAt(amounts)) <= 5000 * n
  {
    if n > 0 {
      KeptNearExactFee(amounts, fee, n - 1);
      FeeOfOne(amounts[n - 1], fee);
      Distribute(fee, Total(n - 1, AmountAt(amounts)), amounts[n - 1]);
    }
  }

  lemma FeeOfOne(a: nat, fee: Fee)
    ensures -5000 <= WHOLE * (a - RefundDue(a, fee)) - fee * a <= 5000
  {
    assert a * (WHOLE - fee) == WHOLE * a - fee * a;
  }

  lemma Distribute(x: int, y: int, z: int)
    ensures x * (y + z) == x * y + x * z
  {}

  /** How an agent is paid: a percentage of each fare, or a fixed amount per ticket. */
  datatype Rate = Percent(share: nat) | Fixed(amount: nat)

  function CommissionDue(rate: Rate, fare: nat): nat {
    match rate
    case Percent(share) => HalfUp(fare * share)
    case Fixed(amount) => amount
  }

  function CommissionAt(rate: Rate, fares: seq<nat>): nat -> int {
    (i: nat) => if i < |fares| then CommissionDue(rate, fares[i]) else 0
  }

  /** The commissions of n tickets differ from the percentage of their total fare by at most
      half a cent per ticket. */
  lemma {:induction false} CommissionsNearExactShare(share: nat, fares: seq<nat>, n: nat)
    requires n <= |fares|
    ensures -5000 * n <= WHOLE * Total(n, CommissionAt(Percent(share), fares)) - share * Total(n, AmountAt(fares)) <= 5000 * n
  {
    if n > 0 {
      CommissionsNearExactShare(share, fares, n - 1);
      assert fares[n - 1] * share == share * fares[n - 1];
      Distribute(share, Total(n - 1, AmountAt(fares)), fares[n - 1]);
    }
  }
}
