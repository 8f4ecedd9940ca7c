/** Fees and slippage (app/utils/fees.py). */
module Fees {
  import opened Common

  function BpsToFraction(bps: real): real {
    bps / 10000.0
  }

  function Notional(price: real, quantity: real): real {
    price * quantity
  }

  function CalculateFee(notional: real, feeBps: real): real {
    Max(notional * BpsToFraction(feeBps), 0.0)
  }

  function ApplySlippage(price: real, side: OrderSide, slippageBps: real): real {
    var fraction := BpsToFraction(slippageBps);
    if side == Buy then price * (1.0 + fraction) else price * (1.0 - fraction)
  }

  /** A fee on a fill taken in two pieces at one price is the fee on the whole fill. */
  lemma FeeIsAdditive(a: real, b: real, feeBps: real)
    requires a >= 0.0 && b >= 0.0
    ensures CalculateFee(a + b, feeBps) == CalculateFee(a, feeBps) + CalculateFee(b, feeBps)
  {
    var f := BpsToFraction(feeBps);
    assert (a + b) * f == a * f + b * f;
    if f >= 0.0 {
      assert a * f >= 0.0 && b * f >= 0.0;
    } else {
      assert a * f <= 0.0 && b * f <= 0.0;
    }
  }

  /** Slippage moves a non-negative price by at most its fraction, and always against the taker. */
  lemma SlippageBounds(price: real, side: OrderSide, slippageBps: real)
    requires price >= 0.0 && slippageBps >= 0.0
    ensures var moved := ApplySlippage(price, side, slippageBps);
            && Abs(moved - price) == price * BpsToFraction(slippageBps)
            && (side == Buy ==> moved >= price)
            && (side == Sell ==> moved <= price)
  {
    var f := BpsToFraction(slippageBps);
    assert price * f >= 0.0;
    assert price * (1.0 + f) == price + price * f;
    assert price * (1.0 - f) == price - price * f;
  }
}
