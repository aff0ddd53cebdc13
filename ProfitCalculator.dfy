// components/ProfitCalculator.tsx: the input check of `handleCalculate`,
// the result formulas with the simulated current price, and the up/down
// indicator of the profit and the return.

module ProfitCalculator {
  import opened Common

  const MissingInputError: string := "매입 단가와 매입 수량을 모두 입력해주세요."

  /** The four figures of a calculation. */
  datatype ProfitResult = ProfitResult(currentPrice: real, totalValue: real, profit: real, returnRate: real)

  /** `!buyPrice || !quantity`: an empty (null) or zero input is missing. */
  predicate Missing(x: Option<real>)
  {
    x.None? || x.value == 0.0
  }

  /** `buyPrice * (1 + (Math.random() - 0.5) * 0.2)`: the simulated current
      price for a draw `random` in [0, 1). */
  function MockCurrentPrice(buyPrice: real, random: real): (r: real)
    requires 0.0 <= random < 1.0
    ensures buyPrice > 0.0 ==> 0.9 * buyPrice <= r < 1.1 * buyPrice
  {
    buyPrice * (1.0 + (random - 0.5) * 0.2)
  }

  /** The result of a calculation from a buy price, a quantity and a
      current price. */
  function Compute(buyPrice: real, quantity: real, current: real): (r: ProfitResult)
    requires buyPrice != 0.0
    ensures r.currentPrice == current
    ensures r.totalValue == current * quantity
    ensures r.profit == r.totalValue - buyPrice * quantity
    ensures r.returnRate * buyPrice == (current - buyPrice) * 100.0
  {
    ProfitResult(current, current * quantity, (current - buyPrice) * quantity,
                 ((current - buyPrice) / buyPrice) * 100.0)
  }

  /** For a positive buy price and quantity the return has the sign of the
      profit: both are positive, both negative, or both zero. */
  lemma {:induction false} ReturnSignMatchesProfit(buyPrice: real, quantity: real, current: real)
    requires buyPrice > 0.0 && quantity > 0.0
    ensures var r := Compute(buyPrice, quantity, current);
      (r.returnRate > 0.0 <==> r.profit > 0.0) && (r.returnRate < 0.0 <==> r.profit < 0.0)
      && (r.returnRate == 0.0 <==> r.profit == 0.0)
  {
    var r := Compute(buyPrice, quantity, current);
    var d := current - buyPrice;
    assert r.profit == d * quantity;
    assert r.returnRate == (d / buyPrice) * 100.0;
    if d > 0.0 {
      assert d * quantity > 0.0;
      assert d / buyPrice > 0.0;
    } else if d < 0.0 {
      assert d * quantity < 0.0;
      assert d / buyPrice < 0.0;
    }
  }

  /** How a figure is shown: 🔺 for a non-negative value, 🔻 otherwise,
      with the magnitude. */
  datatype Indicator = Indicator(arrow: string, colorClass: string, magnitude: real)

  function IndicatorOf(x: real): (r: Indicator)
    ensures r.arrow == "🔺" <==> x >= 0.0
    ensures r.arrow == "🔻" <==> x < 0.0
    ensures r.colorClass == (if x >= 0.0 then "text-red-600" else "text-blue-600")
    ensures r.magnitude >= 0.0 && (r.magnitude == x || r.magnitude == -x)
  {
    if x >= 0.0 then Indicator("🔺", "text-red-600", x) else Indicator("🔻", "text-blue-600", -x)
  }

  class Calculator {
    var buyPrice: Option<real>
    var quantity: Option<real>
    var result: Option<ProfitResult>
    var error: Option<string>
    var loading: bool

    constructor()
      ensures buyPrice == None && quantity == None && result == None && error == None && !loading
    {
      buyPrice := None;
      quantity := None;
      result := None;
      error := None;
      loading := false;
    }

    /** `handleCalculate` with the draw of `Math.random()`. A missing input
        sets the error and changes nothing else, the previous result
        included; otherwise the error is cleared and the result computed
        from the simulated price, and loading ends false. */
    method HandleCalculate(random: real)
      requires 0.0 <= random < 1.0
      modifies this`result, this`error, this`loading
      ensures Missing(buyPrice) || Missing(quantity) ==>
        error == Some(MissingInputError) && result == old(result) && loading == old(loading)
      ensures !Missing(buyPrice) && !Missing(quantity) ==>
        error == None && !loading
        && result == Some(Compute(buyPrice.value, quantity.value, MockCurrentPrice(buyPrice.value, random)))
    {
      if Missing(buyPrice) || Missing(quantity) {
        error := Some(MissingInputError);
        return;
      }
      error := None;
      loading := true;
      var buy := buyPrice.value;
      var qty := quantity.value;
      var current := MockCurrentPrice(buy, random);
      result := Some(Compute(buy, qty, current));
      loading := false;
    }
  }
}
