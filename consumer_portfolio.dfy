/** Loading a consumer portfolio: every holding is priced (value = quantity x price)
    and weighted by the portfolio's total value. */
module ConsumerPortfolio {
  import opened Wrappers

  /** One holding as the blueprint lists it under portfolio.holdings. */
  datatype Holding = Holding(symbol: string, assetClass: string, quantity: real, price: real)

  /** A holding after loading: the frame row gains its value and weight columns. */
  datatype Position = Position(
    symbol: string, assetClass: string, quantity: real, price: real,
    value: real, weight: real)

  /** What the loader hands on: the priced rows, their total and the opaque investor profile. */
  datatype PortfolioState = PortfolioState(
    positions: seq<Position>, totalValue: real, profile: map<string, string>)

  function MarketValue(h: Holding): real {
    h.quantity * h.price
  }

  /** Sum of the market values of the holdings. */
  function HoldingsValue(hs: seq<Holding>): real {
    if hs == [] then 0.0 else HoldingsValue(hs[..|hs| - 1]) + MarketValue(hs[|hs| - 1])
  }

  /** Sum of the value column. */
  function TotalValue(ps: seq<Position>): real {
    if ps == [] then 0.0 else TotalValue(ps[..|ps| - 1]) + ps[|ps| - 1].value
  }

  /** Sum of the weight column. */
  function WeightSum(ps: seq<Position>): real {
    if ps == [] then 0.0 else WeightSum(ps[..|ps| - 1]) + ps[|ps| - 1].weight
  }

  /** Every row's weight is its value over `total`. */
  ghost predicate WeightedBy(ps: seq<Position>, total: real) {
    total != 0.0 && forall i :: 0 <= i < |ps| ==> ps[i].weight == ps[i].value / total
  }

  /** The rows as the loader leaves them: weights relative to their own total value. */
  ghost predicate Loaded(ps: seq<Position>) {
    WeightedBy(ps, TotalValue(ps))
  }

  function Priced(h: Holding, total: real): Position
    requires total != 0.0
  {
    Position(h.symbol, h.assetClass, h.quantity, h.price, MarketValue(h), MarketValue(h) / total)
  }

  /** The value and weight columns of the whole frame, weights relative to `total`. */
  function PriceAll(hs: seq<Holding>, total: real): (ps: seq<Position>)
    requires total != 0.0
    ensures |ps| == |hs|
    ensures forall i :: 0 <= i < |hs| ==> ps[i] == Priced(hs[i], total)
  {
    if hs == [] then [] else PriceAll(hs[..|hs| - 1], total) + [Priced(hs[|hs| - 1], total)]
  }

  lemma {:induction false} PricedTotal(hs: seq<Holding>, total: real)
    requires total != 0.0
    ensures TotalValue(PriceAll(hs, total)) == HoldingsValue(hs)
    ensures WeightSum(PriceAll(hs, total)) == HoldingsValue(hs) / total
  {
    if hs != [] {
      var init := hs[..|hs| - 1];
      PricedTotal(init, total);
      var ps := PriceAll(hs, total);
      var last := hs[|hs| - 1];
      assert ps[..|ps| - 1] == PriceAll(init, total);
      assert ps[|ps| - 1] == Priced(last, total);
      assert TotalValue(ps) == TotalValue(PriceAll(init, total)) + MarketValue(last);
      assert WeightSum(ps) == WeightSum(PriceAll(init, total)) + MarketValue(last) / total;
      assert HoldingsValue(hs) == HoldingsValue(init) + MarketValue(last);
      AddQuotients(HoldingsValue(init), MarketValue(last), total);
    }
  }

  lemma AddQuotients(a: real, b: real, d: real)
    requires d != 0.0
    ensures a / d + b / d == (a + b) / d
  {
  }

  /** `ConsumerDataAgent.load_portfolio`: the blueprint's holdings priced and weighted.
      An empty list of holdings has no columns and fails before any division; a non-empty
      list whose values sum to zero reaches the unguarded division and yields NaN or
      infinite weights. Both are excluded by requiring a non-zero total. The profile
      defaults to an empty mapping. */
  function LoadPortfolio(hs: seq<Holding>, profile: Option<map<string, string>>): (st: PortfolioState)
    requires HoldingsValue(hs) != 0.0
    ensures |st.positions| == |hs| && |hs| > 0
    ensures forall i :: 0 <= i < |hs| ==> PricedFrom(st.positions[i], hs[i], HoldingsValue(hs))
    ensures st.totalValue == TotalValue(st.positions) == HoldingsValue(hs)
    ensures Loaded(st.positions)
    ensures st.profile == profile.GetOr(map[])
  {
    var total := HoldingsValue(hs);
    var ps := PriceAll(hs, total);
    LoadedRows(hs, total);
    PortfolioState(ps, total, profile.GetOr(map[]))
  }

  /** A row keeps its holding's columns, its value is quantity x price and its weight is
      that value over `total`. */
  ghost predicate PricedFrom(p: Position, h: Holding, total: real) {
    total != 0.0 && p.symbol == h.symbol && p.assetClass == h.assetClass &&
    p.quantity == h.quantity && p.price == h.price &&
    p.value == h.quantity * h.price && p.weight == p.value / total
  }

  lemma LoadedRows(hs: seq<Holding>, total: real)
    requires total == HoldingsValue(hs) && total != 0.0
    ensures |hs| > 0
    ensures forall i :: 0 <= i < |hs| ==> PricedFrom(PriceAll(hs, total)[i], hs[i], total)
    ensures TotalValue(PriceAll(hs, total)) == total
    ensures Loaded(PriceAll(hs, total))
  {
    var ps := PriceAll(hs, total);
    PricedTotal(hs, total);
    assert WeightedBy(ps, total);
  }

  /** The weights of a loaded portfolio sum to one. */
  lemma {:induction false} LoadedWeightsSumToOne(hs: seq<Holding>, profile: Option<map<string, string>>)
    requires HoldingsValue(hs) != 0.0
    ensures WeightSum(LoadPortfolio(hs, profile).positions) == 1.0
  {
    WeightsSumToOne(LoadPortfolio(hs, profile).positions);
  }

  /** Any rows weighted by some total have weights summing to their value over that total. */
  lemma {:induction false} WeightSumIsValueShare(ps: seq<Position>, total: real)
    requires WeightedBy(ps, total)
    ensures WeightSum(ps) == TotalValue(ps) / total
  {
    if ps != [] {
      WeightSumIsValueShare(ps[..|ps| - 1], total);
    }
  }

  /** Rows weighted by their own total have weights summing to one. */
  lemma WeightsSumToOne(ps: seq<Position>)
    requires Loaded(ps)
    ensures WeightSum(ps) == 1.0
  {
    WeightSumIsValueShare(ps, TotalValue(ps));
    SelfShare(TotalValue(ps));
  }

  lemma SelfShare(t: real)
    requires t != 0.0
    ensures t / t == 1.0
  {
  }

  lemma Fraction(v: real, t: real)
    requires 0.0 <= v <= t && t > 0.0
    ensures 0.0 <= v / t <= 1.0
  {
    assert v / t * t == v;
  }

  /** With non-negative values and a positive total, every weight lies in [0, 1]. */
  lemma {:induction false} WeightsAreFractions(ps: seq<Position>)
    requires Loaded(ps) && TotalValue(ps) > 0.0
    requires forall i :: 0 <= i < |ps| ==> ps[i].value >= 0.0
    ensures forall i :: 0 <= i < |ps| ==> 0.0 <= ps[i].weight <= 1.0
  {
    forall i | 0 <= i < |ps| ensures 0.0 <= ps[i].weight <= 1.0 {
      ValueBelowTotal(ps, i);
      Fraction(ps[i].value, TotalValue(ps));
    }
  }

  lemma {:induction false} ValueBelowTotal(ps: seq<Position>, i: nat)
    requires i < |ps|
    requires forall j :: 0 <= j < |ps| ==> ps[j].value >= 0.0
    ensures 0.0 <= ps[i].value <= TotalValue(ps)
  {
    var init := ps[..|ps| - 1];
    NonNegativeTotal(init);
    if i < |ps| - 1 {
      ValueBelowTotal(init, i);
    }
  }

  lemma {:induction false} NonNegativeTotal(ps: seq<Position>)
    requires forall j :: 0 <= j < |ps| ==> ps[j].value >= 0.0
    ensures TotalValue(ps) >= 0.0
  {
    if ps != [] {
      NonNegativeTotal(ps[..|ps| - 1]);
    }
  }
}
