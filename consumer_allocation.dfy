/** Summarising a loaded portfolio: weights by asset class, the five largest positions
    and the Herfindahl index over position weights. */
module ConsumerAllocation {
  import opened ConsumerPortfolio

  /** How many positions the summary keeps (`head(5)`). */
  const TopCount: nat := 5

  ghost predicate NoDuplicates(cs: seq<string>) {
    forall i, j :: 0 <= i < j < |cs| ==> cs[i] != cs[j]
  }

  /** The distinct asset classes present, in order of first appearance. */
  function Classes(ps: seq<Position>): (cs: seq<string>)
    ensures NoDuplicates(cs)
    ensures forall c :: c in cs <==> exists i :: 0 <= i < |ps| && ps[i].assetClass == c
  {
    if ps == [] then []
    else
      var cs := Classes(ps[..|ps| - 1]);
      var c := ps[|ps| - 1].assetClass;
      if c in cs then cs else cs + [c]
  }

  /** Sum of the values of the rows of one asset class: one group of the groupby. */
  function ClassValue(ps: seq<Position>, c: string): real {
    if ps == [] then 0.0
    else ClassValue(ps[..|ps| - 1], c) + (if ps[|ps| - 1].assetClass == c then ps[|ps| - 1].value else 0.0)
  }

  /** Sum of the weights of the rows of one asset class. */
  function ClassWeightSum(ps: seq<Position>, c: string): real {
    if ps == [] then 0.0
    else ClassWeightSum(ps[..|ps| - 1], c) + (if ps[|ps| - 1].assetClass == c then ps[|ps| - 1].weight else 0.0)
  }

  /** Sum of the grouped values over the classes `cs` (the allocation series' sum). */
  function AllocationSum(cs: seq<string>, ps: seq<Position>): real {
    if cs == [] then 0.0 else AllocationSum(cs[..|cs| - 1], ps) + ClassValue(ps, cs[|cs| - 1])
  }

  /** Sum of the entries of `m` at the keys `cs`. */
  function MapSum(cs: seq<string>, m: map<string, real>): real
    requires forall c :: c in cs ==> c in m
  {
    if cs == [] then 0.0 else MapSum(cs[..|cs| - 1], m) + m[cs[|cs| - 1]]
  }

  function Occurrences(cs: seq<string>, x: string): nat {
    if cs == [] then 0 else Occurrences(cs[..|cs| - 1], x) + (if cs[|cs| - 1] == x then 1 else 0)
  }

  lemma {:induction false} OccursOnce(cs: seq<string>, x: string)
    requires NoDuplicates(cs) && x in cs
    ensures Occurrences(cs, x) == 1
  {
    var init := cs[..|cs| - 1];
    if cs[|cs| - 1] == x {
      NotOccurring(init, x);
    } else {
      assert x in init;
      OccursOnce(init, x);
    }
  }

  lemma {:induction false} NotOccurring(cs: seq<string>, x: string)
    requires x !in cs
    ensures Occurrences(cs, x) == 0
  {
    if cs != [] {
      NotOccurring(cs[..|cs| - 1], x);
    }
  }

  /** Adding one row to the frame adds its value once per occurrence of its class in `cs`. */
  lemma {:induction false} AllocationSumSnoc(cs: seq<string>, ps: seq<Position>)
    requires ps != []
    ensures AllocationSum(cs, ps) ==
      AllocationSum(cs, ps[..|ps| - 1]) + Occurrences(cs, ps[|ps| - 1].assetClass) as real * ps[|ps| - 1].value
  {
    if cs != [] {
      AllocationSumSnoc(cs[..|cs| - 1], ps);
    }
  }

  /** Summing the groups over classes that cover every row, each once, gives the total. */
  lemma {:induction false} AllocationSumCovers(cs: seq<string>, ps: seq<Position>)
    requires NoDuplicates(cs)
    requires forall i :: 0 <= i < |ps| ==> ps[i].assetClass in cs
    ensures AllocationSum(cs, ps) == TotalValue(ps)
  {
    if ps == [] {
      AllocationSumOfNothing(cs);
    } else {
      AllocationSumCovers(cs, ps[..|ps| - 1]);
      AllocationSumSnoc(cs, ps);
      OccursOnce(cs, ps[|ps| - 1].assetClass);
    }
  }

  lemma {:induction false} AllocationSumOfNothing(cs: seq<string>)
    ensures AllocationSum(cs, []) == 0.0
  {
    if cs != [] {
      AllocationSumOfNothing(cs[..|cs| - 1]);
    }
  }

  /** The allocation series sums to the portfolio's total value. */
  lemma AllocationTotalIsTotalValue(ps: seq<Position>)
    ensures AllocationSum(Classes(ps), ps) == TotalValue(ps)
  {
    var cs := Classes(ps);
    forall i | 0 <= i < |ps| ensures ps[i].assetClass in cs {
    }
    AllocationSumCovers(cs, ps);
  }

  /** Weights by asset class (`summarize_allocation`, "weights"): the grouped values
      normalised by the sum of the grouped values. */
  function ClassWeights(ps: seq<Position>): (w: map<string, real>)
    requires TotalValue(ps) != 0.0
    ensures w.Keys == set i | 0 <= i < |ps| :: ps[i].assetClass
    ensures forall c :: c in w ==> w[c] == ClassValue(ps, c) / TotalValue(ps)
  {
    var cs := Classes(ps);
    AllocationTotalIsTotalValue(ps);
    var allocationSum := AllocationSum(cs, ps);
    map c | c in cs :: ClassValue(ps, c) / allocationSum
  }

  lemma {:induction false} ClassWeightSumIsShare(ps: seq<Position>, total: real, c: string)
    requires WeightedBy(ps, total)
    ensures ClassWeightSum(ps, c) == ClassValue(ps, c) / total
  {
    if ps != [] {
      ClassWeightSumIsShare(ps[..|ps| - 1], total, c);
    }
  }

  /** Each class weight is also the sum of the weights of that class's positions. */
  lemma ClassWeightIsPositionWeightSum(ps: seq<Position>, c: string)
    requires Loaded(ps)
    requires c in ClassWeights(ps)
    ensures ClassWeights(ps)[c] == ClassWeightSum(ps, c)
  {
    ClassWeightSumIsShare(ps, TotalValue(ps), c);
  }

  lemma {:induction false} SharesSum(cs: seq<string>, ps: seq<Position>, m: map<string, real>, total: real)
    requires total != 0.0
    requires forall c :: c in cs ==> c in m && m[c] == ClassValue(ps, c) / total
    ensures MapSum(cs, m) == AllocationSum(cs, ps) / total
  {
    if cs != [] {
      var init, c := cs[..|cs| - 1], cs[|cs| - 1];
      assert forall d :: d in init ==> d in cs;
      SharesSum(init, ps, m, total);
      SumOfShares(AllocationSum(init, ps), ClassValue(ps, c), total);
    }
  }

  lemma SumOfShares(a: real, b: real, t: real)
    requires t != 0.0
    ensures a / t + b / t == (a + b) / t
  {
  }

  /** The class weights sum to one. */
  lemma ClassWeightsSumToOne(ps: seq<Position>)
    requires TotalValue(ps) != 0.0
    ensures MapSum(Classes(ps), ClassWeights(ps)) == 1.0
  {
    var cs, total := Classes(ps), TotalValue(ps);
    SharesSum(cs, ps, ClassWeights(ps), total);
    AllocationTotalIsTotalValue(ps);
    SelfShare(total);
  }

  // ---- top positions ------------------------------------------------------------

  ghost predicate NonIncreasing(s: seq<Position>) {
    forall i, j :: 0 <= i < j < |s| ==> s[i].value >= s[j].value
  }

  /** Inserts `p` into a value-ordered sequence ahead of every entry of equal value. */
  function InsertByValue(p: Position, s: seq<Position>): (r: seq<Position>)
    requires NonIncreasing(s)
    ensures |r| == |s| + 1
    ensures r[0] == p || (s != [] && r[0] == s[0])
    ensures NonIncreasing(r)
    ensures multiset(r) == multiset(s) + multiset{p}
  {
    if s == [] || s[0].value <= p.value then
      ConsNonIncreasing(p, s);
      [p] + s
    else
      assert s == [s[0]] + s[1..];
      var rest := InsertByValue(p, s[1..]);
      assert rest[0].value <= s[0].value;
      ConsNonIncreasing(s[0], rest);
      assert multiset([s[0]] + rest) == multiset{s[0]} + multiset(rest);
      assert multiset(s) == multiset{s[0]} + multiset(s[1..]);
      [s[0]] + rest
  }

  /** Putting an entry no smaller than the head in front keeps the order. */
  lemma ConsNonIncreasing(x: Position, t: seq<Position>)
    requires NonIncreasing(t) && (t == [] || t[0].value <= x.value)
    ensures NonIncreasing([x] + t)
  {
    var r := [x] + t;
    forall i, j | 0 <= i < j < |r| ensures r[i].value >= r[j].value {
      if i > 0 {
        assert r[i] == t[i - 1] && r[j] == t[j - 1];
      } else {
        assert r[j] == t[j - 1];
      }
    }
  }

  /** `sort_values("value", ascending=False)`: sorted by value, largest first; rows of equal
      value keep their frame order. */
  function SortByValue(ps: seq<Position>): (s: seq<Position>)
    ensures |s| == |ps|
    ensures NonIncreasing(s)
    ensures multiset(s) == multiset(ps)
  {
    if ps == [] then []
    else
      assert ps == [ps[0]] + ps[1..];
      InsertByValue(ps[0], SortByValue(ps[1..]))
  }

  /** The five largest positions (`head(5)` of the sorted frame). */
  function TopPositions(ps: seq<Position>): (top: seq<Position>)
    ensures |top| == if |ps| < TopCount then |ps| else TopCount
    ensures NonIncreasing(top)
    ensures multiset(top) <= multiset(ps)
    ensures |ps| > 0 ==> forall p :: p in multiset(ps) - multiset(top) ==> p.value <= top[|top| - 1].value
  {
    var sorted := SortByValue(ps);
    var k := if |ps| < TopCount then |ps| else TopCount;
    CutSorted(sorted, k);
    sorted[..k]
  }

  /** Cutting a value-ordered sequence: the head keeps the order, and every entry cut off
      is no larger than the last entry kept. */
  lemma CutSorted(sorted: seq<Position>, k: nat)
    requires NonIncreasing(sorted) && k <= |sorted|
    ensures NonIncreasing(sorted[..k])
    ensures multiset(sorted[..k]) <= multiset(sorted)
    ensures multiset(sorted) - multiset(sorted[..k]) == multiset(sorted[k..])
    ensures k > 0 ==> forall p :: p in multiset(sorted[k..]) ==> p.value <= sorted[k - 1].value
  {
    assert sorted == sorted[..k] + sorted[k..];
    assert multiset(sorted) == multiset(sorted[..k]) + multiset(sorted[k..]);
    if k > 0 {
      forall p | p in multiset(sorted[k..]) ensures p.value <= sorted[k - 1].value {
        var j :| 0 <= j < |sorted[k..]| && sorted[k..][j] == p;
        assert sorted[k + j] == p;
      }
    }
  }

  // ---- Herfindahl index ---------------------------------------------------------

  /** Sum of the squared position weights (`herfindahl_index`); never negative. */
  function Herfindahl(ps: seq<Position>): (h: real)
    ensures h >= 0.0
  {
    if ps == [] then 0.0
    else
      var w := ps[|ps| - 1].weight;
      Square(w);
      Herfindahl(ps[..|ps| - 1]) + w * w
  }

  lemma Square(a: real)
    ensures a * a >= 0.0
  {
    if a < 0.0 {
      assert a * a == (-a) * (-a);
    }
  }

  lemma PositiveFactor(k: real, y: real)
    requires k > 0.0 && k * y >= 0.0
    ensures y >= 0.0
  {
  }

  /** Cauchy-Schwarz for the weight column: n * sum(w^2) >= (sum w)^2. */
  lemma {:induction false} SquaresDominateMean(ps: seq<Position>)
    ensures |ps| as real * Herfindahl(ps) >= WeightSum(ps) * WeightSum(ps)
  {
    if ps != [] {
      var init := ps[..|ps| - 1];
      SquaresDominateMean(init);
      CauchyStep(|init| as real, Herfindahl(init), WeightSum(init), ps[|ps| - 1].weight);
    }
  }

  /** One step of the Cauchy-Schwarz induction, on plain numbers: if k * q >= s^2 for the
      first k weights (q their sum of squares, s their sum), adding a weight x keeps it. */
  lemma CauchyStep(k: real, q: real, s: real, x: real)
    requires k >= 0.0 && k * q >= s * s
    requires k == 0.0 ==> s == 0.0 && q == 0.0
    ensures (k + 1.0) * (q + x * x) >= (s + x) * (s + x)
  {
    if k > 0.0 {
      Square(s - k * x);
      assert k * (q + k * x * x - 2.0 * s * x) == k * q + (k * x) * (k * x) - 2.0 * k * s * x;
      assert k * (q + k * x * x - 2.0 * s * x) >= 0.0;
      PositiveFactor(k, q + k * x * x - 2.0 * s * x);
      assert (k + 1.0) * (q + x * x) - (s + x) * (s + x) == (k * q - s * s) + (q + k * x * x - 2.0 * s * x);
    }
  }

  /** With non-negative weights the sum of squares is at most the squared sum. */
  lemma {:induction false} SquaresBelowSquaredSum(ps: seq<Position>)
    requires forall i :: 0 <= i < |ps| ==> ps[i].weight >= 0.0
    ensures 0.0 <= Herfindahl(ps) <= WeightSum(ps) * WeightSum(ps)
  {
    if ps != [] {
      var init := ps[..|ps| - 1];
      SquaresBelowSquaredSum(init);
      NonNegativeWeightSum(init);
      var s, x := WeightSum(init), ps[|ps| - 1].weight;
      assert s * x >= 0.0;
      assert (s + x) * (s + x) == s * s + 2.0 * s * x + x * x;
    }
  }

  lemma {:induction false} NonNegativeWeightSum(ps: seq<Position>)
    requires forall i :: 0 <= i < |ps| ==> ps[i].weight >= 0.0
    ensures WeightSum(ps) >= 0.0
  {
    if ps != [] {
      NonNegativeWeightSum(ps[..|ps| - 1]);
    }
  }

  /** For a loaded portfolio with non-negative values and a positive total, the
      Herfindahl index lies between 1/n (equal weights) and 1 (one position). */
  lemma HerfindahlBounds(ps: seq<Position>)
    requires Loaded(ps) && TotalValue(ps) > 0.0
    requires forall i :: 0 <= i < |ps| ==> ps[i].value >= 0.0
    ensures |ps| > 0
    ensures 1.0 / |ps| as real <= Herfindahl(ps) <= 1.0
  {
    WeightsSumToOne(ps);
    WeightsAreFractions(ps);
    HerfindahlOfWeights(ps);
  }

  /** The same bounds for any non-negative weights that sum to one. */
  lemma HerfindahlOfWeights(ps: seq<Position>)
    requires WeightSum(ps) == 1.0
    requires forall i :: 0 <= i < |ps| ==> ps[i].weight >= 0.0
    ensures |ps| > 0
    ensures 1.0 / |ps| as real <= Herfindahl(ps) <= 1.0
  {
    assert ps != [];
    SquaresDominateMean(ps);
    SquaresBelowSquaredSum(ps);
    HerfindahlRange(|ps| as real, Herfindahl(ps), WeightSum(ps));
  }

  /** The bounds on plain numbers: n * h >= w^2 and h <= w^2 with w = 1 place h in [1/n, 1]. */
  lemma HerfindahlRange(n: real, h: real, w: real)
    requires n > 0.0 && w == 1.0
    requires n * h >= w * w && h <= w * w
    ensures 1.0 / n <= h <= 1.0
  {
    assert h == (n * h) / n;
  }

  // ---- the summary --------------------------------------------------------------

  /** What `summarize_allocation` returns. */
  datatype AllocationSummary = AllocationSummary(
    weights: map<string, real>, topPositions: seq<Position>, herfindahlIndex: real)

  /** `ConsumerAnalyticsAgent.summarize_allocation`: class weights, the five largest
      positions and the Herfindahl index. The class weights divide by the total value, so a
      zero total is excluded. */
  function SummarizeAllocation(ps: seq<Position>): (r: AllocationSummary)
    requires TotalValue(ps) != 0.0
    ensures r.weights.Keys == set i | 0 <= i < |ps| :: ps[i].assetClass
    ensures forall c :: c in r.weights ==> r.weights[c] == ClassValue(ps, c) / TotalValue(ps)
    ensures |r.topPositions| == if |ps| < TopCount then |ps| else TopCount
    ensures NonIncreasing(r.topPositions) && multiset(r.topPositions) <= multiset(ps)
    ensures r.herfindahlIndex >= 0.0
  {
    AllocationSummary(ClassWeights(ps), TopPositions(ps), Herfindahl(ps))
  }

  /** For a loaded portfolio with non-negative values and a positive total: the class
      weights cover exactly the classes held and sum to one, at most five positions are
      kept, and the index lies between 1/n and 1. */
  lemma SummaryOfLoadedPortfolio(ps: seq<Position>)
    requires Loaded(ps) && TotalValue(ps) > 0.0
    requires forall i :: 0 <= i < |ps| ==> ps[i].value >= 0.0
    ensures SummarizeAllocation(ps).weights.Keys == set i | 0 <= i < |ps| :: ps[i].assetClass
    ensures MapSum(Classes(ps), SummarizeAllocation(ps).weights) == 1.0
    ensures |SummarizeAllocation(ps).topPositions| == if |ps| < TopCount then |ps| else TopCount
    ensures 1.0 / |ps| as real <= SummarizeAllocation(ps).herfindahlIndex <= 1.0
  {
    ClassWeightsSumToOne(ps);
    HerfindahlBounds(ps);
  }
}
