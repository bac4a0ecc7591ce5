/** Permutations given by an explicit index map. */
module Reindexing {

  /** Reading `s` through an injective index map gives the same multiset of entries. */
  lemma {:induction false} ReindexKeepsMultiset<T>(s: seq<T>, t: seq<T>, sigma: seq<int>)
    requires |s| == |t| == |sigma|
    requires forall k :: 0 <= k < |sigma| ==> 0 <= sigma[k] < |s| && t[k] == s[sigma[k]]
    requires forall a, b :: 0 <= a < b < |sigma| ==> sigma[a] != sigma[b]
    ensures multiset(t) == multiset(s)
    decreases |t|
  {
    if |t| > 0 {
      var j := sigma[0];
      DropIndexMaps(s, t, sigma);
      ReindexKeepsMultiset(Remove(s, j), t[1..], DropIndex(sigma, j));
      HeadAndRest(s, t, j);
    }
  }

  /** `s` without its entry at `j`. */
  function Remove<T>(s: seq<T>, j: int): (r: seq<T>)
    requires 0 <= j < |s|
    ensures |r| == |s| - 1
  {
    s[..j] + s[j + 1..]
  }

  /** Matching heads and matching rests give matching wholes. */
  lemma HeadAndRest<T>(s: seq<T>, t: seq<T>, j: int)
    requires 0 <= j < |s| && |t| > 0 && t[0] == s[j]
    requires multiset(t[1..]) == multiset(Remove(s, j))
    ensures multiset(t) == multiset(s)
  {
    SplitMultiset(t, 0);
    SplitMultiset(s, j);
    assert t[..0] + t[1..] == t[1..];
  }

  /** A sequence holds the entry at `j` plus the rest. */
  lemma SplitMultiset<T>(s: seq<T>, j: int)
    requires 0 <= j < |s|
    ensures multiset(s) == multiset(s[..j] + s[j + 1..]) + multiset{s[j]}
  {
    assert s == s[..j] + [s[j]] + s[j + 1..];
  }

  /** The index map of the rest of `t` into `s` with the entry `j` cut out. */
  function DropIndex(sigma: seq<int>, j: int): (r: seq<int>)
    requires |sigma| > 0
    ensures |r| == |sigma| - 1
  {
    seq(|sigma| - 1, k requires 0 <= k < |sigma| - 1 => if sigma[k + 1] < j then sigma[k + 1] else sigma[k + 1] - 1)
  }

  /** Cutting the first target and its source out keeps the map an injection. */
  lemma DropIndexMaps<T>(s: seq<T>, t: seq<T>, sigma: seq<int>)
    requires |s| == |t| == |sigma| > 0
    requires forall k :: 0 <= k < |sigma| ==> 0 <= sigma[k] < |s| && t[k] == s[sigma[k]]
    requires forall a, b :: 0 <= a < b < |sigma| ==> sigma[a] != sigma[b]
    ensures var j := sigma[0];
      var s' := Remove(s, j);
      var sigma' := DropIndex(sigma, j);
      && (forall k :: 0 <= k < |sigma'| ==> 0 <= sigma'[k] < |s'| && t[1..][k] == s'[sigma'[k]])
      && (forall a, b :: 0 <= a < b < |sigma'| ==> sigma'[a] != sigma'[b])
  {
    var j := sigma[0];
    var s' := Remove(s, j);
    var sigma' := DropIndex(sigma, j);
    forall k | 0 <= k < |sigma'|
      ensures 0 <= sigma'[k] < |s'| && t[1..][k] == s'[sigma'[k]]
    {
      assert sigma[k + 1] != sigma[0];
    }
    forall a, b | 0 <= a < b < |sigma'|
      ensures sigma'[a] != sigma'[b]
    {
      assert sigma[a + 1] != sigma[b + 1];
      assert sigma[a + 1] != j && sigma[b + 1] != j;
    }
  }
}

/** The concrete curve of the unit tests in src/agent.rs: the utility table
    `[20, 35, 47, 57, 62]` expanded with discount 0.4. */
module CurveFixture {
  import opened Goods
  import opened MarginalUtility
  import Reindexing

  const TestUtility: seq<int> := [20, 35, 47, 57, 62]

  /** `x` to the power `n`. */
  function Pow(x: nat, n: nat): (r: nat)
    ensures r >= 1 || x == 0
    decreases n
  {
    if n == 0 then 1 else x * Pow(x, n - 1)
  }

  /** `(v as f64 * 0.4^t).round()` in exact arithmetic: round half away from zero of
      `v * 2^t / 5^t`. */
  function DiscountTwoFifths(v: int, t: int): int
  {
    var n := Pow(2, if t < 0 then 0 else t);
    var d := Pow(5, if t < 0 then 0 else t);
    if v >= 0 then (2 * v * n + d) / (2 * d) else -((2 * -v * n + d) / (2 * d))
  }

  /** The entries the test table pushes, in push order. */
  const TestPushes: seq<Entry> :=
    [(15, 0), (6, 1), (2, 2), (1, 3), (0, 4),
     (12, 0), (5, 1), (2, 2), (1, 3), (0, 4),
     (10, 0), (4, 1), (2, 2), (1, 3), (0, 4),
     (5, 0), (2, 1), (1, 2), (0, 3), (0, 4)]

  /** The test curve after sorting. */
  const TestCurve: seq<Entry> :=
    [(15, 0), (12, 0), (10, 0), (6, 1), (5, 1), (5, 0), (4, 1), (2, 2), (2, 2), (2, 2),
     (2, 1), (1, 3), (1, 3), (1, 3), (1, 2), (0, 4), (0, 4), (0, 4), (0, 4), (0, 3)]

  lemma DiscountedTiers()
    ensures Block(15, DiscountTwoFifths) == TestPushes[..5]
    ensures Block(12, DiscountTwoFifths) == TestPushes[5..10]
    ensures Block(10, DiscountTwoFifths) == TestPushes[10..15]
    ensures Block(5, DiscountTwoFifths) == TestPushes[15..]
  {
    DiscountedBlock(15);
    DiscountedBlock(12);
    DiscountedBlock(10);
    DiscountedBlock(5);
  }

  /** The five pushes of a non-negative value `v` at discount 0.4, with the powers worked out. */
  lemma DiscountedBlock(v: int)
    requires v >= 0
    ensures Block(v, DiscountTwoFifths) ==
      [(v, 0), ((4 * v + 5) / 10, 1), ((8 * v + 25) / 50, 2), ((16 * v + 125) / 250, 3), ((32 * v + 625) / 1250, 4)]
  {
    assert Pow(2, 1) == 2 && Pow(2, 2) == 4 && Pow(2, 3) == 8 && Pow(2, 4) == 16;
    assert Pow(5, 1) == 5 && Pow(5, 2) == 25 && Pow(5, 3) == 125 && Pow(5, 4) == 625;
  }

  lemma TestPushesAreTheExpansion()
    ensures Expand(Marginals(TestUtility), DiscountTwoFifths) == TestPushes
  {
    var m := Marginals(TestUtility);
    assert m == [15, 12, 10, 5];
    DiscountedTiers();
    var f := DiscountTwoFifths;
    assert Expand(m[..1], f) == TestPushes[..5] by {
      assert m[..1][..0] == [];
    }
    assert Expand(m[..2], f) == TestPushes[..10] by {
      assert m[..2][..1] == m[..1];
    }
    assert Expand(m[..3], f) == TestPushes[..15] by {
      assert m[..3][..2] == m[..2];
    }
    assert m[..4] == m;
  }

  /** Where each entry of the sorted test curve sits among the pushes, and back. */
  const SortOrder: seq<int> := [0, 5, 10, 1, 6, 15, 11, 2, 7, 12, 16, 3, 8, 13, 17, 4, 9, 14, 19, 18]
  const SortOrderInverse: seq<int> := [0, 3, 7, 11, 15, 1, 4, 8, 12, 16, 2, 6, 9, 13, 17, 5, 10, 14, 19, 18]

  lemma TestCurveIsTheSortedExpansion()
    ensures SortedDesc(TestCurve)
    ensures multiset(TestCurve) == multiset(Expand(Marginals(TestUtility), DiscountTwoFifths))
  {
    forall k | 0 <= k < |TestCurve| - 1 ensures AtMost(TestCurve[k + 1], TestCurve[k]) {
      assert k == 0 || k == 1 || k == 2 || k == 3 || k == 4 || k == 5 || k == 6 || k == 7
        || k == 8 || k == 9 || k == 10 || k == 11 || k == 12 || k == 13 || k == 14
        || k == 15 || k == 16 || k == 17 || k == 18;
    }
    AdjacentDescIsSorted(TestCurve);
    forall k | 0 <= k < 20
      ensures 0 <= SortOrder[k] < 20 && TestCurve[k] == TestPushes[SortOrder[k]]
      ensures SortOrderInverse[SortOrder[k]] == k
    {
      assert k == 0 || k == 1 || k == 2 || k == 3 || k == 4 || k == 5 || k == 6 || k == 7
        || k == 8 || k == 9 || k == 10 || k == 11 || k == 12 || k == 13 || k == 14
        || k == 15 || k == 16 || k == 17 || k == 18 || k == 19;
    }
    forall a, b | 0 <= a < b < 20 ensures SortOrder[a] != SortOrder[b] {
      assert SortOrderInverse[SortOrder[a]] != SortOrderInverse[SortOrder[b]];
    }
    Reindexing.ReindexKeepsMultiset(TestPushes, TestCurve, SortOrder);
    TestPushesAreTheExpansion();
  }

  /** `make_mu`: the test table's curve is exactly the hard-coded sorted fixture. */
  method MakeMu() returns (mu: seq<Entry>)
    ensures mu == TestCurve
  {
    mu := FromUtility(TestUtility, DiscountTwoFifths);
    TestCurveIsTheSortedExpansion();
    SortedPermutationsEqual(mu, TestCurve);
  }

  /** `test_mu`: the test table's curve answers 10 and 12 for buying and selling at two units
      held, and consumes 3 of 3 units and 4 of 10 units now. */
  method MuTest() returns (buy2: int, sell2: int, consume3: int, consume10: int)
    ensures buy2 == 10 && sell2 == 12
    ensures consume3 == 3 && consume10 == 4
  {
    var mu := MakeMu();
    buy2 := MuBuy(mu, 2);
    sell2 := MuSell(mu, 2);
    consume3 := MuConsume(mu, 3);
    consume10 := MuConsume(mu, 10);
    TestCurveConsumption();
    TestCurveQueries();
  }

  /** Buying and selling values of the test curve at two units held. */
  lemma TestCurveQueries()
    ensures MuBuy(TestCurve, 2) == 10 && MuSell(TestCurve, 2) == 12
  {
  }

  /** Tier-0 entries among the first 3 and the first 10 entries of the test curve. */
  lemma TestCurveConsumption()
    ensures CountTier(TestCurve[..3], 0) == 3
    ensures CountTier(TestCurve[..10], 0) == 4
  {
    var expected := [0, 1, 2, 3, 3, 3, 4, 4, 4, 4, 4];
    for k := 0 to 10
      invariant CountTier(TestCurve[..k], 0) == expected[k]
      invariant k >= 3 ==> CountTier(TestCurve[..3], 0) == 3
    {
      assert TestCurve[..k + 1][..k] == TestCurve[..k];
    }
  }

  // ---------------------------------------------------------------------------------------
  // The `test_from_market` fixture
  // ---------------------------------------------------------------------------------------

  /** The test's two recipes: baking 10 food from 30 grain, and farming 10 grain from nothing. */
  const BakeAndFarm: seq<Task> := [Task([(Grain, 30)], (Food, 10)), Task([], (Grain, 10))]

  /** The mock market prices every good at 20, so `value` is `20 * amt`. */
  function MockValue(g: Good, amt: int): int
  {
    20 * amt
  }

  /** `(v as f64 * 0.8^t) as i16` in exact arithmetic: `v * 4^t / 5^t` truncated toward zero. */
  function DecayFourFifths(v: int, t: int): int
  {
    TruncDiv(v * Pow(4, if t < 0 then 0 else t), Pow(5, if t < 0 then 0 else t))
  }

  /** `test_from_market`: grain is worth 200 / 30 = 6 per unit to the baker, so the curve holds
      30 entries of 6, then 30 of 4, then 30 of 3; buying the 2nd or the 29th unit is worth 6
      and the 36th is worth 4. */
  lemma FromMarketTest()
    ensures exists j :: 0 <= j < |BakeAndFarm| && UsesGood(BakeAndFarm[j], Grain)
    ensures DividesSafely(BakeAndFarm, Grain)
    ensures var mu := FromMarket(MockValue, BakeAndFarm, Grain, DecayFourFifths);
            && |mu| == 90
            && MuBuy(mu, 1) == 6 && MuBuy(mu, 35) == 4 && MuBuy(mu, 1) == MuBuy(mu, 28)
  {
    var bake := BakeAndFarm[0];
    assert bake.inputs[0].0 == Grain;
    assert UsesGood(bake, Grain);
    assert !UsesGood(BakeAndFarm[1], Grain);
    assert FirstInputQuantity(bake, Grain) == 30;
    assert DividesSafely(BakeAndFarm, Grain) by {
      forall j | 0 <= j < |BakeAndFarm| && UsesGood(BakeAndFarm[j], Grain)
        ensures FirstInputQuantity(BakeAndFarm[j], Grain) > 0
      {
        assert j == 0;
      }
    }
    assert BestUseIndex(MockValue, BakeAndFarm, Grain) == 0;
    assert ImpliedValue(MockValue, BakeAndFarm, Grain, 0) == 6;
    assert Pow(4, 1) == 4 && Pow(5, 1) == 5;
    assert TierEntry(6, 1, DecayFourFifths) == (4, 1);
  }
}
