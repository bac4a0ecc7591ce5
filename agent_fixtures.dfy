/** The `choose_trade` unit tests of src/agent.rs, on the test curve. */
module AgentFixture {
  import opened Goods
  import opened MarginalUtility
  import opened CurveFixture
  import opened Agents

  /** `choose_trade_builder`: a fresh agent with 20 cash, `held` grain and 40 food decides
      how much grain to trade at `price`. */
  method ChooseTradeBuilder(gen: IdGenerator, price: int, held: int) returns (toTrade: int)
    requires price >= 0
    modifies gen
    ensures toTrade == TradeDecision(TestCurve, price, held)
  {
    var mu := MakeMu();
    var a := new Agent.New(gen, 20, map[Grain := held, Food := 40]);
    toTrade := a.ChooseTrade(price, mu, Grain);
  }

  /** `test_choose_trade1`. */
  method ChooseTradeTest() returns (p6s2: int, p13s2: int, p12s2: int, p12s0: int, p13s0: int, p11s0: int)
    ensures p6s2 == 1 && p13s2 == -1 && p12s2 == 0
    ensures p12s0 == 1 && p13s0 == 1 && p11s0 == 2
  {
    var gen := new IdGenerator();
    p6s2 := ChooseTradeBuilder(gen, 6, 2);
    p13s2 := ChooseTradeBuilder(gen, 13, 2);
    p12s2 := ChooseTradeBuilder(gen, 12, 2);
    p12s0 := ChooseTradeBuilder(gen, 12, 0);
    p13s0 := ChooseTradeBuilder(gen, 13, 0);
    p11s0 := ChooseTradeBuilder(gen, 11, 0);
    ChooseTradeFixtures();
  }

  /** The curve values the test cases look at. */
  lemma TestCurvePrefix()
    ensures MuBuy(TestCurve, 0) == 15 && MuBuy(TestCurve, 1) == 12
    ensures MuBuy(TestCurve, 2) == 10 && MuBuy(TestCurve, 3) == 6
    ensures MuSell(TestCurve, -1) == 0 && MuSell(TestCurve, 0) == 0 && MuSell(TestCurve, 1) == 15
    ensures MuSell(TestCurve, 2) == 12 && MuSell(TestCurve, 3) == 10
  {
  }

  /** The first phase on the six test cases and the two oversell cases. */
  lemma TestBuyPhases()
    ensures BuyPhase(TestCurve, 6, 2, 0) == 1
    ensures BuyPhase(TestCurve, 13, 2, 0) == 0 && BuyPhase(TestCurve, 12, 2, 0) == 0
    ensures BuyPhase(TestCurve, 12, 0, 0) == 1 && BuyPhase(TestCurve, 13, 0, 0) == 1
    ensures BuyPhase(TestCurve, 11, 0, 0) == 2
    ensures BuyPhase(TestCurve, 16, 0, 0) == 0 && BuyPhase(TestCurve, 16, 1, 0) == 0
  {
    TestCurvePrefix();
    assert BuyPhase(TestCurve, 6, 2, 1) == 1;
    assert BuyPhase(TestCurve, 12, 0, 1) == 1;
    assert BuyPhase(TestCurve, 13, 0, 1) == 1;
    assert BuyPhase(TestCurve, 11, 0, 2) == 2;
    assert BuyPhase(TestCurve, 11, 0, 1) == 2;
  }

  /** The expected answers of the six test cases. */
  lemma ChooseTradeFixtures()
    ensures TradeDecision(TestCurve, 6, 2) == 1
    ensures TradeDecision(TestCurve, 13, 2) == -1
    ensures TradeDecision(TestCurve, 12, 2) == 0
    ensures TradeDecision(TestCurve, 12, 0) == 1
    ensures TradeDecision(TestCurve, 13, 0) == 1
    ensures TradeDecision(TestCurve, 11, 0) == 2
  {
    TestCurvePrefix();
    TestBuyPhases();
    assert SellPhase(TestCurve, 13, 2, -1) == -1;
  }

  /** The corrected second phase gives the same six answers. */
  lemma CorrectedChooseTradeFixtures()
    ensures TradeDecisionCorrected(TestCurve, 6, 2) == 1
    ensures TradeDecisionCorrected(TestCurve, 13, 2) == -1
    ensures TradeDecisionCorrected(TestCurve, 12, 2) == 0
    ensures TradeDecisionCorrected(TestCurve, 12, 0) == 1
    ensures TradeDecisionCorrected(TestCurve, 13, 0) == 1
    ensures TradeDecisionCorrected(TestCurve, 11, 0) == 2
  {
    TestCurvePrefix();
    TestBuyPhases();
    assert SellPhaseCorrected(TestCurve, 13, 2, -1) == -1;
  }

  /** As written, an agent holding no grain, offered a price above every marginal value,
      decides to sell one unit it does not have; holding one unit, it sells two. The
      corrected phase sells nothing and one unit respectively. */
  lemma ChooseTradeOversells()
    ensures TradeDecision(TestCurve, 16, 0) == -1
    ensures TradeDecision(TestCurve, 16, 1) == -2
    ensures TradeDecisionCorrected(TestCurve, 16, 0) == 0
    ensures TradeDecisionCorrected(TestCurve, 16, 1) == -1
  {
    TestCurvePrefix();
    TestBuyPhases();
    assert SellPhase(TestCurve, 16, 0, -1) == -1;
    assert SellPhase(TestCurve, 16, 1, -2) == -2;
    assert SellPhase(TestCurve, 16, 1, -1) == -2;
    assert SellPhaseCorrected(TestCurve, 16, 1, -1) == -1;
  }
}
