/** Agents and their decisions (the `Agent` half of src/agent.rs). */
module Agents {
  import opened Goods
  import opened MarginalUtility
  import Iterators

  /** Agent ids are unsigned 16-bit. */
  type AgentId = U16

  /** Number of distinct 16-bit ids; the counter wraps around at this value. */
  const IdSpace: nat := 0x1_0000

  /** The id the counter hands out `k` calls after it stood at `start`. */
  function IdAfter(start: AgentId, k: nat): (id: AgentId)
    ensures start + k < IdSpace ==> id == start + k
  {
    (start + k) % IdSpace
  }

  /** Fewer than 2^16 calls apart, the counter never repeats an id. */
  lemma IdsDistinct(start: AgentId, a: nat, b: nat)
    requires a < b < a + IdSpace
    ensures IdAfter(start, a) != IdAfter(start, b)
  {
    var x, y := start + a, start + b;
    assert x == IdSpace * (x / IdSpace) + IdAfter(start, a);
    assert y == IdSpace * (y / IdSpace) + IdAfter(start, b);
  }

  /** The process-wide id counter of `new_agent_id` (a `Relaxed` atomic, here a plain counter). */
  class IdGenerator {
    var next: AgentId

    constructor()
      ensures next == 0
    {
      next := 0;
    }

    /** `fetch_add(1)`: hands out the current value and bumps the counter, wrapping at 2^16. */
    method NewAgentId() returns (id: AgentId)
      modifies this
      ensures id == old(next)
      ensures next == IdAfter(old(next), 1)
    {
      id := next;
      next := IdAfter(next, 1);
    }
  }

  /** One more call after `k` calls is `k + 1` calls. */
  lemma {:induction false} IdAfterStep(start: AgentId, k: nat)
    ensures IdAfter(IdAfter(start, k), 1) == IdAfter(start, k + 1)
  {
    var q := (start + k) / IdSpace;
    assert start + k == IdSpace * q + IdAfter(start, k);
    if IdAfter(start, k) + 1 < IdSpace {
      assert start + k + 1 == IdSpace * q + (IdAfter(start, k) + 1);
    } else {
      assert start + k + 1 == IdSpace * (q + 1);
    }
  }

  class Agent {
    var id: AgentId
    var cash: int
    var res: map<Good, int>

    /** `Agent::new`: draws the next id from the counter. */
    constructor New(gen: IdGenerator, cash: int, res: map<Good, int>)
      modifies gen
      ensures id == old(gen.next) && gen.next == IdAfter(old(gen.next), 1)
      ensures this.cash == cash && this.res == res
    {
      id := gen.next;
      this.cash := cash;
      this.res := res;
      gen.next := IdAfter(gen.next, 1);
    }

    /** `Agent::new_with_id`: the caller chooses the id. */
    constructor WithId(id: AgentId, cash: int, res: map<Good, int>)
      ensures this.id == id && this.cash == cash && this.res == res
    {
      this.id := id;
      this.cash := cash;
      this.res := res;
    }

    /** `choose_trade`: how many units of `good` to buy (positive) or sell (negative) at
        `price`. Looking up a good the agent does not hold panics and an empty curve makes
        `len() - 1` underflow, so both are excluded. With a negative price the first loop
        stops only if some entry at or after the holding is at or below the price, so
        negative prices are excluded too. */
    method ChooseTrade(price: int, mu: seq<Entry>, good: Good) returns (toTrade: int)
      requires good in res && |mu| > 0 && price >= 0
      ensures toTrade == TradeDecision(mu, price, res[good])
    {
      var supply := res[good];
      toTrade := 0;
      while MuBuy(mu, supply + toTrade) > price
        invariant toTrade >= 0
        invariant BuyPhase(mu, price, supply, toTrade) == BuyPhase(mu, price, supply, 0)
        decreases |mu| - supply - toTrade
      {
        toTrade := toTrade + 1;
      }
      ghost var bought := toTrade;
      while MuSell(mu, supply + toTrade) < price && toTrade + supply >= 0
        invariant SellPhase(mu, price, supply, toTrade) == SellPhase(mu, price, supply, bought)
        decreases supply + toTrade + 1
      {
        toTrade := toTrade - 1;
      }
    }

    /** `choose_task`: the index of the task `max_by_key` returns. A task's key is its
        profit when its cost is below the agent's cash and 0 otherwise; among equal keys the
        last wins. An empty list makes the `expect` panic. `value` is `Task::value` against
        the market, a `(profit, revenue, cost)` triple. */
    function ChooseTask(tasks: seq<Task>, value: Task -> (int, int, int)): (i: nat)
      reads this
      requires |tasks| > 0
      ensures i < |tasks|
      ensures forall j :: 0 <= j < |tasks| ==> TaskKey(value(tasks[j]), cash) <= TaskKey(value(tasks[i]), cash)
      ensures forall j :: i < j < |tasks| ==> TaskKey(value(tasks[j]), cash) < TaskKey(value(tasks[i]), cash)
      ensures (exists j :: 0 <= j < |tasks| && value(tasks[j]).2 < cash && value(tasks[j]).0 > 0) ==>
        value(tasks[i]).2 < cash && value(tasks[i]).0 > 0
    {
      var c := cash;
      var keys := seq(|tasks|, j requires 0 <= j < |tasks| => TaskKey(value(tasks[j]), c));
      assert forall j :: 0 <= j < |tasks| ==> keys[j] == TaskKey(value(tasks[j]), cash);
      Iterators.MaxByKeyIndex(keys)
    }
  }

  /** The key `choose_task` ranks a task by: profit if affordable, else 0. */
  function TaskKey(v: (int, int, int), cash: int): (k: int)
    ensures v.2 < cash ==> k == v.0
    ensures v.2 >= cash ==> k == 0
  {
    if v.2 < cash then v.0 else 0
  }

  /** `new_into_map`: builds an agent with the next id and inserts it under that id,
      replacing any agent already stored there. */
  method NewIntoMap(gen: IdGenerator, agents: map<AgentId, Agent>, cash: int, res: map<Good, int>)
    returns (agents': map<AgentId, Agent>)
    modifies gen
    ensures gen.next == IdAfter(old(gen.next), 1)
    ensures agents'.Keys == agents.Keys + {old(gen.next)}
    ensures var a := agents'[old(gen.next)];
      fresh(a) && a.id == old(gen.next) && a.cash == cash && a.res == res
    ensures forall k :: k in agents && k != old(gen.next) ==> agents'[k] == agents[k]
  {
    var id := gen.NewAgentId();
    var a := new Agent.WithId(id, cash, res);
    agents' := agents[id := a];
  }

  // ---------------------------------------------------------------------------------------
  // The two phases of choose_trade
  // ---------------------------------------------------------------------------------------

  /** First phase: from `t` on, the smallest count with `mu_buy(supply + count) <= price`. */
  function BuyPhase(mu: seq<Entry>, price: int, supply: int, t: nat): (b: nat)
    requires |mu| > 0 && price >= 0
    ensures b >= t
    ensures MuBuy(mu, supply + b) <= price
    ensures forall h :: supply + t <= h < supply + b ==> MuBuy(mu, h) > price
    decreases |mu| - supply - t
  {
    if MuBuy(mu, supply + t) > price then BuyPhase(mu, price, supply, t + 1) else t
  }

  /** Second phase, as written: step down from `t` while selling one more is worth less than
      the price and `supply + t >= 0`. */
  function SellPhase(mu: seq<Entry>, price: int, supply: int, t: int): (r: int)
    requires |mu| > 0
    ensures r <= t
    ensures forall h :: supply + r < h <= supply + t ==> MuSell(mu, h) < price && h >= 0
    ensures !(MuSell(mu, supply + r) < price && supply + r >= 0)
    ensures r == t || supply + r >= -1
    decreases supply + t + 1
  {
    if MuSell(mu, supply + t) < price && t + supply >= 0 then SellPhase(mu, price, supply, t - 1) else t
  }

  /** What `choose_trade` returns for an agent holding `supply`. It never buys a unit worth
      at most the price, never sells a unit worth at least the price, and, because the
      guard is tested before the decrement, can leave the agent one unit short. */
  function TradeDecision(mu: seq<Entry>, price: int, supply: int): (r: int)
    requires |mu| > 0 && price >= 0
    ensures r > 0 ==> forall h :: supply <= h < supply + r ==> MuBuy(mu, h) > price
    ensures r < 0 ==> forall h :: supply + r < h <= supply ==> MuSell(mu, h) < price
    ensures supply >= 0 ==> supply + r >= -1
  {
    SellPhase(mu, price, supply, BuyPhase(mu, price, supply, 0))
  }

  /** Second phase as evidently intended: sell one more only while one is held. */
  function SellPhaseCorrected(mu: seq<Entry>, price: int, supply: int, t: int): (r: int)
    requires |mu| > 0
    ensures r <= t
    ensures forall h :: supply + r < h <= supply + t ==> MuSell(mu, h) < price && h > 0
    ensures !(MuSell(mu, supply + r) < price && supply + r > 0)
    ensures r == t || supply + r >= 0
    decreases supply + t
  {
    if MuSell(mu, supply + t) < price && t + supply > 0 then SellPhaseCorrected(mu, price, supply, t - 1) else t
  }

  /** `choose_trade` with the corrected second phase: the same buying and selling rule, and an
      agent that starts with a non-negative holding never ends below zero. */
  function TradeDecisionCorrected(mu: seq<Entry>, price: int, supply: int): (r: int)
    requires |mu| > 0 && price >= 0
    ensures r > 0 ==> forall h :: supply <= h < supply + r ==> MuBuy(mu, h) > price
    ensures r < 0 ==> forall h :: supply + r < h <= supply ==> MuSell(mu, h) < price
    ensures supply >= 0 ==> supply + r >= 0
  {
    SellPhaseCorrected(mu, price, supply, BuyPhase(mu, price, supply, 0))
  }
}
