/** The supply-tracking market of src/market.rs: the trait's default `value`, `trade`, `buy`
    and `sell`, specialised to `LinearMarket`, whose `add_supply` refuses to let a good's
    supply drop to zero or below. */
module Markets {
  import opened Goods
  import opened Agents

  /** Answer of `add_supply`: the refused request, or the new supply. */
  datatype AddSupplyResponse = InsufficientSupply(supply: int, amt: int) | Ok(newSupply: int)

  /** Why a trade failed: the agent could not pay, or the market refused to change its supply. */
  datatype TradeError = InsufficientCash | SupplyRefused(response: AddSupplyResponse)

  /** `Result<T, Error>` of a trade. */
  datatype Result<T> = Success(value: T) | Failure(error: TradeError)

  // ---------------------------------------------------------------------------------------
  // add_supply on plain values
  // ---------------------------------------------------------------------------------------

  /** The response `add_supply` gives and the supply it leaves behind. */
  function AddSupplyOutcome(supply: int, amt: int): (r: (AddSupplyResponse, int))
    ensures r.0.Ok? <==> supply + amt > 0
    ensures r.0.Ok? ==> r.1 == supply + amt && r.0.newSupply == r.1
    ensures !r.0.Ok? ==> r.0 == InsufficientSupply(supply, amt) && r.1 == supply
  {
    if supply + amt <= 0 then (InsufficientSupply(supply, amt), supply)
    else (Ok(supply + amt), supply + amt)
  }

  /** Supply after a series of `add_supply` calls. */
  function SupplyAfterAdds(supply: int, amts: seq<int>): int
    decreases |amts|
  {
    if |amts| == 0 then supply else SupplyAfterAdds(AddSupplyOutcome(supply, amts[0]).1, amts[1..])
  }

  /** A supply that starts positive stays positive, whatever is added or taken. */
  lemma {:induction false} SupplyStaysPositive(supply: int, amts: seq<int>)
    requires supply > 0
    ensures SupplyAfterAdds(supply, amts) > 0
    decreases |amts|
  {
    if |amts| > 0 {
      SupplyStaysPositive(AddSupplyOutcome(supply, amts[0]).1, amts[1..]);
    }
  }

  // ---------------------------------------------------------------------------------------
  // trade on plain values
  // ---------------------------------------------------------------------------------------

  /** What a trade touches: the agent's cash and holding of the good, and the market's supply. */
  datatype Position = Position(cash: int, held: int, supply: int)

  /** The default `trade` of `amt` units (negative to sell) worth `value`: refuse when the
      agent cannot pay, otherwise move the units out of the market's supply and, if the market
      accepts, into the agent's holding against its cash. */
  function TradeOutcome(p: Position, value: int, amt: int): (r: Result<Position>)
    ensures r.Success? <==> p.cash >= value && p.supply - amt > 0
    ensures p.cash < value ==> r == Failure(InsufficientCash)
    ensures p.cash >= value && p.supply - amt <= 0 ==>
      r == Failure(SupplyRefused(InsufficientSupply(p.supply, -amt)))
    ensures r.Success? ==> r.value == Position(p.cash - value, p.held + amt, p.supply - amt)
  {
    if p.cash < value then Failure(InsufficientCash)
    else
      var (response, supply') := AddSupplyOutcome(p.supply, -amt);
      match response
      case Ok(_) => Success(Position(p.cash - value, p.held + amt, supply'))
      case InsufficientSupply(_, _) => Failure(SupplyRefused(response))
  }

  /** Goods are neither created nor destroyed by a trade: what the agent gains the market loses,
      and the cash moves by exactly the value. */
  lemma TradeConservesGoods(p: Position, value: int, amt: int)
    requires TradeOutcome(p, value, amt).Success?
    ensures var q := TradeOutcome(p, value, amt).value;
      q.held + q.supply == p.held + p.supply && p.cash - q.cash == value
  {
  }

  /** Buying `n` units and then selling them back leaves the holding and the supply as they
      were; the cash differs by the two values. */
  lemma BuyThenSellRestoresGoods(p: Position, buyValue: int, sellValue: int, n: int)
    requires TradeOutcome(p, buyValue, n).Success?
    requires TradeOutcome(TradeOutcome(p, buyValue, n).value, sellValue, -n).Success?
    ensures var q := TradeOutcome(TradeOutcome(p, buyValue, n).value, sellValue, -n).value;
      q == Position(p.cash - buyValue - sellValue, p.held, p.supply)
  {
  }

  /** A trade the agent can pay for fails only because it would exhaust the market. */
  lemma TradeFailsOnlyOnPaymentOrExhaustion(p: Position, value: int, amt: int)
    requires TradeOutcome(p, value, amt).Failure?
    ensures p.cash < value || p.supply <= amt
  {
  }

  // ---------------------------------------------------------------------------------------
  // The market object
  // ---------------------------------------------------------------------------------------

  /** Agent and market moved from their old state as `TradeOutcome` says for a trade of `amt`
      units of `good` answered by `r`; on failure nothing changed. */
  twostate predicate Traded(market: LinearMarket, agent: Agent, good: Good, amt: int, new r: Result<()>)
    reads market, agent
    requires old(good in market.supply) && old(good in agent.res)
  {
    var out := TradeOutcome(Position(old(agent.cash), old(agent.res[good]), old(market.supply[good])),
                            old(market.Value(good, amt)), amt);
    && r.Success? == out.Success?
    && (r.Failure? ==> r.error == out.error)
    && (out.Success? ==>
          agent.cash == out.value.cash && agent.res == old(agent.res)[good := out.value.held]
          && market.supply == old(market.supply)[good := out.value.supply])
    && (out.Failure? ==> agent.cash == old(agent.cash) && agent.res == old(agent.res) && market.supply == old(market.supply))
  }

  /** `LinearMarket`: each good's current supply, and its price curve. `priceAt(good, supply,
      amt)` is the good's price for a trade of `amt` units at the given supply (the curve
      evaluated at `supply + amt / 2`). */
  class LinearMarket {
    var supply: map<Good, int>
    const priceAt: (Good, int, int) -> int

    constructor(supply: map<Good, int>, priceAt: (Good, int, int) -> int)
      ensures this.supply == supply && this.priceAt == priceAt
    {
      this.supply := supply;
      this.priceAt := priceAt;
    }

    /** `price`: the curve at the current supply. Looking up an unknown good panics. */
    function Price(good: Good, amt: int): int
      reads this
      requires good in supply
    {
      priceAt(good, supply[good], amt)
    }

    /** The trait's default `value`: the price of the trade times its size. */
    function Value(good: Good, amt: int): (v: int)
      reads this
      requires good in supply
      ensures v == Price(good, amt) * amt
      ensures amt == 0 ==> v == 0
    {
      Price(good, amt) * amt
    }

    /** `add_supply`: refuse when the supply would drop to zero or below, otherwise apply it. */
    method AddSupply(good: Good, amt: int) returns (response: AddSupplyResponse)
      requires good in supply
      modifies this
      ensures response == AddSupplyOutcome(old(supply[good]), amt).0
      ensures supply == old(supply)[good := AddSupplyOutcome(old(supply[good]), amt).1]
      ensures response.InsufficientSupply? ==> supply == old(supply)
      ensures supply[good] > 0 || supply == old(supply)
    {
      if supply[good] + amt <= 0 {
        response := InsufficientSupply(supply[good], amt);
      } else {
        supply := supply[good := supply[good] + amt];
        response := Ok(supply[good]);
      }
    }

    /** The trait's default `trade`. The agent must hold an entry for the good, since the
        source unwraps it. */
    method Trade(agent: Agent, good: Good, amt: int) returns (r: Result<()>)
      requires good in supply && good in agent.res
      modifies this, agent
      ensures Traded(this, agent, good, amt, r)
      ensures agent.id == old(agent.id)
    {
      var value := Value(good, amt);
      if agent.cash < value {
        return Failure(InsufficientCash);
      }
      var response := AddSupply(good, -amt);
      match response {
        case Ok(_) =>
          agent.cash := agent.cash - value;
          agent.res := agent.res[good := agent.res[good] + amt];
          r := Success(());
        case InsufficientSupply(_, _) =>
          r := Failure(SupplyRefused(response));
      }
    }

    /** `buy`: a trade of `amt` units. */
    method Buy(agent: Agent, good: Good, amt: int) returns (r: Result<()>)
      requires good in supply && good in agent.res
      modifies this, agent
      ensures Traded(this, agent, good, amt, r)
      ensures agent.id == old(agent.id)
    {
      r := Trade(agent, good, amt);
    }

    /** `sell`: a trade of `-amt` units. */
    method Sell(agent: Agent, good: Good, amt: int) returns (r: Result<()>)
      requires good in supply && good in agent.res
      modifies this, agent
      ensures Traded(this, agent, good, -amt, r)
      ensures agent.id == old(agent.id)
    {
      r := Trade(agent, good, -amt);
    }
  }
}
