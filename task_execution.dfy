/** `Agent::perform_task` of src/agent.rs: top up each short input from the market, consume the
    inputs, then add the output. */
module TaskExecution {
  import opened Goods
  import opened Agents
  import opened Markets

  /** Everything `perform_task` can change: the agent's cash and inventory, the market's supply. */
  datatype Books = Books(cash: int, res: map<Good, int>, supply: map<Good, int>)

  /** How a run ends: with all inputs consumed, or at the `unwrap` of a failed purchase, which
      panics in the source; the books are those at that point, since a failed trade changes
      nothing. */
  datatype TaskRun = Done(books: Books) | Halted(books: Books, error: TradeError)

  /** Every good the task names is in the inventory, and every input good is in the market. */
  predicate Stocked(b: Books, task: Task)
  {
    && (forall k :: 0 <= k < |task.inputs| ==> task.inputs[k].0 in b.res && task.inputs[k].0 in b.supply)
    && task.output.0 in b.res
  }

  /** Consuming one input `(good, amt)`: buy the shortfall at the market's price when the agent
      holds less than `amt`, then deduct `amt`. */
  function ConsumeInput(b: Books, good: Good, amt: int, priceAt: (Good, int, int) -> int): (r: TaskRun)
    requires good in b.res && good in b.supply
    ensures r.books.res.Keys == b.res.Keys && r.books.supply.Keys == b.supply.Keys
    ensures forall g :: g in b.res && g != good ==> r.books.res[g] == b.res[g]
    ensures forall g :: g in b.supply && g != good ==> r.books.supply[g] == b.supply[g]
    ensures b.res[good] >= amt ==> r == Done(b.(res := b.res[good := b.res[good] - amt]))
    ensures r.Done? ==>
      && r.books.res[good] == (if b.res[good] > amt then b.res[good] else amt) - amt
      && r.books.supply[good] == b.supply[good] - (if b.res[good] < amt then amt - b.res[good] else 0)
    ensures r.Halted? ==> r.books == b && b.res[good] < amt
    ensures b.res[good] < amt ==>
      var short := amt - b.res[good];
      && (r.Halted? <==> b.cash < priceAt(good, b.supply[good], short) * short || b.supply[good] - short <= 0)
      && (r.Done? ==> r.books.cash == b.cash - priceAt(good, b.supply[good], short) * short)
    ensures r.Done? && b.res[good] >= amt ==> r.books.cash == b.cash
  {
    var owned := b.res[good];
    if owned < amt then
      var short := amt - owned;
      var p := Position(b.cash, owned, b.supply[good]);
      match TradeOutcome(p, priceAt(good, b.supply[good], short) * short, short)
      case Failure(e) => Halted(b, e)
      case Success(q) => Done(Books(q.cash, b.res[good := q.held - amt], b.supply[good := q.supply]))
    else
      Done(b.(res := b.res[good := owned - amt]))
  }

  /** Consuming the inputs in order, stopping at the first failed purchase. */
  function ConsumeInputs(b: Books, ins: seq<(Good, U16)>, priceAt: (Good, int, int) -> int): (r: TaskRun)
    requires forall k :: 0 <= k < |ins| ==> ins[k].0 in b.res && ins[k].0 in b.supply
    ensures r.books.res.Keys == b.res.Keys && r.books.supply.Keys == b.supply.Keys
    decreases |ins|
  {
    if |ins| == 0 then Done(b)
    else
      match ConsumeInput(b, ins[0].0, ins[0].1, priceAt)
      case Halted(b', e) => Halted(b', e)
      case Done(b') => ConsumeInputs(b', ins[1..], priceAt)
  }

  /** The whole of `perform_task` on the books. */
  function PerformTaskOutcome(b: Books, task: Task, priceAt: (Good, int, int) -> int): (r: TaskRun)
    requires Stocked(b, task)
    ensures r.books.res.Keys == b.res.Keys && r.books.supply.Keys == b.supply.Keys
    ensures r.Halted? <==> ConsumeInputs(b, task.inputs, priceAt).Halted?
    ensures r.books.cash == ConsumeInputs(b, task.inputs, priceAt).books.cash
    ensures r.books.supply == ConsumeInputs(b, task.inputs, priceAt).books.supply
  {
    match ConsumeInputs(b, task.inputs, priceAt)
    case Halted(b', e) => Halted(b', e)
    case Done(b') =>
      var (good, amt) := task.output;
      Done(b'.(res := b'.res[good := b'.res[good] + amt]))
  }

  /** Units of `g` the inputs ask for in total. */
  function Demand(ins: seq<(Good, U16)>, g: Good): (n: nat)
    ensures (forall k :: 0 <= k < |ins| ==> ins[k].0 != g) ==> n == 0
    decreases |ins|
  {
    if |ins| == 0 then 0 else (if ins[0].0 == g then ins[0].1 else 0) + Demand(ins[1..], g)
  }

  /** One pass of the loop over the inputs: buy the shortfall of `good` if any, then deduct
      `amt`. A failed purchase leaves everything as it was and reports `halted`. */
  method ConsumeOne(agent: Agent, market: LinearMarket, good: Good, amt: int) returns (halted: bool)
    requires good in agent.res && good in market.supply
    modifies agent, market
    ensures var out := ConsumeInput(Books(old(agent.cash), old(agent.res), old(market.supply)), good, amt, market.priceAt);
      && halted == out.Halted?
      && agent.cash == out.books.cash && agent.res == out.books.res && market.supply == out.books.supply
    ensures agent.id == old(agent.id)
  {
    var owned := agent.res[good];
    if owned < amt {
      var r := market.Buy(agent, good, amt - owned);
      if r.Failure? {
        return true;
      }
    }
    agent.res := agent.res[good := agent.res[good] - amt];
    halted := false;
  }

  /** Consuming the inputs from position `i` on is consuming input `i`, then the rest unless
      that halted. */
  lemma ConsumeInputsStep(b: Books, ins: seq<(Good, U16)>, i: int, priceAt: (Good, int, int) -> int)
    requires 0 <= i < |ins|
    requires forall k :: 0 <= k < |ins| ==> ins[k].0 in b.res && ins[k].0 in b.supply
    ensures var r := ConsumeInput(b, ins[i].0, ins[i].1, priceAt);
      ConsumeInputs(b, ins[i..], priceAt) == if r.Halted? then r else ConsumeInputs(r.books, ins[i + 1..], priceAt)
  {
    assert ins[i..][0] == ins[i];
    assert ins[i..][1..] == ins[i + 1..];
  }

  /** `perform_task` on an agent and a market. A failed purchase, where the source panics,
      ends the run early and is reported in `halted`. */
  method PerformTask(agent: Agent, task: Task, market: LinearMarket) returns (halted: bool)
    requires Stocked(Books(agent.cash, agent.res, market.supply), task)
    modifies agent, market
    ensures var out := PerformTaskOutcome(Books(old(agent.cash), old(agent.res), old(market.supply)), task, market.priceAt);
      && halted == out.Halted?
      && agent.cash == out.books.cash && agent.res == out.books.res && market.supply == out.books.supply
    ensures agent.id == old(agent.id)
  {
    halted := ConsumeAll(agent, market, task.inputs);
    if halted {
      return;
    }
    var (good, amt) := task.output;
    agent.res := agent.res[good := agent.res[good] + amt];
  }

  /** The loop of `perform_task` over the inputs, in order, stopping at a failed purchase. */
  method ConsumeAll(agent: Agent, market: LinearMarket, ins: seq<(Good, U16)>) returns (halted: bool)
    requires forall k :: 0 <= k < |ins| ==> ins[k].0 in agent.res && ins[k].0 in market.supply
    modifies agent, market
    ensures var out := ConsumeInputs(Books(old(agent.cash), old(agent.res), old(market.supply)), ins, market.priceAt);
      && halted == out.Halted?
      && agent.cash == out.books.cash && agent.res == out.books.res && market.supply == out.books.supply
    ensures agent.id == old(agent.id)
  {
    ghost var start := Books(agent.cash, agent.res, market.supply);
    var i := 0;
    while i < |ins|
      invariant 0 <= i <= |ins|
      invariant agent.res.Keys == start.res.Keys && market.supply.Keys == start.supply.Keys
      invariant agent.id == old(agent.id)
      invariant ConsumeInputs(start, ins, market.priceAt)
        == ConsumeInputs(Books(agent.cash, agent.res, market.supply), ins[i..], market.priceAt)
    {
      var (good, amt) := ins[i];
      ConsumeInputsStep(Books(agent.cash, agent.res, market.supply), ins, i, market.priceAt);
      halted := ConsumeOne(agent, market, good, amt);
      if halted {
        return;
      }
      i := i + 1;
    }
    assert ins[i..] == [];
    halted := false;
  }

  // ---------------------------------------------------------------------------------------
  // What a completed task does to the books
  // ---------------------------------------------------------------------------------------

  /** Consuming the inputs removes exactly their total demand from the combined holding of the
      agent and the market, good by good. */
  lemma {:induction false} ConsumeInputsConserves(b: Books, ins: seq<(Good, U16)>, priceAt: (Good, int, int) -> int, g: Good)
    requires forall k :: 0 <= k < |ins| ==> ins[k].0 in b.res && ins[k].0 in b.supply
    requires g in b.res && g in b.supply
    requires ConsumeInputs(b, ins, priceAt).Done?
    ensures var b' := ConsumeInputs(b, ins, priceAt).books;
      b'.res[g] + b'.supply[g] == b.res[g] + b.supply[g] - Demand(ins, g)
    decreases |ins|
  {
    if |ins| > 0 {
      var b1 := ConsumeInput(b, ins[0].0, ins[0].1, priceAt).books;
      ConsumeInputsConserves(b1, ins[1..], priceAt, g);
    }
  }

  /** A completed task changes the combined holding of every good the market trades by the
      output it adds minus the inputs it consumes. */
  lemma PerformTaskConserves(b: Books, task: Task, priceAt: (Good, int, int) -> int, g: Good)
    requires Stocked(b, task) && g in b.res && g in b.supply
    requires PerformTaskOutcome(b, task, priceAt).Done?
    ensures var b' := PerformTaskOutcome(b, task, priceAt).books;
      b'.res[g] + b'.supply[g]
        == b.res[g] + b.supply[g] - Demand(task.inputs, g) + (if g == task.output.0 then task.output.1 else 0)
  {
    ConsumeInputsConserves(b, task.inputs, priceAt, g);
  }

  /** The inputs name pairwise different goods. */
  predicate DistinctInputs(ins: seq<(Good, U16)>)
  {
    forall j, k :: 0 <= j < k < |ins| ==> ins[j].0 != ins[k].0
  }

  /** With distinct input goods, each input holding ends at `max(owned, amt) - amt` and the
      market gives up exactly each shortfall. */
  lemma {:induction false} ConsumeDistinctInputs(b: Books, ins: seq<(Good, U16)>, priceAt: (Good, int, int) -> int)
    requires forall k :: 0 <= k < |ins| ==> ins[k].0 in b.res && ins[k].0 in b.supply
    requires DistinctInputs(ins)
    requires ConsumeInputs(b, ins, priceAt).Done?
    ensures var b' := ConsumeInputs(b, ins, priceAt).books;
      forall k :: 0 <= k < |ins| ==>
        var (g, amt) := ins[k];
        && b'.res[g] == (if b.res[g] > amt then b.res[g] else amt) - amt
        && b'.supply[g] == b.supply[g] - (if b.res[g] < amt then amt - b.res[g] else 0)
    decreases |ins|
  {
    if |ins| > 0 {
      var b1 := ConsumeInput(b, ins[0].0, ins[0].1, priceAt).books;
      var rest := ins[1..];
      assert DistinctInputs(rest);
      ConsumeDistinctInputs(b1, rest, priceAt);
        var b' := ConsumeInputs(b, ins, priceAt).books;
      forall k | 0 <= k < |ins|
        ensures b'.res[ins[k].0] == (if b.res[ins[k].0] > ins[k].1 then b.res[ins[k].0] else ins[k].1) - ins[k].1
        ensures b'.supply[ins[k].0] == b.supply[ins[k].0] - (if b.res[ins[k].0] < ins[k].1 then ins[k].1 - b.res[ins[k].0] else 0)
      {
        if k > 0 {
          assert rest[k - 1] == ins[k];
          assert ins[0].0 != ins[k].0;
        } else {
          assert forall j :: 0 <= j < |rest| ==> rest[j].0 != ins[0].0;
        }
      }
    }
  }

  /** A good no input names keeps its holding and its supply, however the run ends. */
  lemma {:induction false} ConsumeLeavesOthers(b: Books, ins: seq<(Good, U16)>, priceAt: (Good, int, int) -> int, g: Good)
    requires forall k :: 0 <= k < |ins| ==> ins[k].0 in b.res && ins[k].0 in b.supply
    requires forall k :: 0 <= k < |ins| ==> ins[k].0 != g
    ensures g in b.res ==> ConsumeInputs(b, ins, priceAt).books.res[g] == b.res[g]
    ensures g in b.supply ==> ConsumeInputs(b, ins, priceAt).books.supply[g] == b.supply[g]
    decreases |ins|
  {
    if |ins| > 0 {
      var r0 := ConsumeInput(b, ins[0].0, ins[0].1, priceAt);
      if r0.Done? {
        assert ins[0].0 != g;
        assert forall k :: 0 <= k < |ins[1..]| ==> ins[1..][k] == ins[k + 1];
        ConsumeLeavesOthers(r0.books, ins[1..], priceAt, g);
      }
    }
  }

  /** A task whose inputs name different goods: each input holding ends at
      `max(owned, amt) - amt`, plus the output when the output is that good; the output good
      rises by exactly the output quantity when no input uses it; every other good keeps its
      holding and its supply. */
  lemma PerformDistinctTask(b: Books, task: Task, priceAt: (Good, int, int) -> int)
    requires Stocked(b, task) && DistinctInputs(task.inputs)
    requires PerformTaskOutcome(b, task, priceAt).Done?
    ensures var b' := PerformTaskOutcome(b, task, priceAt).books;
      forall k :: 0 <= k < |task.inputs| ==>
        var (g, amt) := task.inputs[k];
        b'.res[g] == (if b.res[g] > amt then b.res[g] else amt) - amt
                     + (if g == task.output.0 then task.output.1 else 0)
    ensures var b' := PerformTaskOutcome(b, task, priceAt).books;
      (forall k :: 0 <= k < |task.inputs| ==> task.inputs[k].0 != task.output.0) ==>
        b'.res[task.output.0] == b.res[task.output.0] + task.output.1
    ensures var b' := PerformTaskOutcome(b, task, priceAt).books;
      forall g :: g in b.res && g != task.output.0 && (forall k :: 0 <= k < |task.inputs| ==> task.inputs[k].0 != g) ==>
        b'.res[g] == b.res[g]
  {
    ConsumeDistinctInputs(b, task.inputs, priceAt);
    forall g | g in b.res && (forall k :: 0 <= k < |task.inputs| ==> task.inputs[k].0 != g)
      ensures ConsumeInputs(b, task.inputs, priceAt).books.res[g] == b.res[g]
    {
      ConsumeLeavesOthers(b, task.inputs, priceAt, g);
    }
    if forall k :: 0 <= k < |task.inputs| ==> task.inputs[k].0 != task.output.0 {
      ConsumeLeavesOthers(b, task.inputs, priceAt, task.output.0);
    }
  }

  /** A run halts only at a purchase: some input the agent was short of could not be bought. */
  lemma {:induction false} HaltsOnlyWhenShort(b: Books, ins: seq<(Good, U16)>, priceAt: (Good, int, int) -> int)
    requires forall k :: 0 <= k < |ins| ==> ins[k].0 in b.res && ins[k].0 in b.supply
    requires ConsumeInputs(b, ins, priceAt).Halted?
    ensures exists k :: 0 <= k < |ins| && b.res[ins[k].0] < ins[k].1 + Demand(ins[..k], ins[k].0)
    decreases |ins|
  {
    var r0 := ConsumeInput(b, ins[0].0, ins[0].1, priceAt);
    if r0.Halted? {
      assert b.res[ins[0].0] < ins[0].1 + Demand(ins[..0], ins[0].0);
    } else {
      var rest := ins[1..];
      HaltsOnlyWhenShort(r0.books, rest, priceAt);
      var k :| 0 <= k < |rest| && r0.books.res[rest[k].0] < rest[k].1 + Demand(rest[..k], rest[k].0);
      var g := rest[k].0;
      var first := if ins[0].0 == g then ins[0].1 else 0;
      assert r0.books.res[g] >= b.res[g] - first;
      assert Demand(ins[..k + 1], g) == first + Demand(rest[..k], g) by {
        assert ins[..k + 1][0] == ins[0];
        assert ins[..k + 1][1..] == rest[..k];
      }
      assert ins[k + 1] == rest[k];
    }
  }
}
