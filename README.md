# market_sim in Dafny

A model of the agent and market core of `market_sim`, a small Rust simulation in which agents
hold cash and goods, value goods through a marginal-utility curve, trade with a market that
tracks each good's supply, and turn inputs into outputs by performing production tasks.

The model has these modules:

- `Goods` (`goods.dfy`): the two goods, production tasks with at most four inputs and one
  output, 16-bit quantities, and the derived order on tasks.
- `Iterators` (`iterators.dfy`): Rust's `max_by_key`, which returns the last of several
  equal maxima.
- `MarginalUtility` (`marginal_utility.dfy`): the `MU` curve of `(value, tier)` entries. It
  covers the builders `from_utility`, `from_curr_mu` and `from_market`, and the queries
  `mu_buy`, `mu_sell`, `utility` and `mu_consume`. The builders fill an array and sort it in
  place. Their contracts say the result is a descending permutation of the tier expansion.
- `Reindexing` (`fixtures.dfy`): reading a sequence through an injective index map keeps its
  multiset of entries. The fixture uses it to show the hard-coded curve is a permutation of
  the pushes.
- `CurveFixture` (`fixtures.dfy`): the unit tests' utility table `[20, 35, 47, 57, 62]` with
  discount 0.4, rounded exactly. It proves the sorted curve is the hard-coded 20-entry fixture
  and checks `test_mu` and `test_from_market`.
- `Agents` (`agents.dfy`): the `Agent` class, the wrapping 16-bit id counter, and the
  constructors and `new_into_map`. It also has `choose_trade`, a loop proved against the
  two-phase function `TradeDecision`, and `choose_task`.
- `AgentFixture` (`agent_fixtures.dfy`): the `choose_trade` unit tests, and the input that
  shows the second phase overselling.
- `Markets` (`markets.dfy`): `AddSupplyResponse` and `LinearMarket` with `add_supply`. It also
  has the trait's default `value`, `trade`, `buy` and `sell`. Each method is tied to a pure
  outcome on plain values, and conservation and refusal properties are proved about it.
- `TaskExecution` (`task_execution.dfy`): `perform_task` as a loop over the inputs, proved
  against a pure fold. It has conservation lemmas for goods and exact final holdings for
  tasks whose inputs are distinct goods.

Floating-point discounting is replaced by integer functions passed as parameters. The tier-0
entry is always the exact marginal value. Prices are also an integer function, of the good,
its current supply and the trade size.

`mu_sell(len)` is 0 even though entry `len - 1` exists, because both lookups share the bound
`supply > len - 1`. `MarginalUtility.SellIsPrecedingBuy` states this as written.

## Model

| member | source | states |
|---|---|---|
| Goods.Ordinal | src/goods.rs:3-7 | there are exactly two goods, and the derived order puts Food first |
| Goods.ComparePair | src/goods.rs:11-12 | the derived order on `(good, quantity)` pairs gives 0 exactly on equal pairs |
| Goods.CompareInputs | src/goods.rs:11 | element-by-element order on input lists: the first differing pair decides, and a proper prefix comes first |
| Goods.FirstDifferingDecides | src/goods.rs:9-11 | after an equal prefix, the first differing pair decides the comparison of two input lists |
| Goods.CompareTask | src/goods.rs:9-13 | the inputs decide; when the inputs are equal, the output pair breaks the tie |
| Goods.CompareInputsZeroIffEqual | src/goods.rs:9-11 | two input lists compare equal exactly when they are equal |
| Goods.CompareInputsAntisymmetric | src/goods.rs:9-11 | swapping two input lists negates their comparison |
| Goods.CompareInputsTransitive | src/goods.rs:9-11 | the strict order on input lists is transitive |
| Goods.TaskOrderConsistent | src/goods.rs:9-13 | task comparison is 0 exactly for equal tasks (inputs, then output) and is antisymmetric |
| Goods.TaskOrderTransitive | src/goods.rs:9-13 | the derived strict order on tasks is transitive |
| Iterators.MaxByKeyIndex | src/agent.rs:55-60 | `max_by_key` returns an index with a maximal key, and every later key is strictly smaller, so the last maximum wins |
| MarginalUtility.MuBuy | src/agent.rs:179-185 | entry `supply` of the curve when `0 <= supply <= len - 1`; 0 otherwise, including negative supply |
| MarginalUtility.MuSell | src/agent.rs:187-193 | entry `supply - 1` when `1 <= supply <= len - 1`; 0 otherwise |
| MarginalUtility.SellIsPrecedingBuy | src/agent.rs:179-193 | inside the curve, selling at `s` is buying at `s - 1`; `mu_sell(0)` and `mu_sell(len)` are 0 |
| MarginalUtility.SellAtLeastBuy | src/agent.rs:179-193 | on a descending curve, `mu_sell(s) >= mu_buy(s)` for `1 <= s <= len - 1` |
| MarginalUtility.BuyNonIncreasing | src/agent.rs:179-185 | on a descending curve, `mu_buy` does not increase as holdings grow inside the curve |
| MarginalUtility.Marginals | src/agent.rs:105-106 | one difference `u[i + 1] - u[i]` per step of the utility table |
| MarginalUtility.TierEntry | src/agent.rs:107-111 | the entry of tier `t` carries tag `t`, and tier 0 is the value itself |
| MarginalUtility.Block | src/agent.rs:121-125 | five entries, tagged 0 to 4 in push order, the first being `(v, 0)` |
| MarginalUtility.Expand | src/agent.rs:120-126 | the pushes of the loop: five entries per base value |
| MarginalUtility.Utility | src/agent.rs:154-161 | `len + 1` levels, the first `u0`, each next level the previous plus that entry's value |
| MarginalUtility.AccumulateMarginals | src/agent.rs:154-161 | the levels start at `u0`, and their differences give back the curve values |
| MarginalUtility.MarginalsAccumulate | src/agent.rs:154-161 | a utility table is rebuilt from its first level and its differences |
| MarginalUtility.ScannedLength | src/agent.rs:163-177 | the scanned prefix is `min(max(supply, 0), len)` long |
| MarginalUtility.MuConsume | src/agent.rs:163-177 | the count of tier-0 entries among the first `min(max(supply, 0), len)` entries; 0 when supply is at most 0, and never more than the prefix length |
| MarginalUtility.PushTiers | src/agent.rs:121-125 | writes the five tiers of one value at its slot and leaves the rest of the buffer alone |
| MarginalUtility.SortDescending | src/agent.rs:127 | the buffer ends sorted non-increasing by `(value, tier)` and is a permutation of what it held |
| MarginalUtility.InsertLast | src/agent.rs:127 | one insertion pass extends the sorted prefix by one entry and permutes the buffer |
| MarginalUtility.FromCurrMu | src/agent.rs:117-129 | `5 * len` entries, sorted descending, a permutation of the tier expansion, exactly `len` entries per tier, and every given value present at tier 0 |
| MarginalUtility.PushMarginals | src/agent.rs:104-112 | the buffer holds, in push order, the five tiers of each difference `u[i + 1] - u[i]` |
| MarginalUtility.FromUtility | src/agent.rs:102-115 | `5 * (len - 1)` entries, sorted descending, a permutation of the expansion of the differences, `len - 1` entries per tier, and each `(u[i + 1] - u[i], 0)` present |
| MarginalUtility.ExpansionFacts | src/agent.rs:105-111 | a permutation of the expansion has five entries per step and one per tier per step |
| MarginalUtility.ExpandTierCount | src/agent.rs:105-111 | each step contributes exactly one entry to each tier |
| MarginalUtility.ExpandHasBase | src/agent.rs:121 | the expansion holds each base value at tier 0 |
| MarginalUtility.BaseEntryKept | src/agent.rs:121 | sorting keeps each base value at tier 0 |
| MarginalUtility.BaseEntriesKept | src/agent.rs:121 | every base value is still present at tier 0 after sorting |
| MarginalUtility.StepEntriesKept | src/agent.rs:106-107 | the kept tier-0 marginals are exactly the entries `(u[i + 1] - u[i], 0)` |
| MarginalUtility.CountTierPermutation | src/agent.rs:113 | sorting does not change how many entries each tier has |
| MarginalUtility.SortedPermutationsEqual | src/agent.rs:113 | two descending orders of the same entries are equal, so the sorted curve is unique |
| MarginalUtility.TruncDiv | src/agent.rs:143 | integer division truncating toward zero, for both signs |
| MarginalUtility.FirstInputIndex | src/agent.rs:137-139 | the first input pair naming the good |
| MarginalUtility.ImpliedValue | src/agent.rs:141-143 | the output's market value divided by the quantity of the good consumed, truncated toward zero |
| MarginalUtility.BestUseBefore | src/agent.rs:132-145 | among the tasks that use the good, one with maximal implied value, every later user strictly lower; -1 exactly when no task uses the good |
| MarginalUtility.BestUseIndex | src/agent.rs:132-145 | the task `filter` then `max_by_key` picks over the users of the good |
| MarginalUtility.FromMarket | src/agent.rs:131-152 | `3 * input` entries: `input` copies of the best implied value at tier 0, then `input` copies each of its tier-1 and tier-2 decays |
| CurveFixture.DiscountedBlock | src/agent.rs:106-111 | the five pushes of a non-negative value at discount 0.4, with `0.4^t` worked out as exact fractions |
| CurveFixture.DiscountedTiers | src/agent.rs:108-111 | rounding `v * 0.4^t` gives the pushed entries for the four test marginals |
| CurveFixture.TestPushesAreTheExpansion | src/agent.rs:102-112 | the test table's pushes, in order |
| CurveFixture.TestCurveIsTheSortedExpansion | src/agent.rs:242-245 | the hard-coded curve is sorted and a permutation of the test table's expansion |
| CurveFixture.MakeMu | src/agent.rs:242-245 | `from_utility` on the test table yields exactly the hard-coded curve |
| CurveFixture.TestCurveQueries | src/agent.rs:224-225 | `mu_buy(2) == 10` and `mu_sell(2) == 12` on the test curve |
| CurveFixture.TestCurveConsumption | src/agent.rs:228-229 | 3 tier-0 entries among the first 3 and 4 among the first 10 |
| CurveFixture.MuTest | src/agent.rs:221-230 | the four assertions of `test_mu` |
| CurveFixture.FromMarketTest | src/agent.rs:206-218 | `test_from_market`: 90 entries, `mu_buy(1) == 6 == mu_buy(28)`, `mu_buy(35) == 4` |
| Agents.IdAfter | src/agent.rs:25-29 | the counter value after `k` calls, equal to `start + k` until it wraps |
| Agents.IdsDistinct | src/agent.rs:25-29 | fewer than 2^16 calls apart, the counter never repeats an id |
| Agents.IdAfterStep | src/agent.rs:27-29 | successive calls compose: one more call after `k` is `k + 1` calls |
| Agents.IdGenerator.constructor | src/agent.rs:25 | the counter starts at 0 |
| Agents.IdGenerator.NewAgentId | src/agent.rs:27-29 | returns the current counter and advances it by one, wrapping at 2^16 |
| Agents.Agent.New | src/agent.rs:87-89 | the agent gets the counter's current id, the counter advances, cash and inventory are as given |
| Agents.Agent.WithId | src/agent.rs:96-98 | the agent has exactly the given id, cash and inventory |
| Agents.NewIntoMap | src/agent.rs:91-94 | the map gains a fresh agent under the id it carries, the counter advances, other entries stay |
| Agents.Agent.ChooseTrade | src/agent.rs:36-52 | the two loops compute `TradeDecision` of the agent's holding of the good |
| Agents.BuyPhase | src/agent.rs:43-46 | the smallest `t >= 0` with `mu_buy(supply + t) <= price`: every unit before it is worth more than the price |
| Agents.SellPhase | src/agent.rs:48-50 | steps down only while selling is worth less than the price and `supply + t >= 0`, and stops at the first point where either fails |
| Agents.TradeDecision | src/agent.rs:36-52 | every unit bought is worth more than the price, every unit sold is worth less, and the holding can end one unit below zero |
| Agents.SellPhaseCorrected | src/agent.rs:47-50 | the same descent, stepping only while a unit is held |
| Agents.TradeDecisionCorrected | src/agent.rs:42-51 | the same buying and selling rule, and a non-negative holding never ends below zero |
| Agents.Agent.ChooseTask | src/agent.rs:54-61 | an index with maximal key (profit if cost is below cash, else 0), the last among equals; an affordable task with positive profit is chosen whenever one exists |
| Agents.TaskKey | src/agent.rs:56-59 | profit when the cost is below the cash, 0 otherwise |
| AgentFixture.ChooseTradeBuilder | src/agent.rs:247-251 | a fresh agent holding `s` grain decides `TradeDecision` on the test curve |
| AgentFixture.TestBuyPhases | src/agent.rs:43-46 | the first phase's stopping points for the test cases |
| AgentFixture.ChooseTradeFixtures | src/agent.rs:232-240 | the six expected answers of `test_choose_trade1` |
| AgentFixture.CorrectedChooseTradeFixtures | src/agent.rs:232-240 | the corrected decision gives the same six answers |
| AgentFixture.ChooseTradeTest | src/agent.rs:232-240 | running the six builders returns 1, -1, 0, 1, 1, 2 |
| AgentFixture.ChooseTradeOversells | src/agent.rs:48-50 | as written, holding 0 at price 16 sells 1 and holding 1 sells 2; corrected, 0 and 1 |
| Markets.AddSupplyOutcome | src/market.rs:56-64 | accepted exactly when `supply + amt > 0`, then the new supply is returned; otherwise `InsufficientSupply(supply, amt)` and the supply is unchanged |
| Markets.SupplyStaysPositive | src/market.rs:56-64 | from a positive supply, any sequence of `add_supply` calls leaves it positive |
| Markets.TradeOutcome | src/market.rs:17-32 | succeeds exactly when the agent can pay and the supply stays positive; "Insufficient cash" first, then the refused `add_supply`; on success cash drops by the value, holding rises and supply falls by `amt` |
| Markets.TradeConservesGoods | src/market.rs:24-28 | a successful trade keeps holding plus supply constant and moves cash by the value |
| Markets.BuyThenSellRestoresGoods | src/market.rs:34-40 | buying `n` then selling `n` restores holding and supply |
| Markets.TradeFailsOnlyOnPaymentOrExhaustion | src/market.rs:20-31 | a trade fails only for lack of cash or because it would exhaust the supply |
| Markets.LinearMarket.constructor | src/market.rs:48 | the market starts with the given supplies and price curve |
| Markets.LinearMarket.Price | src/market.rs:51-54 | the good's price curve at its current supply for a trade of `amt` units |
| Markets.LinearMarket.Value | src/market.rs:11-13 | price times amount, 0 for an empty trade |
| Markets.LinearMarket.AddSupply | src/market.rs:56-64 | the response and new supply of `AddSupplyOutcome`, only that good's entry changing; a refusal changes nothing |
| Markets.LinearMarket.Trade | src/market.rs:17-32 | agent and market end as `TradeOutcome` says; on failure nothing changes |
| Markets.LinearMarket.Buy | src/market.rs:34-36 | a trade of `amt` units |
| Markets.LinearMarket.Sell | src/market.rs:38-40 | a trade of `-amt` units |
| TaskExecution.ConsumeInput | src/agent.rs:64-71 | buys exactly the shortfall when short, paying its price times the shortfall, and halts exactly when the agent cannot pay or the supply would run out; the input holding ends at `max(owned, amt) - amt`, supply falls by the shortfall, cash is untouched when no purchase is needed, other goods are untouched; a failed purchase changes nothing |
| TaskExecution.ConsumeInputs | src/agent.rs:64-71 | consuming inputs keeps the set of goods in the inventory and in the market |
| TaskExecution.ConsumeOne | src/agent.rs:65-70 | one loop pass leaves agent and market as `ConsumeInput` says, and the agent's id unchanged |
| TaskExecution.ConsumeAll | src/agent.rs:64-71 | the loop over the inputs leaves agent and market as `ConsumeInputs` says, keeps the agent's id, and reports a halt exactly when it halts |
| TaskExecution.PerformTaskOutcome | src/agent.rs:63-74 | halts exactly when consuming the inputs halts; adding the output changes neither cash, supply nor the set of goods held |
| TaskExecution.PerformTask | src/agent.rs:63-74 | agent and market end as `PerformTaskOutcome` says, the agent keeps its id, and a halt is reported exactly where the source panics |
| TaskExecution.ConsumeInputsConserves | src/agent.rs:64-71 | holding plus supply of each good drops by exactly the inputs' demand for it |
| TaskExecution.PerformTaskConserves | src/agent.rs:63-74 | a completed task changes holding plus supply by the output minus the inputs |
| TaskExecution.ConsumeDistinctInputs | src/agent.rs:64-71 | with distinct input goods, each ends at `max(owned, amt) - amt`, the market gives up exactly each shortfall |
| TaskExecution.ConsumeLeavesOthers | src/agent.rs:64-71 | a good no input names keeps its holding and its supply, however the run ends |
| TaskExecution.PerformDistinctTask | src/agent.rs:63-74 | with distinct input goods, each input holding ends at `max(owned, amt) - amt` (plus the output if it is that good), the output rises by exactly its quantity, others unchanged |
| TaskExecution.HaltsOnlyWhenShort | src/agent.rs:66-68 | a run halts only at an input the agent held too little of |

## Left out

- Floating point: the rounded discounting `v * discount^t` of `from_utility` and `from_curr_mu` is an integer parameter `scale`. The truncated `mu * 0.8^i` of `from_market` is a parameter `decay`. `LinearMarket`'s `fn(f64) -> f64` price curve at `supply + amt / 2` is a parameter `priceAt(good, supply, amt)`. The fixtures use exact rational versions of these.
- Integer widths: cash, holdings, supplies and curve values are unbounded integers, so `i16` overflow is not modelled. The mismatches between `i16` and `f64`, and between `u16` and `i16`, are read as integer arithmetic. Only the 16-bit wrap of the id counter is modelled.
- The `Relaxed` atomic id counter is a plain counter object passed explicitly. Concurrency is not modelled.
- `dbg!` output and the always-true `assert!` in `from_market` print or check only.
- `Agent::pre_made` draws holdings from OS entropy and is not modelled. `src/record.rs` (CSV output), `src/main.rs`, `src/lib.rs` and the Python analysis are not part of this model.
- `Task::new` and `Task::value` are not among the modelled files. Tasks are built as values, without the name, and `value` is an abstract `(profit, revenue, cost)` function.
- Of the `Market` trait, only `LinearMarket` is modelled. The default `value`, `trade`, `buy` and `sell` are its methods. The test's `MockMarket` appears only as the value function of the `from_market` fixture. No clearing or price update is implemented in the source.
- Panics are preconditions: a missing map key, an empty curve (`len() - 1` underflows), an empty task list in `choose_task`, a good no task uses in `from_market`, and division by a zero input quantity.
- Agents.Agent.ChooseTrade: requires a non-negative price. With a negative price the first loop in the source ends only if some entry at or after the holding is at or below that price, and otherwise runs forever. Negative prices are therefore excluded.
- Markets.LinearMarket.Trade: requires the agent to hold an entry for the good. In the source, the missing entry panics only after the supply and cash have changed, and that partial state is not modelled.
- TaskExecution.PerformTask: requires every input good to be in the market even when the agent is not short of it, although the source only looks the good up when it buys. A failed purchase, where the source panics on `unwrap`, ends the run with `halted`.
- Agents.Agent.ChooseTask: returns the index of the chosen task rather than a reference to it.
- Agents.NewIntoMap: the map holds references to agent objects, where the Rust map owns agent values. Aliasing between map entries is not modelled.
- The curve builders fill a pre-sized array instead of pushing onto a `Vec`, and they sort it with insertion sort. Only the sorted permutation is specified, and it is unique, so Rust's sort gives the same curve.

## Findings

| source | as written | input that shows it | evidently intended | confidence | as-written member | corrected member |
|---|---|---|---|---|---|---|
| src/agent.rs:48-50 | the guard `to_trade + supply >= 0` is tested before the decrement, so the loop can step one unit past zero holdings | test curve from `[20, 35, 47, 57, 62]`, agent holding 0 grain, price 16: `choose_trade` returns -1 (holding 1: returns -2) | sell only units actually held (`to_trade + supply > 0`), so a non-negative holding never goes negative | not executed; follows from the guard order | AgentFixture.ChooseTradeOversells | Agents.TradeDecisionCorrected |
