/** The marginal-utility curve `MU` of src/agent.rs: a table of `(marginal value, tier)` entries,
    sorted in descending order, that an agent consults to decide how much of a good to buy,
    sell or consume. Tier 0 is the value of a unit used now; tiers 1..4 are the same value
    deferred by 1..4 periods and scaled down by a discount. */
module MarginalUtility {
  import opened Goods

  /** The tier tag is stored as a `u8`. */
  type U8 = x: int | 0 <= x < 0x100

  /** One curve entry: a marginal value and its tier. */
  type Entry = (int, U8)

  /** The number of tiers each base value is expanded into. */
  const TierCount: nat := 5

  /** `a` comes no earlier than `b` in the tuple order (value first, then tier). */
  predicate AtMost(a: Entry, b: Entry)
  {
    a.0 < b.0 || (a.0 == b.0 && a.1 <= b.1)
  }

  /** Sorted by `Reverse((value, tier))`: each entry is at least every later one. */
  predicate SortedDesc(s: seq<Entry>)
  {
    forall i, j :: 0 <= i < j < |s| ==> AtMost(s[j], s[i])
  }

  /** Tier `t` of base value `v`: tier 0 is `v` itself, a later tier is `scale(v, t)`,
      which stands for rounding `v * discount^t`. */
  function TierEntry(v: int, t: U8, scale: (int, int) -> int): (e: Entry)
    ensures e.1 == t
    ensures t == 0 ==> e.0 == v
  {
    (if t == 0 then v else scale(v, t), t)
  }

  /** The five entries one base value contributes, in push order. */
  function Block(v: int, scale: (int, int) -> int): (r: seq<Entry>)
    ensures |r| == TierCount && r[0] == (v, 0)
    ensures forall k :: 0 <= k < |r| ==> r[k].1 == k
  {
    [TierEntry(v, 0, scale), TierEntry(v, 1, scale), TierEntry(v, 2, scale),
     TierEntry(v, 3, scale), TierEntry(v, 4, scale)]
  }

  /** All entries pushed for `vals`, in push order (before sorting). */
  function Expand(vals: seq<int>, scale: (int, int) -> int): (r: seq<Entry>)
    ensures |r| == TierCount * |vals|
    decreases |vals|
  {
    if vals == [] then [] else Expand(vals[..|vals| - 1], scale) + Block(vals[|vals| - 1], scale)
  }

  /** Consecutive differences of a utility table: the marginal utility of each extra unit. */
  function Marginals(u: seq<int>): (m: seq<int>)
    requires |u| >= 1
  {
    seq(|u| - 1, i requires 0 <= i < |u| - 1 => u[i + 1] - u[i])
  }

  /** The value column of a curve. */
  function Values(mu: seq<Entry>): seq<int>
  {
    seq(|mu|, i requires 0 <= i < |mu| => mu[i].0)
  }

  /** Number of entries of `s` tagged with tier `t`. */
  function CountTier(s: seq<Entry>, t: int): (n: nat)
    ensures n <= |s|
    decreases |s|
  {
    if s == [] then 0
    else CountTier(s[..|s| - 1], t) + (if s[|s| - 1].1 == t then 1 else 0)
  }

  /** Prefix sums of `ds` starting from `u0`. */
  function Accumulate(u0: int, ds: seq<int>): (r: seq<int>)
    ensures |r| == |ds| + 1
    decreases |ds|
  {
    if ds == [] then [u0]
    else
      var prefix := Accumulate(u0, ds[..|ds| - 1]);
      prefix + [prefix[|ds| - 1] + ds[|ds| - 1]]
  }

  // ---------------------------------------------------------------------------------------
  // Queries
  // ---------------------------------------------------------------------------------------

  /** `mu_buy`: marginal utility of acquiring one more unit when holding `supply`.
      The source compares `supply as usize` with `len() - 1`, so a negative supply wraps to a
      huge index and also yields 0; an empty curve underflows `len() - 1` and panics. */
  function MuBuy(mu: seq<Entry>, supply: int): (r: int)
    requires |mu| > 0
    ensures 0 <= supply < |mu| ==> r == mu[supply].0
    ensures !(0 <= supply < |mu|) ==> r == 0
  {
    if supply < 0 || supply > |mu| - 1 then 0 else mu[supply].0
  }

  /** `mu_sell`: marginal utility of giving up one unit when holding `supply`. The same
      bound as `mu_buy` applies, so `supply == len()` already yields 0. */
  function MuSell(mu: seq<Entry>, supply: int): (r: int)
    requires |mu| > 0
    ensures 1 <= supply < |mu| ==> r == mu[supply - 1].0
    ensures !(1 <= supply < |mu|) ==> r == 0
  {
    if supply < 0 || supply > |mu| - 1 || supply == 0 then 0 else mu[supply - 1].0
  }

  /** Selling at `supply` is buying at `supply - 1` inside the curve; at both ends it is 0. */
  lemma SellIsPrecedingBuy(mu: seq<Entry>, supply: int)
    requires |mu| > 0
    ensures 1 <= supply < |mu| ==> MuSell(mu, supply) == MuBuy(mu, supply - 1)
    ensures MuSell(mu, 0) == 0 && MuSell(mu, |mu|) == 0
  {
  }

  /** On a descending curve, the unit given up is worth at least the unit that would be gained. */
  lemma SellAtLeastBuy(mu: seq<Entry>, supply: int)
    requires |mu| > 0 && SortedDesc(mu)
    requires 1 <= supply < |mu|
    ensures MuSell(mu, supply) >= MuBuy(mu, supply)
  {
    assert AtMost(mu[supply], mu[supply - 1]);
  }

  /** On a descending curve, buying values do not increase with holdings inside the curve. */
  lemma BuyNonIncreasing(mu: seq<Entry>, s: int, s': int)
    requires |mu| > 0 && SortedDesc(mu)
    requires 0 <= s <= s' < |mu|
    ensures MuBuy(mu, s') <= MuBuy(mu, s)
  {
    if s < s' {
      assert AtMost(mu[s'], mu[s]);
    }
  }

  /** `utility`: reconstructs the cumulative utility table from `u0` by pushing prefix sums. */
  method Utility(mu: seq<Entry>, u0: int) returns (util: seq<int>)
    ensures util == Accumulate(u0, Values(mu))
    ensures |util| == |mu| + 1 && util[0] == u0
    ensures forall i :: 0 <= i < |mu| ==> util[i + 1] == util[i] + mu[i].0
  {
    util := [u0];
    for i := 0 to |mu|
      invariant util == Accumulate(u0, Values(mu)[..i])
    {
      assert Values(mu)[..i + 1][..i] == Values(mu)[..i];
      util := util + [util[i] + mu[i].0];
    }
    assert Values(mu)[..|mu|] == Values(mu);
    AccumulateMarginals(u0, Values(mu));
    forall i | 0 <= i < |mu| ensures util[i + 1] == util[i] + mu[i].0 {
      assert Marginals(util)[i] == Values(mu)[i];
    }
  }

  /** Prefix sums start at `u0` and their consecutive differences give back the deltas. */
  lemma {:induction false} AccumulateMarginals(u0: int, ds: seq<int>)
    ensures Accumulate(u0, ds)[0] == u0
    ensures Marginals(Accumulate(u0, ds)) == ds
    decreases |ds|
  {
    if ds != [] {
      AccumulateMarginals(u0, ds[..|ds| - 1]);
    }
  }

  /** A utility table is recovered from its first level and its marginal utilities. */
  lemma {:induction false} MarginalsAccumulate(u: seq<int>)
    requires |u| >= 1
    ensures Accumulate(u[0], Marginals(u)) == u
    decreases |u|
  {
    if |u| > 1 {
      var init := u[..|u| - 1];
      MarginalsAccumulate(init);
      assert Marginals(u)[..|u| - 2] == Marginals(init);
      assert u == init + [u[|u| - 1]];
    }
  }

  /** The length of the curve prefix that `mu_consume` scans for a given supply. */
  function ScannedLength(len: nat, supply: int): (n: nat)
    ensures n <= len
    ensures supply <= 0 ==> n == 0
    ensures n <= supply || n == 0
  {
    if supply <= 0 then 0 else if supply < len then supply else len
  }

  /** `mu_consume`: walks the sorted curve, counting a tier-0 entry as a unit to consume now and
      any later tier as a unit to save, until `supply` units are allocated or the curve ends. */
  method MuConsume(mu: seq<Entry>, supply: int) returns (toConsume: int)
    ensures toConsume == CountTier(mu[..ScannedLength(|mu|, supply)], 0)
    ensures 0 <= toConsume <= ScannedLength(|mu|, supply)
    ensures supply <= 0 ==> toConsume == 0
  {
    toConsume := 0;
    var toSave := 0;
    var k := 0;
    while k < |mu|
      invariant 0 <= k <= |mu|
      invariant toSave + toConsume == k
      invariant toConsume == CountTier(mu[..k], 0)
      invariant k == 0 || k <= supply
    {
      if toSave + toConsume >= supply {
        break;
      } else if mu[k].1 > 0 {
        toSave := toSave + 1;
      } else {
        toConsume := toConsume + 1;
      }
      assert mu[..k + 1][..k] == mu[..k];
      k := k + 1;
    }
    assert k == ScannedLength(|mu|, supply);
  }

  // ---------------------------------------------------------------------------------------
  // Builders
  // ---------------------------------------------------------------------------------------

  /** The five pushes of one loop iteration, into a buffer sized for all of them. */
  method PushTiers(a: array<Entry>, i: nat, v: int, scale: (int, int) -> int)
    requires TierCount * i + TierCount <= a.Length
    modifies a
    ensures a[..TierCount * i] == old(a[..TierCount * i])
    ensures a[TierCount * i + TierCount..] == old(a[TierCount * i + TierCount..])
    ensures a[TierCount * i..TierCount * i + TierCount] == Block(v, scale)
  {
    var p := TierCount * i;
    a[p] := TierEntry(v, 0, scale);
    a[p + 1] := TierEntry(v, 1, scale);
    a[p + 2] := TierEntry(v, 2, scale);
    a[p + 3] := TierEntry(v, 3, scale);
    a[p + 4] := TierEntry(v, 4, scale);
  }

  /** `sort_by_key(|&x| Reverse(x))`, in place, as an insertion sort. */
  method SortDescending(a: array<Entry>)
    modifies a
    ensures SortedDesc(a[..])
    ensures multiset(a[..]) == multiset(old(a[..]))
  {
    var i := 0;
    while i < a.Length
      invariant 0 <= i <= a.Length
      invariant SortedDesc(a[..i])
      invariant multiset(a[..]) == multiset(old(a[..]))
    {
      InsertLast(a, i);
      i := i + 1;
    }
    assert a[..a.Length] == a[..];
  }

  /** One pass of the insertion sort: sinks `a[i]` into the sorted prefix `a[..i]`. */
  method InsertLast(a: array<Entry>, i: int)
    requires 0 <= i < a.Length && SortedDesc(a[..i])
    modifies a
    ensures SortedDesc(a[..i + 1])
    ensures multiset(a[..]) == multiset(old(a[..]))
    ensures a[i + 1..] == old(a[i + 1..])
  {
    var j := i;
    while j > 0 && !AtMost(a[j], a[j - 1])
      invariant 0 <= j <= i
      invariant forall p, q :: 0 <= p < q <= i && p != j && q != j ==> AtMost(a[q], a[p])
      invariant forall q :: j < q <= i ==> AtMost(a[q], a[j])
      invariant multiset(a[..]) == multiset(old(a[..]))
      invariant a[i + 1..] == old(a[i + 1..])
    {
      a[j - 1], a[j] := a[j], a[j - 1];
      j := j - 1;
    }
  }

  /** `from_curr_mu`: five tiered entries per given marginal value, sorted descending. */
  method FromCurrMu(currMu: seq<int>, scale: (int, int) -> int) returns (mu: seq<Entry>)
    ensures |mu| == TierCount * |currMu|
    ensures SortedDesc(mu)
    ensures multiset(mu) == multiset(Expand(currMu, scale))
    ensures forall t :: 0 <= t < TierCount ==> CountTier(mu, t) == |currMu|
    ensures forall i :: 0 <= i < |currMu| ==> (currMu[i], 0) in mu
  {
    var a := new Entry[TierCount * |currMu|];
    for i := 0 to |currMu|
      invariant a[..TierCount * i] == Expand(currMu[..i], scale)
    {
      PushTiers(a, i, currMu[i], scale);
      assert currMu[..i + 1][..i] == currMu[..i];
      assert a[..TierCount * (i + 1)] == a[..TierCount * i] + a[TierCount * i..TierCount * i + TierCount];
    }
    assert a[..] == Expand(currMu, scale) by {
      assert currMu[..|currMu|] == currMu;
      assert a[..] == a[..TierCount * |currMu|];
    }
    SortDescending(a);
    mu := a[..];
    ExpansionFacts(mu, currMu, scale);
    BaseEntriesKept(mu, currMu, scale);
  }

  /** `from_utility`: the marginal utility `u[i + 1] - u[i]` of each step of the utility table,
      five tiered entries per step, sorted descending. The source sizes its buffer with
      `u.len() - 1`, which underflows on an empty table. */
  method FromUtility(u: seq<int>, scale: (int, int) -> int) returns (mu: seq<Entry>)
    requires |u| >= 1
    ensures |mu| == TierCount * (|u| - 1)
    ensures SortedDesc(mu)
    ensures multiset(mu) == multiset(Expand(Marginals(u), scale))
    ensures forall t :: 0 <= t < TierCount ==> CountTier(mu, t) == |u| - 1
    ensures forall i :: 0 <= i < |u| - 1 ==> (u[i + 1] - u[i], 0) in mu
  {
    var a := new Entry[TierCount * (|u| - 1)];
    PushMarginals(a, u, scale);
    SortDescending(a);
    mu := a[..];
    ExpansionFacts(mu, Marginals(u), scale);
    BaseEntriesKept(mu, Marginals(u), scale);
    StepEntriesKept(mu, u);
  }

  /** The pushing loop of `from_utility`: the five tiers of each step `u[i + 1] - u[i]`. */
  method PushMarginals(a: array<Entry>, u: seq<int>, scale: (int, int) -> int)
    requires |u| >= 1 && a.Length == TierCount * (|u| - 1)
    modifies a
    ensures a[..] == Expand(Marginals(u), scale)
  {
    ghost var marginals := Marginals(u);
    for i := 0 to |u| - 1
      invariant a[..TierCount * i] == Expand(marginals[..i], scale)
    {
      var cur := u[i + 1] - u[i];
      assert cur == marginals[i];
      PushTiers(a, i, cur, scale);
      assert marginals[..i + 1][..i] == marginals[..i];
      assert a[..TierCount * (i + 1)] == a[..TierCount * i] + a[TierCount * i..TierCount * i + TierCount];
    }
    assert marginals[..|u| - 1] == marginals;
    assert a[..] == a[..TierCount * (|u| - 1)];
  }

  /** What any reordering of the pushed entries keeps: the size and one entry per tier for
      every base value. */
  lemma ExpansionFacts(mu: seq<Entry>, vals: seq<int>, scale: (int, int) -> int)
    requires multiset(mu) == multiset(Expand(vals, scale))
    ensures |mu| == TierCount * |vals|
    ensures forall t :: 0 <= t < TierCount ==> CountTier(mu, t) == |vals|
  {
    assert |multiset(mu)| == |mu|;
    forall t | 0 <= t < TierCount ensures CountTier(mu, t) == |vals| {
      CountTierPermutation(mu, Expand(vals, scale), t);
      ExpandTierCount(vals, scale, t);
    }
  }

  /** Any reordering of the pushed entries still holds each base value as a tier-0 entry. */
  lemma BaseEntryKept(mu: seq<Entry>, vals: seq<int>, scale: (int, int) -> int, i: int)
    requires multiset(mu) == multiset(Expand(vals, scale))
    requires 0 <= i < |vals|
    ensures (vals[i], 0) in mu
  {
    ExpandHasBase(vals, scale, i);
    assert (vals[i], 0) in multiset(Expand(vals, scale));
  }

  /** `BaseEntryKept` for every base value at once. */
  lemma BaseEntriesKept(mu: seq<Entry>, vals: seq<int>, scale: (int, int) -> int)
    requires multiset(mu) == multiset(Expand(vals, scale))
    ensures forall i :: 0 <= i < |vals| ==> (vals[i], 0) in mu
  {
    forall i | 0 <= i < |vals| ensures (vals[i], 0) in mu {
      BaseEntryKept(mu, vals, scale, i);
    }
  }

  /** The tier-0 entries kept for the marginals of a utility table are its steps `u[i + 1] - u[i]`. */
  lemma StepEntriesKept(mu: seq<Entry>, u: seq<int>)
    requires |u| >= 1
    requires forall i :: 0 <= i < |u| - 1 ==> (Marginals(u)[i], 0) in mu
    ensures forall i :: 0 <= i < |u| - 1 ==> (u[i + 1] - u[i], 0) in mu
  {
    forall i | 0 <= i < |u| - 1 ensures (u[i + 1] - u[i], 0) in mu {
      assert (Marginals(u)[i], 0) in mu;
    }
  }

  lemma {:induction false} CountTierAppend(a: seq<Entry>, b: seq<Entry>, t: int)
    ensures CountTier(a + b, t) == CountTier(a, t) + CountTier(b, t)
    decreases |b|
  {
    if b == [] {
      assert a + b == a;
    } else {
      CountTierAppend(a, b[..|b| - 1], t);
      assert (a + b)[..|a + b| - 1] == a + b[..|b| - 1];
    }
  }

  /** The number of entries of a tier depends only on the multiset of entries. */
  lemma {:induction false} CountTierPermutation(s: seq<Entry>, u: seq<Entry>, t: int)
    requires multiset(s) == multiset(u)
    ensures CountTier(s, t) == CountTier(u, t)
    decreases |s|
  {
    if |s| == 0 {
      assert |multiset(u)| == |u|;
    } else {
      var x := s[|s| - 1];
      var s' := s[..|s| - 1];
      assert s == s' + [x];
      assert x in multiset(u) by {
        assert x in multiset(s);
      }
      var j :| 0 <= j < |u| && u[j] == x;
      var u' := u[..j] + u[j + 1..];
      assert multiset(s') == multiset(u') by {
        assert u == u[..j] + [x] + u[j + 1..];
        assert multiset(u') == multiset(u) - multiset{x};
        assert multiset(s') == multiset(s) - multiset{x};
      }
      CountTierPermutation(s', u', t);
      var one := if x.1 == t then 1 else 0;
      assert CountTier(s, t) == CountTier(s', t) + one;
      assert CountTier(u, t) == CountTier(u', t) + one by {
        assert u == (u[..j] + [x]) + u[j + 1..];
        CountTierAppend(u[..j] + [x], u[j + 1..], t);
        CountTierAppend(u[..j], [x], t);
        CountTierAppend(u[..j], u[j + 1..], t);
        assert CountTier([x], t) == one by {
          assert |[x][..0]| == 0;
        }
      }
    }
  }


  /** Every base value contributes exactly one entry to each of the five tiers. */
  lemma {:induction false} ExpandTierCount(vals: seq<int>, scale: (int, int) -> int, t: int)
    requires 0 <= t < TierCount
    ensures CountTier(Expand(vals, scale), t) == |vals|
    decreases |vals|
  {
    if vals != [] {
      var init := vals[..|vals| - 1];
      ExpandTierCount(init, scale, t);
      var b := Block(vals[|vals| - 1], scale);
      CountTierAppend(Expand(init, scale), b, t);
      assert CountTier(b[..1], t) == (if t == 0 then 1 else 0);
      assert CountTier(b[..2], t) == (if t <= 1 then 1 else 0);
      assert b[..3][..2] == b[..2];
      assert CountTier(b[..3], t) == (if t <= 2 then 1 else 0);
      assert b[..4][..3] == b[..3];
      assert CountTier(b[..4], t) == (if t <= 3 then 1 else 0);
      assert b[..5] == b && b[..4] == b[..|b| - 1];
    }
  }

  /** The tier-0 entry of each base value is the value itself. */
  lemma {:induction false} ExpandHasBase(vals: seq<int>, scale: (int, int) -> int, i: int)
    requires 0 <= i < |vals|
    ensures (vals[i], 0) in Expand(vals, scale)
    decreases |vals|
  {
    var init := vals[..|vals| - 1];
    if i == |vals| - 1 {
      assert Block(vals[i], scale)[0] == (vals[i], 0);
    } else {
      ExpandHasBase(init, scale, i);
    }
  }

  // ---------------------------------------------------------------------------------------
  // A curve derived from the market value of production
  // ---------------------------------------------------------------------------------------

  /** Rust's integer `/`, which truncates toward zero. */
  function TruncDiv(a: int, b: int): (q: int)
    requires b > 0
    ensures a >= 0 ==> 0 <= a - b * q < b
    ensures a < 0 ==> -b < a - b * q <= 0
  {
    if a >= 0 then a / b else -((-a) / b)
  }

  /** `t` lists `good` among its inputs. */
  predicate UsesGood(t: Task, good: Good)
  {
    exists k :: 0 <= k < |t.inputs| && t.inputs[k].0 == good
  }

  /** Position of the first input pair of `good`. */
  function FirstInputIndex(ins: seq<(Good, U16)>, good: Good): (k: nat)
    requires exists j :: 0 <= j < |ins| && ins[j].0 == good
    ensures k < |ins| && ins[k].0 == good
    ensures forall j :: 0 <= j < k ==> ins[j].0 != good
    decreases |ins|
  {
    if ins[0].0 == good then 0
    else
      assert exists j :: 0 <= j < |ins[1..]| && ins[1..][j].0 == good by {
        var j :| 0 <= j < |ins| && ins[j].0 == good;
        assert ins[1..][j - 1].0 == good;
      }
      1 + FirstInputIndex(ins[1..], good)
  }

  /** Quantity of the first input pair of `good` in `t`. */
  function FirstInputQuantity(t: Task, good: Good): U16
    requires UsesGood(t, good)
  {
    t.inputs[FirstInputIndex(t.inputs, good)].1
  }

  /** The source divides by that quantity, which panics when it is 0. */
  predicate DividesSafely(tasks: seq<Task>, good: Good)
  {
    forall j :: 0 <= j < |tasks| && UsesGood(tasks[j], good) ==> FirstInputQuantity(tasks[j], good) > 0
  }

  /** Per-unit value of `good` when spent on task `j`: the output's market value divided by
      the quantity of `good` the task consumes. */
  function ImpliedValue(value: (Good, int) -> int, tasks: seq<Task>, good: Good, j: int): (r: int)
    requires 0 <= j < |tasks| && DividesSafely(tasks, good) && UsesGood(tasks[j], good)
    ensures var q: int, w := FirstInputQuantity(tasks[j], good), value(tasks[j].output.0, tasks[j].output.1);
      && (w >= 0 ==> 0 <= w - q * r < q)
      && (w < 0 ==> -q < w - q * r <= 0)
  {
    TruncDiv(value(tasks[j].output.0, tasks[j].output.1), FirstInputQuantity(tasks[j], good))
  }

  /** Among the tasks before `n` that use `good`, the one `filter` followed by `max_by_key`
      picks (-1 when there is none): no user has a higher implied value, and every later user
      has a strictly lower one. */
  function BestUseBefore(value: (Good, int) -> int, tasks: seq<Task>, good: Good, n: nat): (i: int)
    requires n <= |tasks|
    requires DividesSafely(tasks, good)
    ensures -1 <= i < n
    ensures i == -1 <==> forall j :: 0 <= j < n ==> !UsesGood(tasks[j], good)
    ensures i >= 0 ==> UsesGood(tasks[i], good)
    ensures i >= 0 ==> forall j :: 0 <= j < n && UsesGood(tasks[j], good) ==>
      ImpliedValue(value, tasks, good, j) <= ImpliedValue(value, tasks, good, i)
    ensures i >= 0 ==> forall j :: i < j < n && UsesGood(tasks[j], good) ==>
      ImpliedValue(value, tasks, good, j) < ImpliedValue(value, tasks, good, i)
  {
    if n == 0 then -1
    else
      var best := BestUseBefore(value, tasks, good, n - 1);
      if !UsesGood(tasks[n - 1], good) then best
      else if best == -1 then n - 1
      else if ImpliedValue(value, tasks, good, best) <= ImpliedValue(value, tasks, good, n - 1) then n - 1
      else best
  }

  /** The task whose implied value `from_market` uses. */
  function BestUseIndex(value: (Good, int) -> int, tasks: seq<Task>, good: Good): (i: nat)
    requires exists j :: 0 <= j < |tasks| && UsesGood(tasks[j], good)
    requires DividesSafely(tasks, good)
    ensures i < |tasks| && UsesGood(tasks[i], good)
    ensures forall j :: 0 <= j < |tasks| && UsesGood(tasks[j], good) ==>
      ImpliedValue(value, tasks, good, j) <= ImpliedValue(value, tasks, good, i)
    ensures forall j :: i < j < |tasks| && UsesGood(tasks[j], good) ==>
      ImpliedValue(value, tasks, good, j) < ImpliedValue(value, tasks, good, i)
  {
    BestUseBefore(value, tasks, good, |tasks|)
  }

  /** `n` copies of `e`. */
  function Repeat(e: Entry, n: nat): (r: seq<Entry>)
    ensures |r| == n && forall k :: 0 <= k < n ==> r[k] == e
  {
    seq(n, _ => e)
  }

  /** `from_market`: the marginal value of a production input is its best use. The curve holds
      three tiers of that value (the value itself, then `decay(value, 1)` and `decay(value, 2)`,
      standing for truncating `value * 0.8^i`), each repeated once per unit the best task
      consumes. With no task using `good` the source unwraps `None` and panics. */
  function FromMarket(value: (Good, int) -> int, tasks: seq<Task>, good: Good, decay: (int, int) -> int)
    : (r: seq<Entry>)
    requires exists j :: 0 <= j < |tasks| && UsesGood(tasks[j], good)
    requires DividesSafely(tasks, good)
    ensures var i := BestUseIndex(value, tasks, good);
            var q := FirstInputQuantity(tasks[i], good);
            && |r| == 3 * q
            && (forall k :: 0 <= k < q ==> r[k] == (ImpliedValue(value, tasks, good, i), 0))
            && (forall k :: q <= k < 2 * q ==> r[k] == TierEntry(ImpliedValue(value, tasks, good, i), 1, decay))
            && (forall k :: 2 * q <= k < 3 * q ==> r[k] == TierEntry(ImpliedValue(value, tasks, good, i), 2, decay))
  {
    var i := BestUseIndex(value, tasks, good);
    var mu := ImpliedValue(value, tasks, good, i);
    var q := FirstInputQuantity(tasks[i], good);
    Repeat(TierEntry(mu, 0, decay), q) + Repeat(TierEntry(mu, 1, decay), q) + Repeat(TierEntry(mu, 2, decay), q)
  }

  // ---------------------------------------------------------------------------------------
  // A sorted curve is determined by its entries
  // ---------------------------------------------------------------------------------------

  /** A sequence in which each entry is at most its predecessor is sorted descending. */
  lemma {:induction false} AdjacentDescIsSorted(s: seq<Entry>)
    requires forall k :: 0 <= k < |s| - 1 ==> AtMost(s[k + 1], s[k])
    ensures SortedDesc(s)
    decreases |s|
  {
    if |s| > 1 {
      AdjacentDescIsSorted(s[1..]);
      forall j | 1 <= j < |s| ensures AtMost(s[j], s[0]) {
        assert AtMost(s[1..][j - 1], s[1..][0]) || j == 1;
      }
    }
  }

  /** Two descending sequences with the same entries are equal: sorting has one result. */
  lemma {:induction false} SortedPermutationsEqual(a: seq<Entry>, b: seq<Entry>)
    requires SortedDesc(a) && SortedDesc(b)
    requires multiset(a) == multiset(b)
    ensures a == b
    decreases |a|
  {
    assert |multiset(a)| == |a| && |multiset(b)| == |b|;
    if a != [] {
      SortedPermutationsSameHead(a, b);
      SameHeadTails(a, b);
      SortedTail(a);
      SortedTail(b);
      SortedPermutationsEqual(a[1..], b[1..]);
      assert a == [a[0]] + a[1..] && b == [b[0]] + b[1..];
    }
  }

  /** Two descending orders of the same entries start with the same, greatest, entry. */
  lemma SortedPermutationsSameHead(a: seq<Entry>, b: seq<Entry>)
    requires SortedDesc(a) && SortedDesc(b)
    requires multiset(a) == multiset(b) && |a| > 0
    ensures |b| > 0 && a[0] == b[0]
  {
    assert a[0] in multiset(b);
    var j :| 0 <= j < |b| && b[j] == a[0];
    assert AtMost(a[0], b[0]);
    assert b[0] in multiset(a);
    var k :| 0 <= k < |a| && a[k] == b[0];
    assert AtMost(b[0], a[0]);
  }

  /** Removing an equal head from two permutations of each other leaves permutations. */
  lemma SameHeadTails(a: seq<Entry>, b: seq<Entry>)
    requires multiset(a) == multiset(b) && |a| > 0 && |b| > 0 && a[0] == b[0]
    ensures multiset(a[1..]) == multiset(b[1..])
  {
    assert a == [a[0]] + a[1..] && b == [b[0]] + b[1..];
    assert multiset(a[1..]) == multiset(a) - multiset{a[0]};
    assert multiset(b[1..]) == multiset(b) - multiset{a[0]};
  }

  /** The tail of a descending sequence is descending. */
  lemma SortedTail(a: seq<Entry>)
    requires SortedDesc(a) && |a| > 0
    ensures SortedDesc(a[1..])
  {
    forall i, j | 0 <= i < j < |a| - 1 ensures AtMost(a[1..][j], a[1..][i]) {
      assert AtMost(a[j + 1], a[i + 1]);
    }
  }


}
