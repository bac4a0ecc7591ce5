/** Goods and production recipes (src/goods.rs). */
module Goods {

  /** The closed set of tradable commodities; the derived order puts Food before Grain. */
  datatype Good = Food | Grain

  /** An unsigned 16-bit quantity, as the recipes store them. */
  type U16 = x: int | 0 <= x < 0x1_0000

  /** A recipe's inputs live in an ArrayVec of capacity 4. */
  type Inputs = s: seq<(Good, U16)> | |s| <= 4 witness []

  /** A production recipe: up to four `(good, quantity)` inputs and exactly one output pair. */
  datatype Task = Task(inputs: Inputs, output: (Good, U16))

  /** Position of a good in its declaration, which is what the derived order compares. */
  function Ordinal(g: Good): (n: nat)
    ensures n < 2
    ensures g == Food <==> n == 0
  {
    match g
    case Food => 0
    case Grain => 1
  }

  /** Three-way comparison of two integers (-1, 0 or 1). */
  function CompareInt(a: int, b: int): (c: int)
    ensures c == 0 <==> a == b
    ensures c < 0 <==> a < b
    ensures -1 <= c <= 1
  {
    if a < b then -1 else if a == b then 0 else 1
  }

  /** Derived order on a `(Good, quantity)` pair: good first, then quantity. */
  function ComparePair(a: (Good, U16), b: (Good, U16)): (c: int)
    ensures c == 0 <==> a == b
    ensures -1 <= c <= 1
  {
    var g := CompareInt(Ordinal(a.0), Ordinal(b.0));
    if g != 0 then g else CompareInt(a.1, b.1)
  }

  /** Derived order on input lists: element by element, a proper prefix first. */
  function CompareInputs(a: seq<(Good, U16)>, b: seq<(Good, U16)>): (c: int)
    ensures -1 <= c <= 1
    ensures |a| < |b| && a == b[..|a|] ==> c == -1
    ensures |b| < |a| && b == a[..|b|] ==> c == 1
    ensures |a| > 0 && |b| > 0 && ComparePair(a[0], b[0]) != 0 ==> c == ComparePair(a[0], b[0])
    decreases |a|
  {
    if a == [] && b == [] then 0
    else if a == [] then -1
    else if b == [] then 1
    else
      var h := ComparePair(a[0], b[0]);
      if h != 0 then h
      else
        assert |a| < |b| && a == b[..|a|] ==> a[1..] == b[1..][..|a| - 1];
        assert |b| < |a| && b == a[..|b|] ==> b[1..] == a[1..][..|b| - 1];
        CompareInputs(a[1..], b[1..])
  }

  /** After an equal prefix of length `k`, the first differing pair decides: the order on
      input lists is lexicographic. */
  lemma {:induction false} FirstDifferingDecides(a: seq<(Good, U16)>, b: seq<(Good, U16)>, k: nat)
    requires k < |a| && k < |b| && a[..k] == b[..k] && ComparePair(a[k], b[k]) != 0
    ensures CompareInputs(a, b) == ComparePair(a[k], b[k])
    decreases k
  {
    if k > 0 {
      assert a[0] == a[..k][0] && b[0] == b[..k][0];
      assert a[1..][..k - 1] == a[..k][1..];
      assert b[1..][..k - 1] == b[..k][1..];
      FirstDifferingDecides(a[1..], b[1..], k - 1);
    }
  }

  /** Derived order on tasks: the inputs decide, the output breaks a tie. */
  function CompareTask(a: Task, b: Task): (c: int)
    ensures -1 <= c <= 1
    ensures CompareInputs(a.inputs, b.inputs) != 0 ==> c == CompareInputs(a.inputs, b.inputs)
    ensures a.inputs == b.inputs ==> c == ComparePair(a.output, b.output)
  {
    CompareInputsZeroIffEqual(a.inputs, b.inputs);
    var i := CompareInputs(a.inputs, b.inputs);
    if i != 0 then i else ComparePair(a.output, b.output)
  }

  lemma {:induction false} CompareInputsZeroIffEqual(a: seq<(Good, U16)>, b: seq<(Good, U16)>)
    ensures CompareInputs(a, b) == 0 <==> a == b
    decreases |a|
  {
    if a != [] && b != [] {
      CompareInputsZeroIffEqual(a[1..], b[1..]);
      assert a == [a[0]] + a[1..];
      assert b == [b[0]] + b[1..];
    }
  }

  lemma {:induction false} CompareInputsAntisymmetric(a: seq<(Good, U16)>, b: seq<(Good, U16)>)
    ensures CompareInputs(a, b) == -CompareInputs(b, a)
    decreases |a|
  {
    if a != [] && b != [] {
      CompareInputsAntisymmetric(a[1..], b[1..]);
    }
  }

  lemma {:induction false} CompareInputsTransitive(a: seq<(Good, U16)>, b: seq<(Good, U16)>, c: seq<(Good, U16)>)
    requires CompareInputs(a, b) < 0 && CompareInputs(b, c) < 0
    ensures CompareInputs(a, c) < 0
    decreases |a|
  {
    if a != [] && b != [] && c != [] {
      if ComparePair(a[0], b[0]) == 0 && ComparePair(b[0], c[0]) == 0 {
        CompareInputsTransitive(a[1..], b[1..], c[1..]);
      }
    }
  }

  /** Task equality agrees with the derived order, and the order is antisymmetric. */
  lemma TaskOrderConsistent(a: Task, b: Task)
    ensures CompareTask(a, b) == 0 <==> a == b
    ensures CompareTask(a, b) == -CompareTask(b, a)
  {
    CompareInputsZeroIffEqual(a.inputs, b.inputs);
    CompareInputsAntisymmetric(a.inputs, b.inputs);
  }

  /** The derived strict order on tasks is transitive. */
  lemma TaskOrderTransitive(a: Task, b: Task, c: Task)
    requires CompareTask(a, b) < 0 && CompareTask(b, c) < 0
    ensures CompareTask(a, c) < 0
  {
    CompareInputsZeroIffEqual(a.inputs, b.inputs);
    CompareInputsZeroIffEqual(b.inputs, c.inputs);
    CompareInputsZeroIffEqual(a.inputs, c.inputs);
    if CompareInputs(a.inputs, b.inputs) < 0 && CompareInputs(b.inputs, c.inputs) < 0 {
      CompareInputsTransitive(a.inputs, b.inputs, c.inputs);
    }
  }
}
