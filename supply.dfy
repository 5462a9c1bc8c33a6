/** Summing the amounts bound to a multi-valued global. */
module Supply {

  /** The sum of the amounts of a list of values, added in list order
      (a fold from zero, as an iterator sum adds them). */
  function Sum<V>(values: seq<V>, amount: V -> nat): nat {
    if |values| == 0 then 0 else Sum(values[..|values| - 1], amount) + amount(values[|values| - 1])
  }

  /** The sum over two lists laid end to end is the sum of their sums. */
  lemma {:induction false} SumAppend<V>(a: seq<V>, b: seq<V>, amount: V -> nat)
    ensures Sum(a + b, amount) == Sum(a, amount) + Sum(b, amount)
    decreases |b|
  {
    if |b| == 0 {
      assert a + b == a;
    } else {
      var init := b[..|b| - 1];
      assert (a + b)[..|a + b| - 1] == a + init;
      assert (a + b)[|a + b| - 1] == b[|b| - 1];
      SumAppend(a, init, amount);
    }
  }

  /** A single value sums to its own amount. */
  lemma SumSingleton<V>(x: V, amount: V -> nat)
    ensures Sum([x], amount) == amount(x)
  {
  }

  /** Every value's amount is at most the sum. */
  lemma {:induction false} SumBoundsEach<V>(values: seq<V>, amount: V -> nat, k: nat)
    requires k < |values|
    ensures amount(values[k]) <= Sum(values, amount)
    decreases |values|
  {
    if k < |values| - 1 {
      SumBoundsEach(values[..|values| - 1], amount, k);
    }
  }

  /** The sum does not depend on the order of the values. */
  lemma {:induction false} SumPermutation<V>(a: seq<V>, b: seq<V>, amount: V -> nat)
    requires multiset(a) == multiset(b)
    ensures Sum(a, amount) == Sum(b, amount)
    decreases |a|
  {
    if |a| == 0 {
      assert |b| == |multiset(b)| == 0;
    } else {
      var x := a[|a| - 1];
      var a' := a[..|a| - 1];
      assert a == a' + [x];
      assert x in multiset(b);
      var i :| 0 <= i < |b| && b[i] == x;
      var b' := b[..i] + b[i + 1..];
      assert b == b[..i] + [x] + b[i + 1..];
      assert multiset(b') == multiset(b) - multiset{x};
      assert multiset(a') == multiset(a) - multiset{x};
      SumPermutation(a', b', amount);
      SumAppend(b[..i] + [x], b[i + 1..], amount);
      SumAppend(b[..i], [x], amount);
      SumAppend(b[..i], b[i + 1..], amount);
      SumSingleton(x, amount);
    }
  }
}
