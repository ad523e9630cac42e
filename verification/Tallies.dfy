/** Counters as the benchmark uses them: distinct keys in order of first appearance, with their counts. */
module Tallies {

  type Tally = seq<(nat, nat)>

  function Bump(t: Tally, x: nat): Tally {
    if t == [] then [(x, 1)]
    else if t[0].0 == x then [(x, t[0].1 + 1)] + t[1..]
    else [t[0]] + Bump(t[1..], x)
  }

  function Tallied(xs: seq<nat>): Tally {
    if xs == [] then [] else Bump(Tallied(xs[..|xs| - 1]), xs[|xs| - 1])
  }

  /** The sum of count times f(key). */
  function Weigh(t: Tally, f: nat -> nat): nat {
    if t == [] then 0 else t[0].1 * f(t[0].0) + Weigh(t[1..], f)
  }

  function Total(xs: seq<nat>, f: nat -> nat): nat {
    if xs == [] then 0 else Total(xs[..|xs| - 1], f) + f(xs[|xs| - 1])
  }

  lemma {:induction false} BumpWeighs(t: Tally, x: nat, f: nat -> nat)
    ensures Weigh(Bump(t, x), f) == Weigh(t, f) + f(x)
    decreases |t|
  {
    if t == [] {
    } else if t[0].0 == x {
      assert Bump(t, x)[1..] == t[1..];
      assert (t[0].1 + 1) * f(x) == t[0].1 * f(x) + f(x);
    } else {
      assert Bump(t, x)[1..] == Bump(t[1..], x);
      BumpWeighs(t[1..], x, f);
    }
  }

  /** Weighing distinct keys by their counts is summing over the draws one by one. */
  lemma {:induction false} TallyWeighs(xs: seq<nat>, f: nat -> nat)
    ensures Weigh(Tallied(xs), f) == Total(xs, f)
    decreases |xs|
  {
    if xs != [] {
      TallyWeighs(xs[..|xs| - 1], f);
      BumpWeighs(Tallied(xs[..|xs| - 1]), xs[|xs| - 1], f);
    }
  }

  predicate KeysBelow(t: Tally, n: nat) {
    forall e | e in t :: e.0 < n
  }

  lemma {:induction false} BumpStaysBelow(t: Tally, x: nat, n: nat)
    requires KeysBelow(t, n) && x < n
    ensures KeysBelow(Bump(t, x), n)
    decreases |t|
  {
    if t != [] && t[0].0 != x {
      BumpStaysBelow(t[1..], x, n);
    }
  }

  lemma {:induction false} TallyStaysBelow(xs: seq<nat>, n: nat)
    requires forall i | 0 <= i < |xs| :: xs[i] < n
    ensures KeysBelow(Tallied(xs), n)
    decreases |xs|
  {
    if xs != [] {
      TallyStaysBelow(xs[..|xs| - 1], n);
      BumpStaysBelow(Tallied(xs[..|xs| - 1]), xs[|xs| - 1], n);
    }
  }

  /** Counts occurrences of one key. */
  function Is(c: nat): nat -> nat {
    x => if x == c then 1 else 0
  }

  lemma {:induction false} TotalJoins(xs: seq<nat>, ys: seq<nat>, f: nat -> nat)
    ensures Total(xs + ys, f) == Total(xs, f) + Total(ys, f)
    decreases |ys|
  {
    if ys == [] {
      assert xs + ys == xs;
    } else {
      assert (xs + ys)[..|xs + ys| - 1] == xs + ys[..|ys| - 1];
      TotalJoins(xs, ys[..|ys| - 1], f);
    }
  }

  lemma {:induction false} TotalAgrees(xs: seq<nat>, f: nat -> nat, g: nat -> nat)
    requires forall x | x in xs :: f(x) == g(x)
    ensures Total(xs, f) == Total(xs, g)
    decreases |xs|
  {
    if xs != [] {
      TotalAgrees(xs[..|xs| - 1], f, g);
    }
  }
}
