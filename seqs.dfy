/**
 * Sequence helpers shared by the output model: the window of an iterator's
 * `skip(n).take(m)`, and the stream of characters a sequence of `write!`
 * calls produces.
 */
module Seqs {
  import opened Wrappers

  function Min(a: nat, b: nat): nat {
    if a <= b then a else b
  }

  lemma Assoc<T>(a: seq<T>, b: seq<T>, c: seq<T>)
    ensures a + b + c == a + (b + c)
  {
  }

  /** `iter().skip(skip).take(take)`, on characters or on lines. */
  function Window<T>(s: seq<T>, skip: nat, take: nat): (r: seq<T>)
    ensures |r| == if skip >= |s| then 0 else Min(take, |s| - skip)
    ensures forall i :: 0 <= i < |r| ==> r[i] == s[skip + i]
  {
    if skip >= |s| then [] else s[skip..skip + Min(take, |s| - skip)]
  }

  /** The characters a sequence of writes puts on the stream, in order. */
  function Flatten(writes: seq<string>): string
    decreases |writes|
  {
    if |writes| == 0 then "" else Flatten(writes[..|writes| - 1]) + writes[|writes| - 1]
  }

  /** Writing a, then b, puts a's characters and then b's on the stream. */
  lemma {:induction false} FlattenAppend(a: seq<string>, b: seq<string>)
    ensures Flatten(a + b) == Flatten(a) + Flatten(b)
    decreases |b|
  {
    if |b| == 0 {
      assert a + b == a;
    } else {
      var n := |b| - 1;
      assert (a + b)[..|a + b| - 1] == a + b[..n];
      FlattenAppend(a, b[..n]);
      Assoc(Flatten(a), Flatten(b[..n]), b[n]);
    }
  }

  /**
   * The outputs of a loop over xs that produces f(i, xs[i]) for each index i,
   * in order.
   */
  function ConcatMap<T, U>(xs: seq<T>, f: (nat, T) -> seq<U>): seq<U>
    decreases |xs|
  {
    if |xs| == 0 then []
    else
      var n := |xs| - 1;
      ConcatMap(xs[..n], f) + f(n, xs[n])
  }

  /** The loop's step: after the outputs of the first j elements, those of element j. */
  lemma ConcatMapStep<T, U>(xs: seq<T>, j: nat, f: (nat, T) -> seq<U>, base: seq<U>, done: seq<U>, out: seq<U>)
    requires j < |xs|
    requires done == base + ConcatMap(xs[..j], f)
    requires out == done + f(j, xs[j])
    ensures out == base + ConcatMap(xs[..j + 1], f)
  {
    var prefix := xs[..j + 1];
    assert prefix[..j] == xs[..j];
    assert prefix[j] == xs[j];
    Assoc(base, ConcatMap(xs[..j], f), f(j, xs[j]));
  }

  /** Whether a step function that can fail accepts every element of the input in turn, from state s. */
  ghost predicate RunDefined<S, B, E>(f: (S, B) -> Option<(S, seq<E>)>, s: S, input: seq<B>)
    decreases |input|
  {
    |input| == 0 || (f(s, input[0]).Some? && RunDefined(f, f(s, input[0]).value.0, input[1..]))
  }

  /** The final state and the outputs of running f over the input from state s. */
  ghost function Run<S, B, E>(f: (S, B) -> Option<(S, seq<E>)>, s: S, input: seq<B>): (S, seq<E>)
    requires RunDefined(f, s, input)
    decreases |input|
  {
    if |input| == 0 then (s, [])
    else
      var first := f(s, input[0]).value;
      var rest := Run(f, first.0, input[1..]);
      (rest.0, first.1 + rest.1)
  }

  /** Running over a, then over b from where a left off, is running over a + b. */
  lemma {:induction false} RunAppend<S, B, E>(f: (S, B) -> Option<(S, seq<E>)>, s: S, a: seq<B>, b: seq<B>)
    requires RunDefined(f, s, a) && RunDefined(f, Run(f, s, a).0, b)
    ensures RunDefined(f, s, a + b)
    ensures Run(f, s, a + b) == (Run(f, Run(f, s, a).0, b).0, Run(f, s, a).1 + Run(f, Run(f, s, a).0, b).1)
    decreases |a|
  {
    if |a| == 0 {
      assert a + b == b;
      assert Run(f, s, a) == (s, []);
      assert [] + Run(f, s, b).1 == Run(f, s, b).1;
    } else {
      var first := f(s, a[0]).value;
      var x := Run(f, first.0, a[1..]);
      RunAppend(f, first.0, a[1..], b);
      var y := Run(f, x.0, b);
      assert (a + b)[0] == a[0] && (a + b)[1..] == a[1..] + b;
      Assoc(first.1, x.1, y.1);
    }
  }
}
