/** Equalities between sequences that the proofs use by name. */
module Seqs {
  lemma Assoc<T>(a: seq<T>, b: seq<T>, c: seq<T>)
    ensures (a + b) + c == a + (b + c)
  {
  }

  lemma Last<T>(s: seq<T>)
    requires s != []
    ensures s == s[..|s| - 1] + [s[|s| - 1]]
  {
  }

  lemma First<T>(s: seq<T>)
    requires s != []
    ensures s == [s[0]] + s[1..]
  {
  }

  lemma LastOfConcat<T>(a: seq<T>, b: seq<T>)
    requires b != []
    ensures a + b == (a + b[..|b| - 1]) + [b[|b| - 1]]
  {
  }

  lemma Around<T>(s: seq<T>, i: nat)
    requires i < |s|
    ensures s == (s[..i] + [s[i]]) + s[i + 1..]
  {
  }

  lemma Front<T>(s: seq<T>, x: T)
    ensures (s + [x])[..|s|] == s && (s + [x])[|s|] == x
  {
  }

  lemma Halves<T>(a: seq<T>, b: seq<T>)
    ensures (a + b)[..|a|] == a && (a + b)[|a|..] == b
  {
  }

  lemma Cut<T>(a: seq<T>, b: seq<T>, n: nat)
    requires n <= |b|
    ensures (a + b[..n]) + b[n..] == a + b
  {
  }

  lemma Middle<T>(a: seq<T>, x: T, b: seq<T>)
    ensures (a + ([x] + b))[|a| + 1..] == b
  {
  }

  /** What holds at the beginning of a run and is kept by every step of it holds
      at each of its points. */
  lemma {:induction false} Throughout<S, T>(
    holds: S -> bool, leads: (S, T, S) -> bool, states: seq<S>, steps: seq<T>, i: nat)
    requires |states| == |steps| + 1 && i <= |steps| && holds(states[0])
    requires forall j: nat :: j < |steps| ==> leads(states[j], steps[j], states[j + 1])
    requires forall a, s, b :: holds(a) && leads(a, s, b) ==> holds(b)
    ensures holds(states[i])
  {
    if i > 0 {
      Throughout(holds, leads, states, steps, i - 1);
      assert leads(states[i - 1], steps[i - 1], states[i - 1 + 1]);
    }
  }

  lemma Prolonged<S, T>(leads: (S, T, S) -> bool, states: seq<S>, steps: seq<T>, s: T, d: S)
    requires |states| == |steps| + 1 && leads(states[|steps|], s, d)
    requires forall j: nat :: j < |steps| ==> leads(states[j], steps[j], states[j + 1])
    ensures var longer, more := states + [d], steps + [s];
      forall j: nat :: j < |more| ==> leads(longer[j], more[j], longer[j + 1])
  {
  }
}
