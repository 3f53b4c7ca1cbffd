/** Runs of a state machine: a sequence of labels, each one atomic step. */
module Steps {

  function Run<S, L>(s: S, labels: seq<L>, step: (S, L) -> S): S
    decreases |labels|
  {
    if labels == [] then s else Run(step(s, labels[0]), labels[1..], step)
  }

  lemma {:induction false} Append<S, L>(s: S, first: seq<L>, second: seq<L>, step: (S, L) -> S)
    ensures Run(s, first + second, step) == Run(Run(s, first, step), second, step)
    decreases |first|
  {
    if first == [] {
      assert first + second == second;
    } else {
      assert (first + second)[1..] == first[1..] + second;
      Append(step(s, first[0]), first[1..], second, step);
    }
  }

  lemma Single<S, L>(s: S, l: L, step: (S, L) -> S)
    ensures Run(s, [l], step) == step(s, l)
  {
    assert [l][1..] == [];
  }

  lemma Snoc<S, L>(s: S, labels: seq<L>, l: L, step: (S, L) -> S)
    ensures Run(s, labels + [l], step) == step(Run(s, labels, step), l)
  {
    Append(s, labels, [l], step);
    Single(Run(s, labels, step), l, step);
  }

  /** The state after the first i + 1 labels is one step after the state after i. */
  lemma Prefix<S, L>(s: S, labels: seq<L>, i: nat, step: (S, L) -> S)
    requires i < |labels|
    ensures Run(s, labels[..i + 1], step) == step(Run(s, labels[..i], step), labels[i])
  {
    assert labels[..i + 1] == labels[..i] + [labels[i]];
    Snoc(s, labels[..i], labels[i], step);
  }

  /** The labels lead from one state to the other, and all of them are of the one kind. */
  ghost predicate Reached<S, L>(start: S, labels: seq<L>, s: S, step: (S, L) -> S, own: L -> bool) {
    Run(start, labels, step) == s && forall l | l in labels :: own(l)
  }

  lemma Extend<S, L>(start: S, labels: seq<L>, s: S, l: L, step: (S, L) -> S, own: L -> bool)
    requires Reached(start, labels, s, step, own) && own(l)
    ensures Reached(start, labels + [l], step(s, l), step, own)
  {
    Snoc(start, labels, l, step);
  }

  lemma Join<S, L>(s0: S, first: seq<L>, s1: S, second: seq<L>, s2: S, step: (S, L) -> S, own: L -> bool)
    requires Reached(s0, first, s1, step, own) && Reached(s1, second, s2, step, own)
    ensures Reached(s0, first + second, s2, step, own)
  {
    Append(s0, first, second, step);
  }
}
