/** Commands built from steps run one after the other, whatever a step is: each step runs on
    the replies the previous ones left, and the first step that does not complete ends the
    run. The install command and the configuration steps of cmd/install.go are such
    sequences; the facts here hold for any way of running a single step that consumes one
    reply per command it issues. */
module Sequencing {
  import opened Shell

  /** Running any step on any replies consumes one reply per command and aborts only after a
      failed command. */
  ghost predicate Sound<S(!new)>(run: (S, seq<Reply>) -> Run) {
    forall s, replies :: Consistent(run(s, replies), replies)
  }

  /** The steps one after the other, each on the replies the previous ones left. */
  function Sequence<S(!new)>(run: (S, seq<Reply>) -> Run, steps: seq<S>, replies: seq<Reply>): (r: Run)
    requires Sound(run)
    ensures Consistent(r, replies)
    decreases |steps|
  {
    if steps == [] then Run([], Completed)
    else
      var first := run(steps[0], replies);
      var next := Sequence(run, steps[1..], Drop(replies, |first.calls|));
      ThenConsistent(first, next, replies);
      Then(first, next)
  }

  /** Running two step lists one after the other is running their concatenation; in
      particular, a first list that does not complete is the whole run. */
  lemma {:induction false} SequenceAppend<S(!new)>(run: (S, seq<Reply>) -> Run, a: seq<S>, b: seq<S>, replies: seq<Reply>)
    requires Sound(run)
    ensures Sequence(run, a + b, replies)
      == Then(Sequence(run, a, replies), Sequence(run, b, Drop(replies, |Sequence(run, a, replies).calls|)))
    decreases |a|
  {
    if a == [] {
      assert a + b == b;
      assert Drop(replies, 0) == replies;
    } else {
      var first := run(a[0], replies);
      var rest := Drop(replies, |first.calls|);
      assert (a + b)[0] == a[0] && (a + b)[1..] == a[1..] + b;
      var whole := Sequence(run, a[1..] + b, rest);
      assert Sequence(run, a + b, replies) == Then(first, whole);
      var tail := Sequence(run, a[1..], rest);
      assert Sequence(run, a, replies) == Then(first, tail);
      if first.outcome.Completed? {
        SequenceAppend(run, a[1..], b, rest);
        var last := Sequence(run, b, Drop(rest, |tail.calls|));
        assert whole == Then(tail, last);
        ThenAssociative(first, tail, last);
        DropDrop(replies, |first.calls|, |tail.calls|);
      }
    }
  }

  /** A completed run of two step lists one after the other is a completed run of each, the
      second on the replies the first left. */
  lemma {:induction false} CompletedInTwo<S(!new)>(run: (S, seq<Reply>) -> Run, a: seq<S>, b: seq<S>, replies: seq<Reply>)
    requires Sound(run)
    requires Sequence(run, a + b, replies).outcome == Completed
    ensures var ra := Sequence(run, a, replies);
      var rb := Sequence(run, b, Drop(replies, |ra.calls|));
      && ra.outcome == Completed && rb.outcome == Completed
      && Sequence(run, a + b, replies).calls == ra.calls + rb.calls
  {
    SequenceAppend(run, a, b, replies);
  }

  /** A list of one step runs as that step. */
  lemma {:induction false} SequenceOfOne<S(!new)>(run: (S, seq<Reply>) -> Run, x: S, replies: seq<Reply>)
    requires Sound(run)
    ensures Sequence(run, [x], replies) == run(x, replies)
  {
    var r := run(x, replies);
    assert [x][1..] == [];
    assert r.calls + [] == r.calls;
  }

  /** A first step that does not complete is the whole run. */
  lemma {:induction false} FirstStepStops<S(!new)>(run: (S, seq<Reply>) -> Run, steps: seq<S>, replies: seq<Reply>)
    requires Sound(run)
    requires steps != [] && !run(steps[0], replies).outcome.Completed?
    ensures Sequence(run, steps, replies) == run(steps[0], replies)
  {
  }

  /** The state of a method part-way through a step list: the calls made so far completed
      the first k steps, and the rest of the run is that of the remaining steps. */
  ghost predicate Between<S(!new)>(run: (S, seq<Reply>) -> Run, steps: seq<S>, k: nat, replies: seq<Reply>, calls: seq<Command>) {
    && Sound(run) && k <= |steps| && |calls| <= |replies|
    && Sequence(run, steps, replies) == Then(Run(calls, Completed), Sequence(run, steps[k..], replies[|calls|..]))
  }

  lemma {:induction false} BetweenStart<S(!new)>(run: (S, seq<Reply>) -> Run, steps: seq<S>, replies: seq<Reply>)
    requires Sound(run)
    ensures Between(run, steps, 0, replies, [])
  {
    assert steps[0..] == steps && replies[0..] == replies;
  }

  /** After the k-th step ran as `r`: either it completed and the method is between step
      k + 1, or the whole run ends as it did. */
  lemma {:induction false} BetweenAdvance<S(!new)>(run: (S, seq<Reply>) -> Run, steps: seq<S>, k: nat, replies: seq<Reply>, calls: seq<Command>, r: Run)
    requires Between(run, steps, k, replies, calls) && k < |steps|
    requires r == run(steps[k], replies[|calls|..])
    ensures r.outcome.Completed? ==> Between(run, steps, k + 1, replies, calls + r.calls)
    ensures !r.outcome.Completed? ==> Sequence(run, steps, replies) == Run(calls + r.calls, r.outcome)
  {
    var rest := replies[|calls|..];
    assert steps[k..][0] == steps[k] && steps[k..][1..] == steps[k + 1..];
    var next := Sequence(run, steps[k + 1..], Drop(rest, |r.calls|));
    assert Sequence(run, steps[k..], rest) == Then(r, next);
    ThenAssociative(Run(calls, Completed), r, next);
    if r.outcome.Completed? {
      DropIsSlice(rest, |r.calls|);
      assert rest[|r.calls|..] == replies[|calls + r.calls|..];
    }
  }

  lemma {:induction false} BetweenEnd<S(!new)>(run: (S, seq<Reply>) -> Run, steps: seq<S>, replies: seq<Reply>, calls: seq<Command>)
    requires Between(run, steps, |steps|, replies, calls)
    ensures Sequence(run, steps, replies) == Run(calls, Completed)
  {
    assert steps[|steps|..] == [];
    assert calls + [] == calls;
  }

  /** When every step, on any replies, issues commands to one program only, so does the
      whole run. */
  lemma {:induction false} SequenceUsesOnly<S(!new)>(run: (S, seq<Reply>) -> Run, steps: seq<S>, replies: seq<Reply>, program: string)
    requires Sound(run)
    requires forall i, rs, c :: 0 <= i < |steps| && c in run(steps[i], rs).calls ==> c.program == program
    ensures forall c :: c in Sequence(run, steps, replies).calls ==> c.program == program
    decreases |steps|
  {
    if steps != [] {
      var first := run(steps[0], replies);
      assert forall i :: 0 <= i < |steps[1..]| ==> steps[1..][i] == steps[i + 1];
      SequenceUsesOnly(run, steps[1..], Drop(replies, |first.calls|), program);
    }
  }
}
