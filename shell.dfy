/** The boundary to the external tools (helm, kubectl, terraform, kops).

    A run of the tools is modelled without executing anything: the world answers the
    commands a run issues with a given sequence of replies, the k-th command issued being
    answered by the k-th reply. A run reports the commands it issued, in order, and how it
    ended. It ends `Unfinished` when it needs an answer and none is left, which is how the
    model bounds the source's unbounded polling loops. */
module Shell {

  /** An external program invocation: the program and its argument list. */
  datatype Command = Command(program: string, args: seq<string>)

  /** What one command gave back: its combined output and whether it failed (a non-zero
      exit status, or a program that could not be started). */
  datatype Reply = Reply(output: string, failed: bool)

  /** How a run ended: normally, by a panic or process exit (with its message), or waiting
      for an answer beyond the given replies. */
  datatype Outcome = Completed | Aborted(message: string) | Unfinished

  datatype Run = Run(calls: seq<Command>, outcome: Outcome)

  /** One reply per command issued, and a run stops short of its end only when the replies
      ran out. */
  predicate Consistent(r: Run, replies: seq<Reply>) {
    |r.calls| <= |replies| && (r.outcome == Unfinished ==> |r.calls| == |replies|)
  }

  /** The replies left after the first n were used, one at a time (none once they ran out). */
  function Drop(replies: seq<Reply>, n: nat): (rest: seq<Reply>)
    ensures |rest| == if n <= |replies| then |replies| - n else 0
    decreases n
  {
    if n == 0 || replies == [] then replies else Drop(replies[1..], n - 1)
  }

  /** Dropping n of at least n replies is the slice from the n-th on. */
  lemma {:induction false} DropIsSlice(replies: seq<Reply>, n: nat)
    requires n <= |replies|
    ensures Drop(replies, n) == replies[n..]
    decreases n
  {
    if n > 0 {
      DropIsSlice(replies[1..], n - 1);
      assert replies[1..][n - 1..] == replies[n..];
    }
  }

  /** Runs `first` and, only if it completed, goes on with `next`, which is the run of the
      following step on the replies `first` left. */
  function Then(first: Run, next: Run): (r: Run) {
    if first.outcome.Completed? then Run(first.calls + next.calls, next.outcome) else first
  }

  lemma {:induction false} ThenConsistent(first: Run, next: Run, replies: seq<Reply>)
    requires Consistent(first, replies)
    requires Consistent(next, Drop(replies, |first.calls|))
    ensures Consistent(Then(first, next), replies)
  {
  }

  /** Completed calls followed by one more completed call and a continuation. */
  lemma {:induction false} ThenExtend(calls: seq<Command>, cmd: Command, next: Run)
    ensures Then(Run(calls, Completed), Then(Run([cmd], Completed), next))
      == Then(Run(calls + [cmd], Completed), next)
  {
    assert calls + ([cmd] + next.calls) == calls + [cmd] + next.calls;
  }

  /** A sequence completes only when both its parts do, and then issues both parts' calls. */
  lemma {:induction false} ThenCompleted(first: Run, next: Run)
    requires Then(first, next).outcome == Completed
    ensures first.outcome == Completed && next.outcome == Completed
    ensures Then(first, next).calls == first.calls + next.calls
  {
  }

  /** Sequencing is associative. */
  lemma {:induction false} ThenAssociative(x: Run, y: Run, z: Run)
    ensures Then(x, Then(y, z)) == Then(Then(x, y), z)
  {
    if x.outcome.Completed? && y.outcome.Completed? {
      assert x.calls + (y.calls + z.calls) == x.calls + y.calls + z.calls;
    }
  }

  /** Dropping m replies and then n more drops m + n. */
  lemma {:induction false} DropDrop(replies: seq<Reply>, m: nat, n: nat)
    ensures Drop(Drop(replies, m), n) == Drop(replies, m + n)
    decreases m
  {
    if m > 0 && replies != [] {
      DropDrop(replies[1..], m - 1, n);
    } else if replies == [] {
      assert Drop([], n) == [];
    }
  }

  /** A command whose failure is fatal: the process stops with the message and the output
      (Go's panic / os.Exit after printing the output). */
  function Checked(cmd: Command, replies: seq<Reply>, message: string): (r: Run)
    ensures Consistent(r, replies)
    ensures replies != [] ==> r.calls == [cmd]
    ensures r.outcome.Aborted? <==> replies != [] && replies[0].failed
    ensures replies != [] ==>
      r.outcome == (if replies[0].failed then Aborted(message + replies[0].output) else Completed)
  {
    if replies == [] then Run([], Unfinished)
    else if replies[0].failed then Run([cmd], Aborted(message + replies[0].output))
    else Run([cmd], Completed)
  }

  /** A command whose failure is only reported: control goes on whatever it returned. */
  function Reported(cmd: Command, replies: seq<Reply>): (r: Run)
    ensures Consistent(r, replies)
    ensures replies != [] ==> r == Run([cmd], Completed)
  {
    if replies == [] then Run([], Unfinished) else Run([cmd], Completed)
  }

  /** A command paired with the message the process stops with if it fails. */
  datatype Step = Step(cmd: Command, failure: string)

  /** Commands issued one after the other, each fatal on failure: the shape of every loop
      in the source that runs a command per item and panics on the first error. */
  function CheckedSteps(steps: seq<Step>, replies: seq<Reply>): (r: Run)
    ensures Consistent(r, replies)
    decreases |steps|
  {
    if steps == [] then Run([], Completed)
    else
      var first := Checked(steps[0].cmd, replies, steps[0].failure);
      var next := CheckedSteps(steps[1..], Drop(replies, |first.calls|));
      ThenConsistent(first, next, replies);
      Then(first, next)
  }

  /** The commands go out in the steps' order; a failure is always the last command issued
      and stops the run with that step's message. */
  lemma {:induction false} CheckedStepsCalls(steps: seq<Step>, replies: seq<Reply>)
    ensures var r := CheckedSteps(steps, replies);
      && |r.calls| <= |steps|
      && (forall k :: 0 <= k < |r.calls| ==> r.calls[k] == steps[k].cmd)
      && (forall k :: 0 <= k < |r.calls| ==>
            (replies[k].failed <==> k == |r.calls| - 1 && r.outcome.Aborted?))
      && (r.outcome.Aborted? ==>
            r.outcome.message == steps[|r.calls| - 1].failure + replies[|r.calls| - 1].output)
    decreases |steps|
  {
    if steps != [] && replies != [] && !replies[0].failed {
      assert Drop(replies, 1) == replies[1..];
      var next := CheckedSteps(steps[1..], replies[1..]);
      CheckedStepsCalls(steps[1..], replies[1..]);
      var r := CheckedSteps(steps, replies);
      assert r == Run([steps[0].cmd] + next.calls, next.outcome);
      forall k | 0 < k < |r.calls|
        ensures r.calls[k] == steps[k].cmd
        ensures replies[k].failed <==> k == |r.calls| - 1 && r.outcome.Aborted?
      {
        assert r.calls[k] == next.calls[k - 1] && replies[k] == replies[1..][k - 1];
      }
    }
  }

  /** The run completes exactly when every step was answered without failure. */
  lemma {:induction false} CheckedStepsComplete(steps: seq<Step>, replies: seq<Reply>)
    ensures var r := CheckedSteps(steps, replies);
      r.outcome == Completed <==>
        |r.calls| == |steps| && forall k :: 0 <= k < |steps| ==> !replies[k].failed
    decreases |steps|
  {
    if steps != [] && replies != [] && !replies[0].failed {
      assert Drop(replies, 1) == replies[1..];
      var next := CheckedSteps(steps[1..], replies[1..]);
      CheckedStepsComplete(steps[1..], replies[1..]);
      var r := CheckedSteps(steps, replies);
      assert r == Run([steps[0].cmd] + next.calls, next.outcome);
      if r.outcome == Completed {
        forall k | 0 < k < |steps| ensures !replies[k].failed {
          assert replies[k] == replies[1..][k - 1];
        }
      }
      if |r.calls| == |steps| && forall k :: 0 <= k < |steps| ==> !replies[k].failed {
        forall k | 0 <= k < |steps| - 1 ensures !replies[1..][k].failed {
          assert replies[1..][k] == replies[k + 1];
        }
      }
    }
  }

  /** The commands go out in the steps' order; a failure is always the last command issued
      and stops the run with that step's message; the run completes exactly when every step
      was answered without failure. */
  lemma {:induction false} CheckedStepsInOrder(steps: seq<Step>, replies: seq<Reply>)
    ensures var r := CheckedSteps(steps, replies);
      && |r.calls| <= |steps|
      && (forall k :: 0 <= k < |r.calls| ==> r.calls[k] == steps[k].cmd)
      && (forall k :: 0 <= k < |r.calls| ==>
            (replies[k].failed <==> k == |r.calls| - 1 && r.outcome.Aborted?))
      && (r.outcome == Completed <==>
            |r.calls| == |steps| && forall k :: 0 <= k < |steps| ==> !replies[k].failed)
      && (r.outcome.Aborted? ==>
            r.outcome.message == steps[|r.calls| - 1].failure + replies[|r.calls| - 1].output)
  {
    CheckedStepsCalls(steps, replies);
    CheckedStepsComplete(steps, replies);
  }

  /** The run of the steps from the i-th on: nothing more once the replies ran out, a stop
      with the step's message when its reply failed, and otherwise that step's command
      followed by the run of the steps after it. */
  lemma {:induction false} CheckedStepsAt(steps: seq<Step>, i: nat, replies: seq<Reply>)
    requires i < |steps| && i <= |replies|
    ensures CheckedSteps(steps[i..], replies[i..])
      == if i == |replies| then Run([], Unfinished)
         else if replies[i].failed then Run([steps[i].cmd], Aborted(steps[i].failure + replies[i].output))
         else Then(Run([steps[i].cmd], Completed), CheckedSteps(steps[i + 1..], replies[i + 1..]))
  {
    assert steps[i..][0] == steps[i] && steps[i..][1..] == steps[i + 1..];
    if i < |replies| {
      assert replies[i..][0] == replies[i] && replies[i..][1..] == replies[i + 1..];
    }
  }

  /** The same command issued n times. */
  function Repeat(cmd: Command, n: nat): (calls: seq<Command>)
    ensures |calls| == n && forall k :: 0 <= k < n ==> calls[k] == cmd
  {
    if n == 0 then [] else Repeat(cmd, n - 1) + [cmd]
  }
}
