/** pkg/kubectl/kubectl.go: creating and deleting resources from manifest files, and the two
    polling loops that wait for a workload to be ready or a pod to finish. cmd/install.go
    repeats the polling loops line for line and uses these members as well. */
module Kubectl {
  import opened Wrappers
  import opened Shell
  import opened Text

  const KubectlProgram: string := "kubectl"

  // ---------------------------------------------------------------------------
  // Create and Delete
  // ---------------------------------------------------------------------------

  function CreateCommand(filePath: string, namespace: string): Command {
    Command(KubectlProgram, ["create", "-f", filePath, "--namespace", namespace])
  }

  function DeleteCommand(filePath: string, namespace: string): Command {
    Command(KubectlProgram, ["delete", "-f", filePath, "--namespace", namespace])
  }

  /** Create: one `kubectl create -f`; a failure is written to stderr and control returns
      normally, so the run never aborts. */
  function CreateRun(filePath: string, namespace: string, replies: seq<Reply>): (r: Run)
    ensures Consistent(r, replies) && !r.outcome.Aborted?
    ensures replies != [] ==> r == Run([CreateCommand(filePath, namespace)], Completed)
  {
    Reported(CreateCommand(filePath, namespace), replies)
  }

  /** Delete: the same as Create with `kubectl delete -f`. */
  function DeleteRun(filePath: string, namespace: string, replies: seq<Reply>): (r: Run)
    ensures Consistent(r, replies) && !r.outcome.Aborted?
    ensures replies != [] ==> r == Run([DeleteCommand(filePath, namespace)], Completed)
  {
    Reported(DeleteCommand(filePath, namespace), replies)
  }

  // ---------------------------------------------------------------------------
  // Polling
  // ---------------------------------------------------------------------------

  /** What a polling loop waits for: a count field of at least a minimum, or a pod phase of
      `Succeeded`. */
  datatype Goal = ReadyCount(minNumberReady: int) | PodSucceeded

  /** The status query of waitResourceReady: a jsonpath read of one count field. */
  function ReadyQuery(resourceName: string, resourceType: string, countField: string, namespace: string): Command {
    Command(KubectlProgram,
      ["get", resourceType, resourceName, "-o", "jsonpath=\"{@.status." + countField + "}\"",
       "--namespace", namespace])
  }

  /** The status query of WaitPodCompleted: a jsonpath read of the pod phase. */
  function PhaseQuery(podName: string, namespace: string): Command {
    Command(KubectlProgram,
      ["get", "pod", podName, "-o", "jsonpath=\"{@.status.phase}\"", "--namespace", namespace])
  }

  /** The output with every double quote removed. */
  function Unquoted(output: string): string {
    ReplaceAll(output, "\"", "")
  }

  /** The exit test of a polling loop on a successful read. */
  predicate Reached(goal: Goal, output: string) {
    match goal
    case ReadyCount(minNumberReady) =>
      var count := Atoi(Unquoted(output));
      count.Some? && count.value >= minNumberReady
    case PodSucceeded => Unquoted(output) == "Succeeded"
  }

  /** The message a failed status read panics with. */
  function PollFailure(goal: Goal): string {
    match goal
    case ReadyCount(_) => "Failed execute kubectl command to get deploy status: "
    case PodSucceeded => "Failed execute kubectl command to get pod phase: "
  }

  /** A reply that ends the loop: a failed read, or one that meets the goal. */
  predicate Decisive(goal: Goal, reply: Reply) {
    reply.failed || Reached(goal, reply.output)
  }

  /** A polling loop: the query is issued until a read fails (panic) or meets the goal. */
  function PollRun(query: Command, goal: Goal, replies: seq<Reply>): (r: Run)
    ensures Consistent(r, replies)
    decreases |replies|
  {
    if replies == [] then Run([], Unfinished)
    else if replies[0].failed then Run([query], Aborted(PollFailure(goal) + replies[0].output))
    else if Reached(goal, replies[0].output) then Run([query], Completed)
    else
      var next := PollRun(query, goal, replies[1..]);
      Run([query] + next.calls, next.outcome)
  }

  /** The loop only ever issues its query, and every read but the last was answered without
      failure and below the goal. */
  lemma {:induction false} PollCalls(query: Command, goal: Goal, replies: seq<Reply>)
    ensures var r := PollRun(query, goal, replies);
      && r.calls == Repeat(query, |r.calls|)
      && (forall k :: 0 <= k < |r.calls| - 1 ==> !Decisive(goal, replies[k]))
    decreases |replies|
  {
    if replies != [] && !Decisive(goal, replies[0]) {
      var next := PollRun(query, goal, replies[1..]);
      PollCalls(query, goal, replies[1..]);
      var r := PollRun(query, goal, replies);
      assert r == Run([query] + next.calls, next.outcome);
      assert r.calls == Repeat(query, |r.calls|);
      forall k | 0 < k < |replies| ensures replies[k] == replies[1..][k - 1] { }
    }
  }

  /** The loop runs out of replies exactly when none is decisive, and otherwise stops at a
      decisive reply after reading at least once. */
  lemma {:induction false} PollStops(query: Command, goal: Goal, replies: seq<Reply>)
    ensures var r := PollRun(query, goal, replies);
      && (r.outcome == Unfinished <==> forall k :: 0 <= k < |replies| ==> !Decisive(goal, replies[k]))
      && (r.outcome != Unfinished ==> 0 < |r.calls| && Decisive(goal, replies[|r.calls| - 1]))
    decreases |replies|
  {
    if replies != [] && !Decisive(goal, replies[0]) {
      var next := PollRun(query, goal, replies[1..]);
      PollStops(query, goal, replies[1..]);
      var r := PollRun(query, goal, replies);
      assert r == Run([query] + next.calls, next.outcome);
      if 0 < |next.calls| {
        assert replies[|r.calls| - 1] == replies[1..][|next.calls| - 1];
      }
      forall k | 0 < k < |replies| ensures replies[k] == replies[1..][k - 1] { }
    }
  }

  /** The loop completes exactly when its last read succeeded and met the goal, and panics
      with the message of its last read otherwise. */
  lemma {:induction false} PollEnds(query: Command, goal: Goal, replies: seq<Reply>)
    ensures var r := PollRun(query, goal, replies);
      && (r.outcome == Completed <==>
            0 < |r.calls| && !replies[|r.calls| - 1].failed && Reached(goal, replies[|r.calls| - 1].output))
      && (r.outcome.Aborted? ==> r.outcome.message == PollFailure(goal) + replies[|r.calls| - 1].output)
    decreases |replies|
  {
    if replies != [] && !Decisive(goal, replies[0]) {
      var next := PollRun(query, goal, replies[1..]);
      PollEnds(query, goal, replies[1..]);
      var r := PollRun(query, goal, replies);
      assert r == Run([query] + next.calls, next.outcome);
      if 0 < |next.calls| {
        assert replies[|r.calls| - 1] == replies[1..][|next.calls| - 1];
      }
    }
  }

  /** The loop only ever issues its query; every read but the last was answered without
      failure and below the goal; it stops at the first decisive reply, with a panic exactly
      when that read failed, and it reads at least once before returning. */
  lemma {:induction false} PollStopsAtFirstDecisive(query: Command, goal: Goal, replies: seq<Reply>)
    ensures var r := PollRun(query, goal, replies);
      && r.calls == Repeat(query, |r.calls|)
      && (forall k :: 0 <= k < |r.calls| - 1 ==> !Decisive(goal, replies[k]))
      && (r.outcome == Unfinished <==> forall k :: 0 <= k < |replies| ==> !Decisive(goal, replies[k]))
      && (r.outcome != Unfinished ==> 0 < |r.calls| && Decisive(goal, replies[|r.calls| - 1]))
      && (r.outcome == Completed <==>
            0 < |r.calls| && !replies[|r.calls| - 1].failed && Reached(goal, replies[|r.calls| - 1].output))
      && (r.outcome.Aborted? ==> r.outcome.message == PollFailure(goal) + replies[|r.calls| - 1].output)
  {
    PollCalls(query, goal, replies);
    PollStops(query, goal, replies);
    PollEnds(query, goal, replies);
  }

  /** One more non-decisive read: the loop goes on with the remaining replies. */
  lemma {:induction false} PollUnfold(query: Command, goal: Goal, replies: seq<Reply>, i: nat)
    requires i < |replies| && !Decisive(goal, replies[i])
    ensures PollRun(query, goal, replies[i..])
      == Then(Run([query], Completed), PollRun(query, goal, replies[i + 1..]))
  {
    assert replies[i..][1..] == replies[i + 1..];
  }

  /** waitResourceReady: a flag-driven loop that sleeps, reads the count field and stops once
      the quote-stripped output parses as an integer of at least the minimum. */
  method WaitResourceReady(resourceName: string, resourceType: string, countField: string,
                           minNumberReady: int, namespace: string, replies: seq<Reply>)
    returns (calls: seq<Command>, outcome: Outcome)
    ensures Run(calls, outcome)
      == PollRun(ReadyQuery(resourceName, resourceType, countField, namespace), ReadyCount(minNumberReady), replies)
  {
    var args := ["get", resourceType, resourceName, "-o", "jsonpath=\"{@.status." + countField + "}\"",
                 "--namespace", namespace];
    ghost var query := ReadyQuery(resourceName, resourceType, countField, namespace);
    ghost var goal := ReadyCount(minNumberReady);
    calls := [];
    var i := 0;
    var resourceReady := false;
    assert replies[0..] == replies;
    while !resourceReady
      invariant 0 <= i <= |replies| && |calls| == i
      invariant resourceReady ==> PollRun(query, goal, replies) == Run(calls, Completed)
      invariant !resourceReady ==>
        PollRun(query, goal, replies) == Then(Run(calls, Completed), PollRun(query, goal, replies[i..]))
      decreases |replies| - i, !resourceReady
    {
      if i == |replies| {
        return calls, Unfinished;
      }
      var reply := replies[i];
      calls := calls + [Command(KubectlProgram, args)];
      if reply.failed {
        return calls, Aborted("Failed execute kubectl command to get deploy status: " + reply.output);
      }
      var readyReplicas := Atoi(ReplaceAll(reply.output, "\"", ""));
      if readyReplicas.Some? && readyReplicas.value >= minNumberReady {
        resourceReady := true;
      } else {
        PollUnfold(query, goal, replies, i);
        ThenExtend(calls[..i], query, PollRun(query, goal, replies[i + 1..]));
        assert calls == calls[..i] + [query];
      }
      i := i + 1;
    }
    outcome := Completed;
  }

  method WaitDeployReady(resourceName: string, minNumberReady: int, namespace: string, replies: seq<Reply>)
    returns (calls: seq<Command>, outcome: Outcome)
    ensures Run(calls, outcome)
         == PollRun(ReadyQuery(resourceName, "deploy", "readyReplicas", namespace), ReadyCount(minNumberReady), replies)
  {
    calls, outcome := WaitResourceReady(resourceName, "deploy", "readyReplicas", minNumberReady, namespace, replies);
  }

  method WaitDaemonSetReady(resourceName: string, minNumberReady: int, namespace: string, replies: seq<Reply>)
    returns (calls: seq<Command>, outcome: Outcome)
    ensures Run(calls, outcome)
         == PollRun(ReadyQuery(resourceName, "daemonset", "numberReady", namespace), ReadyCount(minNumberReady), replies)
  {
    calls, outcome := WaitResourceReady(resourceName, "daemonset", "numberReady", minNumberReady, namespace, replies);
  }

  /** WaitPodCompleted: a flag-driven loop that sleeps, reads the pod phase and stops once the
      quote-stripped phase is `Succeeded`. */
  method WaitPodCompleted(podName: string, namespace: string, replies: seq<Reply>)
    returns (calls: seq<Command>, outcome: Outcome)
    ensures Run(calls, outcome) == PollRun(PhaseQuery(podName, namespace), PodSucceeded, replies)
  {
    var args := ["get", "pod", podName, "-o", "jsonpath=\"{@.status.phase}\"", "--namespace", namespace];
    ghost var query := PhaseQuery(podName, namespace);
    calls := [];
    var i := 0;
    var podCompleted := false;
    assert replies[0..] == replies;
    while !podCompleted
      invariant 0 <= i <= |replies| && |calls| == i
      invariant podCompleted ==> PollRun(query, PodSucceeded, replies) == Run(calls, Completed)
      invariant !podCompleted ==>
        PollRun(query, PodSucceeded, replies) == Then(Run(calls, Completed), PollRun(query, PodSucceeded, replies[i..]))
      decreases |replies| - i, !podCompleted
    {
      if i == |replies| {
        return calls, Unfinished;
      }
      var reply := replies[i];
      calls := calls + [Command(KubectlProgram, args)];
      if reply.failed {
        return calls, Aborted("Failed execute kubectl command to get pod phase: " + reply.output);
      }
      var phase := ReplaceAll(reply.output, "\"", "");
      if phase == "Succeeded" {
        podCompleted := true;
      } else {
        PollUnfold(query, PodSucceeded, replies, i);
        ThenExtend(calls[..i], query, PollRun(query, PodSucceeded, replies[i + 1..]));
        assert calls == calls[..i] + [query];
      }
      i := i + 1;
    }
    outcome := Completed;
  }

  // ---------------------------------------------------------------------------
  // The exit tests on concrete outputs
  // ---------------------------------------------------------------------------

  /** kubectl's jsonpath output of a value: the value between double quotes. */
  function Quoted(value: string): string {
    "\"" + value + "\""
  }

  /** Removing the quotes gives back a value that holds none. */
  lemma {:induction false} UnquoteQuoted(value: string)
    requires '"' !in value
    ensures Unquoted(Quoted(value)) == value
  {
    assert Quoted(value) == "\"" + (value + "\"");
    ReplaceAllAtToken(value + "\"", "\"", "");
    ReplaceAllCopiesPlainPrefix(value, "\"", "\"", "");
    ReplaceAllAtToken("", "\"", "");
    assert "\"" + "" == "\"";
  }

  lemma {:induction false} ItoaHasNoQuote(n: int)
    ensures '"' !in Itoa(n)
  {
    var ds := Digits(if n < 0 then -n else n);
    assert forall i :: 0 <= i < |ds| ==> IsDigit(ds[i]);
    if n < 0 {
      assert Itoa(n) == "-" + ds;
    }
  }

  /** The readiness test on a reported count: the loop stops exactly when the count is at
      least the minimum, so a count of one less keeps it polling. */
  lemma {:induction false} ReadyThreshold(count: int, minNumberReady: int)
    requires MinInt64 <= count <= MaxInt64
    ensures Reached(ReadyCount(minNumberReady), Quoted(Itoa(count))) <==> count >= minNumberReady
    ensures count == minNumberReady - 1 ==> !Reached(ReadyCount(minNumberReady), Quoted(Itoa(count)))
  {
    ItoaHasNoQuote(count);
    UnquoteQuoted(Itoa(count));
    AtoiOfItoa(count);
  }

  /** A count field the status does not have yet reads as two quotes: not a number, so the
      loop keeps polling whatever the minimum. */
  lemma {:induction false} EmptyCountKeepsPolling(minNumberReady: int)
    ensures !Reached(ReadyCount(minNumberReady), Quoted(""))
  {
    UnquoteQuoted("");
  }

  /** Output that is not a 64-bit decimal number once the quotes are gone never satisfies
      the readiness test, so the loop keeps polling: nothing left, a first character that
      neither is a digit nor a sign, a sign alone, a later character that is not a digit
      (at position i), or a number out of the 64-bit range. */
  lemma {:induction false} UnparsableKeepsPolling(output: string, minNumberReady: int, i: nat)
    requires var text := Unquoted(output);
      || text == []
      || (!IsDigit(text[0]) && text[0] != '-' && text[0] != '+')
      || text == "-" || text == "+"
      || (1 <= i < |text| && !IsDigit(text[i]))
      || (AllDigits(text) && ParseDigits(text) > MaxInt64)
      || (text[0] == '+' && AllDigits(text[1..]) && ParseDigits(text[1..]) > MaxInt64)
      || (text[0] == '-' && AllDigits(text[1..]) && ParseDigits(text[1..]) > MaxInt64 + 1)
    ensures !Reached(ReadyCount(minNumberReady), output)
  {
    var text := Unquoted(output);
    if 1 <= i < |text| && !IsDigit(text[i]) {
      assert text[1..][i - 1] == text[i];
    }
  }

  /** The phase test: a quoted `Succeeded` ends the wait, any other quoted phase keeps it
      polling. */
  lemma {:induction false} PhaseTest(phase: string)
    requires '"' !in phase
    ensures Reached(PodSucceeded, Quoted(phase)) <==> phase == "Succeeded"
  {
    UnquoteQuoted(phase);
  }
}
