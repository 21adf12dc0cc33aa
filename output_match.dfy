/** test_ship.py's ordered_output_subset_matches: the expected lines are looked for, in
    order, among the stripped lines of a command's output. The scan is greedy and never
    moves back; a line that matched is not skipped, so the next expected line may match it
    again. The result is the expected lines matched before the scan ran off the end. */
module OutputMatch {
  import opened Wrappers
  import opened Text

  /** Every line stripped of leading and trailing whitespace. */
  function StripAll(lines: seq<string>): (stripped: seq<string>)
    ensures |stripped| == |lines|
  {
    seq(|lines|, i requires 0 <= i < |lines| => Strip(lines[i]))
  }

  /** The i-th stripped line. */
  lemma StripAllAt(lines: seq<string>, i: nat)
    requires i < |lines|
    ensures StripAll(lines)[i] == Strip(lines[i])
  {
  }

  /** The first of the (stripped) lines at or after `from` that equals `e`. */
  function FirstMatch(lines: seq<string>, e: string, from: nat): (j: Option<nat>)
    ensures j.Some? ==> from <= j.value < |lines| && lines[j.value] == e
    ensures j.Some? ==> forall k :: from <= k < j.value ==> lines[k] != e
    ensures j.None? ==> forall k :: from <= k < |lines| ==> lines[k] != e
    decreases |lines| - from
  {
    if from >= |lines| then None
    else if lines[from] == e then Some(from)
    else FirstMatch(lines, e, from + 1)
  }

  /** A line that does not match is passed over. */
  lemma {:induction false} FirstMatchSkips(lines: seq<string>, e: string, from: nat)
    requires from < |lines| && lines[from] != e
    ensures FirstMatch(lines, e, from) == FirstMatch(lines, e, from + 1)
  {
  }

  /** How many expected lines the greedy scan matches when it starts at line `from`. */
  function MatchedCount(lines: seq<string>, expected: seq<string>, from: nat): (n: nat)
    ensures n <= |expected|
    decreases |expected|
  {
    if expected == [] then 0
    else
      match FirstMatch(lines, expected[0], from)
      case None => 0
      case Some(j) => 1 + MatchedCount(lines, expected[1..], j)
  }

  /** The scan for the k-th expected line: it ends the count or goes on from the line found. */
  lemma {:induction false} MatchedCountAt(lines: seq<string>, expected: seq<string>, k: nat, from: nat)
    requires k < |expected|
    ensures MatchedCount(lines, expected[k..], from)
      == match FirstMatch(lines, expected[k], from)
         case None => 0
         case Some(j) => 1 + MatchedCount(lines, expected[k + 1..], j)
  {
    assert expected[k..][0] == expected[k] && expected[k..][1..] == expected[k + 1..];
  }

  /** The expected lines the scan got through. */
  function MatchedPrefix(lines: seq<string>, expected: seq<string>): seq<string> {
    expected[..MatchedCount(lines, expected, 0)]
  }

  /** The output's lines, each stripped. */
  function Lines(output: string): seq<string> {
    StripAll(Split(output, "\n"))
  }

  /** What the function returns. */
  function Matches(output: string, expected: seq<string>): seq<string> {
    MatchedPrefix(Lines(output), expected)
  }

  /** The inner loop of the function: from line `from` on, move forward until the stripped
      line equals `e`; the index reached is |lines| when the scan ran off the end. */
  method FindLine(lines: seq<string>, e: string, from: nat) returns (j: nat)
    requires from < |lines|
    ensures FirstMatch(StripAll(lines), e, from) == if j < |lines| then Some(j) else None
  {
    ghost var stripped := StripAll(lines);
    j := from;
    while Strip(lines[j]) != e
      invariant from <= j < |lines|
      invariant FirstMatch(stripped, e, from) == FirstMatch(stripped, e, j)
      decreases |lines| - j
    {
      StripAllAt(lines, j);
      FirstMatchSkips(stripped, e, j);
      j := j + 1;
      if j >= |lines| {
        return;
      }
    }
  }

  /** The count so far: k expected lines matched, the scan for the k-th starts at `from`. */
  ghost predicate Scanned(lines: seq<string>, expected: seq<string>, k: nat, from: nat) {
    k <= |expected| && MatchedCount(lines, expected, 0) == k + MatchedCount(lines, expected[k..], from)
  }

  lemma {:induction false} ScannedStart(lines: seq<string>, expected: seq<string>)
    ensures Scanned(lines, expected, 0, 0)
  {
    assert expected[0..] == expected;
  }

  /** The scan for the k-th expected line either ran off the end, which ends the count at k,
      or found it at line j, from which the scan for the next one starts. */
  lemma {:induction false} ScannedStep(lines: seq<string>, expected: seq<string>, k: nat, from: nat, j: nat)
    requires Scanned(lines, expected, k, from) && k < |expected|
    requires FirstMatch(lines, expected[k], from) == if j < |lines| then Some(j) else None
    ensures j >= |lines| ==> MatchedPrefix(lines, expected) == expected[..k]
    ensures j < |lines| ==> Scanned(lines, expected, k + 1, j)
  {
    MatchedCountAt(lines, expected, k, from);
  }

  lemma {:induction false} ScannedEnd(lines: seq<string>, expected: seq<string>, from: nat)
    requires Scanned(lines, expected, |expected|, from)
    ensures MatchedPrefix(lines, expected) == expected
  {
    assert expected[|expected|..] == [];
    assert expected[..|expected|] == expected;
  }

  /** The function itself: for each expected line, the inner scan from the current line
      index; the function returns what it matched so far as soon as a scan runs off the end,
      and otherwise keeps the index on the line that matched. */
  method OrderedOutputSubsetMatches(output: string, expected: seq<string>) returns (matched: seq<string>)
    ensures matched == Matches(output, expected)
  {
    var lines := Split(output, "\n");
    ghost var stripped := Lines(output);
    assert stripped == StripAll(lines);
    var lineIndex: nat := 0;
    matched := [];
    ScannedStart(stripped, expected);
    for k := 0 to |expected|
      invariant lineIndex < |lines|
      invariant matched == expected[..k]
      invariant Scanned(stripped, expected, k, lineIndex)
    {
      var j := FindLine(lines, expected[k], lineIndex);
      ScannedStep(stripped, expected, k, lineIndex, j);
      if j >= |lines| {
        return;
      }
      lineIndex := j;
      matched := matched + [expected[k]];
    }
    ScannedEnd(stripped, expected, lineIndex);
  }

  /** A way to find the expected lines in order among the stripped lines: for each one, a
      line at or after `from` that equals it, no earlier than the line found for the one before. */
  ghost predicate Embedding(lines: seq<string>, expected: seq<string>, from: nat, idx: seq<nat>) {
    && |idx| == |expected|
    && (forall k :: 0 <= k < |idx| ==> from <= idx[k] < |lines| && lines[idx[k]] == expected[k])
    && (forall k :: 0 < k < |idx| ==> idx[k - 1] <= idx[k])
  }

  /** The greedy scan is complete: it matches every expected line exactly when the lines
      can be found in order at all. */
  lemma {:induction false} GreedyMatchesAllIffEmbedding(lines: seq<string>, expected: seq<string>, from: nat)
    ensures MatchedCount(lines, expected, from) == |expected|
      <==> exists idx :: Embedding(lines, expected, from, idx)
  {
    if MatchedCount(lines, expected, from) == |expected| {
      GreedyGivesEmbedding(lines, expected, from);
    }
    if idx :| Embedding(lines, expected, from, idx) {
      EmbeddingGivesGreedy(lines, expected, from, idx);
    }
  }

  /** When the scan matches every expected line, the lines it stopped on are an embedding. */
  lemma {:induction false} GreedyGivesEmbedding(lines: seq<string>, expected: seq<string>, from: nat)
    requires MatchedCount(lines, expected, from) == |expected|
    ensures exists idx :: Embedding(lines, expected, from, idx)
    decreases |expected|
  {
    if expected == [] {
      assert Embedding(lines, expected, from, []);
    } else {
      var j := FirstMatch(lines, expected[0], from).value;
      GreedyGivesEmbedding(lines, expected[1..], j);
      var rest :| Embedding(lines, expected[1..], j, rest);
      var idx := [j] + rest;
      assert forall k :: 0 < k < |idx| ==> idx[k] == rest[k - 1];
      assert Embedding(lines, expected, from, idx);
    }
  }

  /** When some embedding exists, the scan, which always takes the earliest line, matches
      every expected line. */
  lemma {:induction false} EmbeddingGivesGreedy(lines: seq<string>, expected: seq<string>, from: nat, idx: seq<nat>)
    requires Embedding(lines, expected, from, idx)
    ensures MatchedCount(lines, expected, from) == |expected|
    decreases |expected|
  {
    if expected != [] {
      var first := FirstMatch(lines, expected[0], from);
      assert lines[idx[0]] == expected[0];
      var j := first.value;
      var rest := idx[1..];
      assert Embedding(lines, expected[1..], j, rest) by {
        forall k | 0 <= k < |rest| ensures j <= rest[k] {
          EmbeddingAboveFirst(lines, expected, from, idx, k + 1);
        }
      }
      EmbeddingGivesGreedy(lines, expected[1..], j, rest);
    }
  }

  /** In an embedding, every line found is at or after the first one. */
  lemma {:induction false} EmbeddingAboveFirst(lines: seq<string>, expected: seq<string>, from: nat, idx: seq<nat>, k: nat)
    requires Embedding(lines, expected, from, idx) && k < |idx|
    ensures idx[0] <= idx[k]
    decreases k
  {
    if k > 0 {
      EmbeddingAboveFirst(lines, expected, from, idx, k - 1);
    }
  }

  /** The expected lines the scan got through are all of them exactly when they can be found,
      in order, among the lines. */
  lemma {:induction false} PrefixIsAllIffEmbedding(lines: seq<string>, expected: seq<string>)
    ensures MatchedPrefix(lines, expected) == expected
      <==> exists idx :: Embedding(lines, expected, 0, idx)
  {
    var n := MatchedCount(lines, expected, 0);
    GreedyMatchesAllIffEmbedding(lines, expected, 0);
    if n < |expected| {
      assert |expected[..n]| == n;
    }
  }

  /** The function returns all the expected lines exactly when they can be found, in order,
      among the stripped output lines: what its callers test with `==`. */
  lemma {:induction false} AllMatchedIffFoundInOrder(output: string, expected: seq<string>)
    ensures Matches(output, expected) == expected
      <==> exists idx :: Embedding(Lines(output), expected, 0, idx)
  {
    PrefixIsAllIffEmbedding(Lines(output), expected);
  }

  /** The scan matches the first m expected lines on its own whenever it matched at least m of
      the whole list. */
  lemma {:induction false} MatchedCountOfPrefix(lines: seq<string>, expected: seq<string>, from: nat, m: nat)
    requires m <= MatchedCount(lines, expected, from)
    ensures MatchedCount(lines, expected[..m], from) == m
    decreases m
  {
    if m > 0 {
      var j := FirstMatch(lines, expected[0], from).value;
      assert expected[..m][0] == expected[0];
      assert expected[..m][1..] == expected[1..][..m - 1];
      MatchedCountOfPrefix(lines, expected[1..], j, m - 1);
    }
  }

  /** Whatever the function returns can be found in order among the stripped output lines,
      each line at or after the one found for the line before. */
  lemma {:induction false} MatchedLinesInOrder(output: string, expected: seq<string>)
    ensures exists idx :: Embedding(Lines(output), Matches(output, expected), 0, idx)
  {
    var lines := Lines(output);
    var n := MatchedCount(lines, expected, 0);
    MatchedCountOfPrefix(lines, expected, 0, n);
    assert |expected[..n]| == n;
    GreedyGivesEmbedding(lines, expected[..n], 0);
    var idx :| Embedding(lines, expected[..n], 0, idx);
    assert Matches(output, expected) == MatchedPrefix(lines, expected) == expected[..n];
    assert Embedding(Lines(output), Matches(output, expected), 0, idx);
  }

  /** The index does not move past a match, so an expected line repeated right after itself
      matches the same output line again. */
  lemma {:induction false} RepeatedLineMatchesAgain(lines: seq<string>, e: string, rest: seq<string>, from: nat)
    requires FirstMatch(lines, e, from).Some?
    ensures MatchedCount(lines, [e, e] + rest, from) == 1 + MatchedCount(lines, [e] + rest, from)
  {
    var j := FirstMatch(lines, e, from).value;
    assert ([e, e] + rest)[0] == e && ([e, e] + rest)[1..] == [e] + rest;
    assert ([e] + rest)[0] == e && ([e] + rest)[1..] == rest;
    assert FirstMatch(lines, e, j) == Some(j);
  }

  /** Nothing expected, nothing matched. */
  lemma {:induction false} NothingExpected(output: string)
    ensures Matches(output, []) == []
  {
  }
}
