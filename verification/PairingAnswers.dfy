/** Which answer every tool call ends up with (crates/pacode-core/src/agent.rs). */
module PairingAnswers {
  import opened Common
  import opened Messages
  import opened Pairing

  // --- The answer to each call ---

  /** The first result for `id` among the blocks. */
  function FirstResult(content: seq<Block>, id: string): Option<Block> {
    if content == [] then None
    else if content[0].ToolResult? && content[0].id == id then Some(content[0])
    else FirstResult(content[1..], id)
  }

  /** The first result for `id` in a run of tool messages. */
  function Answer(run: seq<Message>, id: string): Option<Block> {
    if run == [] then None
    else if FirstResult(run[0].content, id).Some? then FirstResult(run[0].content, id)
    else Answer(run[1..], id)
  }

  function AnswersTo(uses: seq<string>, run: seq<Message>): seq<(string, Option<Block>)> {
    if uses == [] then [] else [(uses[0], Answer(run, uses[0]))] + AnswersTo(uses[1..], run)
  }

  /** Every tool call in order, with the first result for it in the tool messages right behind it. */
  function CallAnswers(msgs: seq<Message>): seq<(string, Option<Block>)>
    decreases |msgs|
  {
    if msgs == [] then []
    else if !Calls(msgs[0]) then CallAnswers(msgs[1..])
    else
      var n := RunLength(msgs[1..]);
      AnswersTo(Uses(msgs[0].content), msgs[1..1 + n]) + CallAnswers(msgs[1 + n..])
  }

  /** What the repair makes of a call and its answer. */
  function Filled(answer: (string, Option<Block>)): (string, Option<Block>) {
    (answer.0, if answer.1.Some? then answer.1 else Some(ToolResult(answer.0, "[interrupted]", true)))
  }

  function FillAll(answers: seq<(string, Option<Block>)>): seq<(string, Option<Block>)> {
    if answers == [] then [] else [Filled(answers[0])] + FillAll(answers[1..])
  }

  lemma {:induction false} FillConcat(a: seq<(string, Option<Block>)>, b: seq<(string, Option<Block>)>)
    ensures FillAll(a + b) == FillAll(a) + FillAll(b)
  {
    if a == [] {
      assert a + b == b;
    } else {
      assert (a + b)[0] == a[0] && (a + b)[1..] == a[1..] + b;
      FillConcat(a[1..], b);
    }
  }

  lemma {:induction false} FirstResultIffIn(content: seq<Block>, id: string)
    ensures FirstResult(content, id).Some? <==> id in Results(content)
  {
    if content != [] { FirstResultIffIn(content[1..], id); }
  }

  lemma {:induction false} AnswerIffIn(run: seq<Message>, id: string)
    ensures Answer(run, id).Some? <==> id in RunResults(run)
  {
    if run != [] {
      FirstResultIffIn(run[0].content, id);
      AnswerIffIn(run[1..], id);
    }
  }

  lemma {:induction false} AnswerConcat(a: seq<Message>, b: seq<Message>, id: string)
    ensures Answer(a + b, id) == if Answer(a, id).Some? then Answer(a, id) else Answer(b, id)
  {
    if a == [] {
      assert a + b == b;
    } else {
      assert (a + b)[0] == a[0] && (a + b)[1..] == a[1..] + b;
      AnswerConcat(a[1..], b, id);
    }
  }

  /** A pending call keeps its first result, whatever else the message holds. */
  lemma {:induction false} PendingKept(content: seq<Block>, uses: seq<string>, answered: seq<string>, id: string)
    requires id in uses && id !in answered
    ensures FirstResult(KeepPending(content, uses, answered).content, id) == FirstResult(content, id)
    decreases |content|
  {
    if content != [] {
      var b, kept := content[0], KeepPending(content, uses, answered).content;
      var keep := b.ToolResult? && !Stray(b.id, uses, answered);
      var more := if keep then answered + [b.id] else answered;
      assert kept[1..] == KeepPending(content[1..], uses, more).content;
      if !(b.ToolResult? && b.id == id) { PendingKept(content[1..], uses, more, id); }
    }
  }

  lemma {:induction false} RunKeepsAnswer(run: seq<Message>, uses: seq<string>, answered: seq<string>, id: string)
    requires id in uses && id !in answered
    ensures Answer(FixRun(run, uses, answered).out, id) == Answer(run, id)
    decreases |run|
  {
    if run != [] {
      var first := FixAnswer(run[0], uses, answered);
      FixAnswerResults(run[0], uses, answered);
      PendingKept(run[0].content, uses, answered, id);
      var out := FixRun(run, uses, answered).out;
      assert out[0] == first.out[0] && out[1..] == FixRun(run[1..], uses, first.answered).out;
      assert FirstResult(out[0].content, id) == FirstResult(run[0].content, id);
      FirstResultIffIn(out[0].content, id);
      if FirstResult(run[0].content, id).None? { RunKeepsAnswer(run[1..], uses, first.answered, id); }
    }
  }

  lemma {:induction false} SynthesizedAnswer(ids: seq<string>, id: string)
    requires id in ids
    ensures Answer(Synthesize(ids), id) == Some(ToolResult(id, "[interrupted]", true))
  {
    var m := ToolResultMessage(ids[0], INTERRUPTED, true);
    assert Synthesize(ids)[0] == m && Synthesize(ids)[1..] == Synthesize(ids[1..]);
    assert FirstResult(m.content[1..], id) == None;
    if ids[0] != id { SynthesizedAnswer(ids[1..], id); }
  }

  /** Behind a repaired call every id has the answer it had before, or the interrupted one. */
  lemma {:induction false} BlockAnswer(run: seq<Message>, uses: seq<string>, id: string)
    requires id in uses && forall i | 0 <= i < |run| :: run[i].role == Tool
    ensures (id, Answer(Answers(run, uses), id)) == Filled((id, Answer(run, id)))
  {
    var fixed := FixRun(run, uses, []);
    var missing := Missing(uses, fixed.answered);
    RunKeepsAnswer(run, uses, [], id);
    AnswerConcat(fixed.out, Synthesize(missing), id);
    if Answer(run, id).None? {
      AnswerIffIn(run, id);
      FixRunResults(run, uses, []);
      InMissing(uses, fixed.answered, id);
      SynthesizedAnswer(missing, id);
    }
  }

  lemma {:induction false} BlockAnswers(run: seq<Message>, uses: seq<string>, ids: seq<string>)
    requires (forall id | id in ids :: id in uses) && forall i | 0 <= i < |run| :: run[i].role == Tool
    ensures AnswersTo(ids, Answers(run, uses)) == FillAll(AnswersTo(ids, run))
  {
    if ids != [] {
      BlockAnswer(run, uses, ids[0]);
      BlockAnswers(run, uses, ids[1..]);
      assert AnswersTo(ids, run)[1..] == AnswersTo(ids[1..], run);
    }
  }

  lemma {:induction false} CallAnswersBlock(m: Message, run: seq<Message>, tail: seq<Message>)
    requires Calls(m) && forall i | 0 <= i < |run| :: run[i].role == Tool
    requires tail != [] ==> tail[0].role != Tool
    ensures CallAnswers([m] + run + tail) == AnswersTo(Uses(m.content), run) + CallAnswers(tail)
  {
    var z := [m] + run + tail;
    assert z[1..] == run + tail && z[0] == m;
    RunLengthOf(run, tail);
    assert z[1..1 + |run|] == run && z[1 + |run|..] == tail;
  }

  /** The repair keeps every call and its answer: after it each call, in order, has the result it had
      first, unchanged, and the interrupted error if it had none. */
  lemma {:induction false} AnswersKept(msgs: seq<Message>)
    ensures CallAnswers(Sanitize(msgs).out) == FillAll(CallAnswers(msgs))
    decreases |msgs|
  {
    if msgs != [] && !Calls(msgs[0]) {
      AnswersKept(msgs[1..]);
      var fixed, rest := FixStray(msgs[0]).out, Sanitize(msgs[1..]).out;
      assert (fixed + rest)[0] == fixed[0] && (fixed + rest)[1..] == rest;
    } else if msgs != [] {
      var n := RunLength(msgs[1..]);
      var m, run, tail := msgs[0], msgs[1..1 + n], msgs[1 + n..];
      assert forall i | 0 <= i < n :: run[i] == msgs[1..][i];
      assert tail != [] ==> tail[0] == msgs[1..][n];
      AnswersKept(tail);
      SanitizeFirst(tail);
      BlockShape(m, run);
      AnswersShape(run, Uses(m.content));
      CallAnswersBlock(m, Answers(run, Uses(m.content)), Sanitize(tail).out);
      BlockAnswers(run, Uses(m.content), Uses(m.content));
      FillConcat(AnswersTo(Uses(m.content), run), CallAnswers(tail));
      assert Sanitize(msgs).out == [m] + Answers(run, Uses(m.content)) + Sanitize(tail).out;
    }
  }

  // --- How often a call is answered ---

  lemma {:induction false} NoDuplicatesConcat(a: seq<string>, b: seq<string>)
    ensures NoDuplicates(a + b) <==> NoDuplicates(a) && NoDuplicates(b) && forall id | id in a :: id !in b
  {
    var z := a + b;
    assert forall i | 0 <= i < |a| :: z[i] == a[i];
    assert forall i | 0 <= i < |b| :: z[|a| + i] == b[i];
    if NoDuplicates(z) {
      forall i, j | 0 <= i < |a| && 0 <= j < |b| ensures a[i] != b[j] { assert z[i] != z[|a| + j]; }
      forall i, j | 0 <= i < j < |b| ensures b[i] != b[j] { assert z[|a| + i] != z[|a| + j]; }
    }
    if NoDuplicates(a) && NoDuplicates(b) && forall id | id in a :: id !in b {
      forall i, j | 0 <= i < j < |z| ensures z[i] != z[j] {
        if i < |a| <= j { assert z[i] in a && z[j] in b; }
        if |a| <= i { assert z[i] == b[i - |a|] && z[j] == b[j - |a|]; }
      }
    }
  }

  lemma {:induction false} KeptOnce(content: seq<Block>, uses: seq<string>, answered: seq<string>)
    ensures var kept := Results(KeepPending(content, uses, answered).content);
      NoDuplicates(kept) && forall id | id in kept :: id !in answered
    decreases |content|
  {
    if content != [] {
      var b, kept := content[0], KeepPending(content, uses, answered).content;
      var keep := b.ToolResult? && !Stray(b.id, uses, answered);
      var more := if keep then answered + [b.id] else answered;
      KeptOnce(content[1..], uses, more);
      assert kept[1..] == KeepPending(content[1..], uses, more).content;
      if keep { NoDuplicatesConcat([b.id], Results(kept[1..])); }
    }
  }

  /** The message repeats a result, and nothing in it is stray: it passes as it is. */
  predicate RepeatsResult(content: seq<Block>, uses: seq<string>, answered: seq<string>) {
    !NoRepeats(Results(content)) && !HasStray(content, uses, answered)
  }

  predicate NoRepeats(ids: seq<string>) {
    ids == [] || (ids[0] !in ids[1..] && NoRepeats(ids[1..]))
  }

  lemma {:induction false} NoRepeatsIsNoDuplicates(ids: seq<string>)
    ensures NoRepeats(ids) <==> NoDuplicates(ids)
  {
    if ids != [] {
      NoRepeatsIsNoDuplicates(ids[1..]);
      NoDuplicatesCons(ids);
    }
  }

  lemma {:induction false} FixedOnce(m: Message, uses: seq<string>, answered: seq<string>)
    ensures var results := Results(FixAnswer(m, uses, answered).out[0].content);
      && (NoDuplicates(results) <==> !RepeatsResult(m.content, uses, answered))
      && forall id | id in results :: id !in answered
  {
    NoRepeatsIsNoDuplicates(Results(m.content));
    if HasStray(m.content, uses, answered) {
      KeptOnce(m.content, uses, answered);
    } else {
      forall id | id in Results(m.content) ensures id !in answered { InResults(m.content, id); }
    }
  }

  /** Some message of the run repeats a result, and neither an id of another call nor one that an earlier
      message answered is in it. */
  predicate RunRepeats(run: seq<Message>, uses: seq<string>, answered: seq<string>)
    decreases |run|
  {
    run != [] &&
    (RepeatsResult(run[0].content, uses, answered) || RunRepeats(run[1..], uses, answered + Results(run[0].content)))
  }

  /** Only which ids of the calls are answered matters. */
  lemma {:induction false} SameAnswered(run: seq<Message>, uses: seq<string>, a: seq<string>, b: seq<string>)
    requires forall id | id in uses :: id in a <==> id in b
    ensures RunRepeats(run, uses, a) <==> RunRepeats(run, uses, b)
    decreases |run|
  {
    if run != [] {
      var results := Results(run[0].content);
      SameAnswered(run[1..], uses, a + results, b + results);
      var content := run[0].content;
      assert forall i | 0 <= i < |content| && content[i].ToolResult? ::
        Stray(content[i].id, uses, a) <==> Stray(content[i].id, uses, b);
    }
  }

  lemma {:induction false} RunOnce(run: seq<Message>, uses: seq<string>, answered: seq<string>)
    requires forall i | 0 <= i < |run| :: run[i].role == Tool
    ensures var results := RunResults(FixRun(run, uses, answered).out);
      && (NoDuplicates(results) <==> !RunRepeats(run, uses, answered))
      && forall id | id in results :: id !in answered
    decreases |run|
  {
    if run != [] {
      var first := FixAnswer(run[0], uses, answered);
      FixAnswerResults(run[0], uses, answered);
      FixedOnce(run[0], uses, answered);
      RunOnce(run[1..], uses, first.answered);
      SameAnswered(run[1..], uses, first.answered, answered + Results(run[0].content));
      var fixed := FixRun(run, uses, answered);
      assert fixed.out[0] == first.out[0] && fixed.out[1..] == FixRun(run[1..], uses, first.answered).out;
      NoDuplicatesConcat(Results(first.out[0].content), RunResults(fixed.out[1..]));
    }
  }

  /** A repaired call whose ids are distinct has exactly one result for each of them, in any order, if and
      only if no message of its run repeats a result without holding a stray one. */
  lemma {:induction false} AnsweredOnceIff(m: Message, run: seq<Message>)
    requires Calls(m) && NoDuplicates(Uses(m.content)) && forall i | 0 <= i < |run| :: run[i].role == Tool
    ensures var results := RunResults(FixBlock(m, run).out[1..]);
      && (NoDuplicates(results) <==> !RunRepeats(run, Uses(m.content), []))
      && forall id :: id in results <==> id in Uses(m.content)
  {
    var uses := Uses(m.content);
    var fixed := FixRun(run, uses, []);
    var missing := Missing(uses, fixed.answered);
    BlockShape(m, run);
    AnswersShape(run, uses);
    RunOnce(run, uses, []);
    FixRunResults(run, uses, []);
    Synthesized(missing);
    RunResultsConcat(fixed.out, Synthesize(missing));
    MissingNoDuplicates(uses, fixed.answered);
    NoDuplicatesConcat(RunResults(fixed.out), missing);
    forall id | id in RunResults(fixed.out) ensures id !in missing { InMissing(uses, fixed.answered, id); }
  }

  const CALL := Message(Assistant, [ToolUse("a", "sh", "")], Normal)
  const TWICE := Message(Tool, [ToolResult("a", "one", false), ToolResult("a", "two", false)], Normal)

  lemma {:induction false} TwiceIds()
    ensures Uses(CALL.content) == ["a"] && Results(TWICE.content) == ["a", "a"] && RunResults([TWICE]) == ["a", "a"]
  {
    assert Uses(CALL.content[1..]) == [];
    assert Results(TWICE.content[1..][1..]) == [] && Results(TWICE.content[1..]) == ["a"];
    assert RunResults([TWICE][1..]) == [];
  }

  lemma {:induction false} TwiceRun()
    ensures FixRun([TWICE], ["a"], []) == RunRepair([TWICE], ["a", "a"], 0)
  {
    TwiceIds();
    assert !HasStray(TWICE.content, ["a"], []);
    var first := FixAnswer(TWICE, ["a"], []);
    assert first == RunRepair([TWICE], ["a", "a"], 0);
    assert [TWICE][1..] == [] && FixRun([], ["a"], first.answered) == RunRepair([], ["a", "a"], 0);
  }

  /** A message that answers its call twice passes with both results. */
  lemma {:induction false} RepeatedResultExample()
    ensures FixBlock(CALL, [TWICE]) == Repair([CALL, TWICE], 0) && RunResults([TWICE]) == ["a", "a"]
  {
    TwiceIds();
    TwiceRun();
    assert Missing(["a"][1..], ["a", "a"]) == [];
    assert Missing(["a"], ["a", "a"]) == [];
  }

  // --- Calls that nothing answers ---

  lemma {:induction false} AllMissing(uses: seq<string>)
    ensures Missing(uses, []) == uses
  {
    if uses != [] { AllMissing(uses[1..]); }
  }

  /** Calls that nothing answers get one interrupted error each, in the order of the calls. */
  lemma {:induction false} UnansweredInOrder(m: Message, tail: seq<Message>)
    requires Calls(m) && (tail != [] ==> tail[0].role != Tool)
    ensures var uses, out := Uses(m.content), Sanitize([m] + tail).out;
      && |out| >= 1 + |uses| && out[0] == m && out[1 + |uses|..] == Sanitize(tail).out
      && Sanitize([m] + tail).repaired == |uses| + Sanitize(tail).repaired
      && forall i | 0 <= i < |uses| ::
           out[1 + i] == Message(Tool, [ToolResult(uses[i], "[interrupted]", true)], Normal)
  {
    var uses := Uses(m.content);
    SanitizeBlock(m, [], tail);
    assert [m] + [] + tail == [m] + tail;
    AllMissing(uses);
    Synthesized(uses);
    assert FixBlock(m, []).out == [m] + Synthesize(uses);
  }
}
