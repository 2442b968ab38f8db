/** Tool-pairing repair of crates/pacode-core/src/agent.rs: providers refuse a request whose
    `tool_use` blocks are not answered in the tool messages right behind them. */
module Pairing {
  import opened Messages

  const INTERRUPTED := "[interrupted]"

  /** Repaired messages and how many repairs were made. */
  datatype Repair = Repair(out: seq<Message>, repaired: nat)

  /** A repaired answering run, the ids answered so far and the repairs made. */
  datatype RunRepair = RunRepair(out: seq<Message>, answered: seq<string>, repaired: nat)

  /** A tool message's blocks after repair, and the ids answered so far. */
  datatype Kept = Kept(content: seq<Block>, ids: seq<string>)

  function Degrade(b: Block): Block {
    if b.ToolResult? then Text("[unmatched tool result (call " + b.id + ")]\n" + b.content) else b
  }

  predicate Stray(id: string, uses: seq<string>, answered: seq<string>) {
    id !in uses || id in answered
  }

  predicate HasStray(content: seq<Block>, uses: seq<string>, answered: seq<string>) {
    exists i | 0 <= i < |content| :: content[i].ToolResult? && Stray(content[i].id, uses, answered)
  }

  function DegradeAll(content: seq<Block>): seq<Block> {
    if content == [] then [] else [Degrade(content[0])] + DegradeAll(content[1..])
  }

  /** Keeps the first pending result per id and degrades the others. */
  function KeepPending(content: seq<Block>, uses: seq<string>, answered: seq<string>): Kept
    decreases |content|
  {
    if content == [] then Kept([], answered)
    else
      var b := content[0];
      var keep := b.ToolResult? && !Stray(b.id, uses, answered);
      var rest := KeepPending(content[1..], uses, if keep then answered + [b.id] else answered);
      Kept([if keep then b else Degrade(b)] + rest.content, rest.ids)
  }

  /** One tool message of an answering run. */
  function FixAnswer(m: Message, uses: seq<string>, answered: seq<string>): RunRepair {
    if !HasStray(m.content, uses, answered) then RunRepair([m], answered + Results(m.content), 0)
    else
      var kept := KeepPending(m.content, uses, answered);
      RunRepair([m.(content := kept.content)], kept.ids, 1)
  }

  function FixRun(run: seq<Message>, uses: seq<string>, answered: seq<string>): RunRepair
    decreases |run|
  {
    if run == [] then RunRepair([], answered, 0)
    else
      var first := FixAnswer(run[0], uses, answered);
      var rest := FixRun(run[1..], uses, first.answered);
      RunRepair(first.out + rest.out, rest.answered, first.repaired + rest.repaired)
  }

  /** A message with no tool call pending behind it. */
  function FixStray(m: Message): Repair {
    if m.role != Tool || Results(m.content) == [] then Repair([m], 0)
    else Repair([m.(content := DegradeAll(m.content))], 1)
  }

  /** The ids of `uses` that are not in `answered`, in order. */
  function Missing(uses: seq<string>, answered: seq<string>): seq<string> {
    if uses == [] then []
    else (if uses[0] in answered then [] else [uses[0]]) + Missing(uses[1..], answered)
  }

  function Synthesize(ids: seq<string>): seq<Message> {
    if ids == [] then [] else [ToolResultMessage(ids[0], INTERRUPTED, true)] + Synthesize(ids[1..])
  }

  predicate Calls(m: Message) {
    m.role == Assistant && Uses(m.content) != []
  }

  /** Length of the run of tool messages at the front. */
  function RunLength(msgs: seq<Message>): (n: nat)
    ensures n <= |msgs|
    ensures forall i | 0 <= i < n :: msgs[i].role == Tool
    ensures n < |msgs| ==> msgs[n].role != Tool
  {
    if msgs == [] || msgs[0].role != Tool then 0 else 1 + RunLength(msgs[1..])
  }

  /** An assistant message with calls, its repaired answering run and the synthesized answers. */
  function FixBlock(m: Message, run: seq<Message>): Repair {
    var fixed := FixRun(run, Uses(m.content), []);
    var missing := Missing(Uses(m.content), fixed.answered);
    Repair([m] + fixed.out + Synthesize(missing), fixed.repaired + |missing|)
  }

  function Sanitize(msgs: seq<Message>): Repair
    decreases |msgs|
  {
    if msgs == [] then Repair([], 0)
    else if !Calls(msgs[0]) then
      var rest := Sanitize(msgs[1..]);
      Repair(FixStray(msgs[0]).out + rest.out, FixStray(msgs[0]).repaired + rest.repaired)
    else
      var n := RunLength(msgs[1..]);
      var block := FixBlock(msgs[0], msgs[1..1 + n]);
      var rest := Sanitize(msgs[1 + n..]);
      Repair(block.out + rest.out, block.repaired + rest.repaired)
  }

  // --- The pairing every provider demands ---

  /** `msgs[j]` lies in the run of tool messages directly behind `msgs[a]`. */
  ghost predicate Behind(msgs: seq<Message>, a: int, j: int) {
    0 <= a < j < |msgs| && msgs[a].role != Tool && forall k | a < k <= j :: msgs[k].role == Tool
  }

  /** `id` is answered in the run behind `msgs[a]`. */
  ghost predicate Answered(msgs: seq<Message>, a: int, id: string) {
    exists j :: Behind(msgs, a, j) && id in Results(msgs[j].content)
  }

  /** The tool message `msgs[j]` sits behind an assistant message that made call `id`. */
  ghost predicate Asked(msgs: seq<Message>, j: int, id: string) {
    exists a :: Behind(msgs, a, j) && msgs[a].role == Assistant && id in Uses(msgs[a].content)
  }

  ghost predicate WellPaired(msgs: seq<Message>) {
    && (forall a, id | 0 <= a < |msgs| && msgs[a].role == Assistant && id in Uses(msgs[a].content) ::
      Answered(msgs, a, id))
    && (forall j, id | 0 <= j < |msgs| && msgs[j].role == Tool && id in Results(msgs[j].content) :: Asked(msgs, j, id))
  }

  lemma {:induction false} BehindShift(head: seq<Message>, tail: seq<Message>, a: int, j: int)
    requires 0 <= a
    ensures Behind(head + tail, a + |head|, j + |head|) <==> Behind(tail, a, j)
  {
    var z := head + tail;
    if Behind(z, a + |head|, j + |head|) {
      forall k | a < k <= j ensures tail[k].role == Tool { assert z[k + |head|] == tail[k]; }
    }
    if Behind(tail, a, j) {
      forall k | a + |head| < k <= j + |head| ensures z[k].role == Tool { assert z[k] == tail[k - |head|]; }
    }
  }

  lemma {:induction false} AnsweredShift(head: seq<Message>, tail: seq<Message>, a: int, id: string)
    requires 0 <= a
    ensures Answered(head + tail, a + |head|, id) <==> Answered(tail, a, id)
  {
    var z := head + tail;
    if Answered(z, a + |head|, id) {
      var j :| Behind(z, a + |head|, j) && id in Results(z[j].content);
      BehindShift(head, tail, a, j - |head|);
      assert Behind(tail, a, j - |head|) && tail[j - |head|] == z[j];
    }
    if Answered(tail, a, id) {
      var j :| Behind(tail, a, j) && id in Results(tail[j].content);
      BehindShift(head, tail, a, j);
      assert z[j + |head|] == tail[j];
    }
  }

  lemma {:induction false} AnsweredPrefix(head: seq<Message>, tail: seq<Message>, a: int, id: string)
    requires 0 <= a < |head|
    ensures Answered(head, a, id) ==> Answered(head + tail, a, id)
    ensures (tail != [] ==> tail[0].role != Tool) && Answered(head + tail, a, id) ==> Answered(head, a, id)
  {
    var z := head + tail;
    if Answered(head, a, id) {
      var j :| Behind(head, a, j) && id in Results(head[j].content);
      assert Behind(z, a, j);
    }
    if (tail != [] ==> tail[0].role != Tool) && Answered(z, a, id) {
      var j :| Behind(z, a, j) && id in Results(z[j].content);
      assert j < |head| by {
        assert tail != [] ==> z[|head|] == tail[0];
      }
      forall k | a < k <= j ensures head[k].role == Tool { assert head[k] == z[k]; }
      assert Behind(head, a, j);
    }
  }

  lemma {:induction false} AskedConcat(x: seq<Message>, y: seq<Message>, j: int, id: string)
    ensures Asked(x, j, id) ==> Asked(x + y, j, id)
    ensures Asked(y, j, id) ==> Asked(x + y, j + |x|, id)
  {
    var z := x + y;
    if Asked(x, j, id) {
      var a :| Behind(x, a, j) && x[a].role == Assistant && id in Uses(x[a].content);
      assert Behind(z, a, j);
    }
    if Asked(y, j, id) {
      var a :| Behind(y, a, j) && y[a].role == Assistant && id in Uses(y[a].content);
      BehindShift(x, y, a, j);
      assert z[a + |x|] == y[a];
    }
  }

  lemma {:induction false} WellPairedConcat(x: seq<Message>, y: seq<Message>)
    requires WellPaired(x) && WellPaired(y)
    ensures WellPaired(x + y)
  {
    var z := x + y;
    forall a, id | 0 <= a < |z| && z[a].role == Assistant && id in Uses(z[a].content) ensures Answered(z, a, id) {
      if a < |x| { AnsweredPrefix(x, y, a, id); } else { AnsweredShift(x, y, a - |x|, id); }
    }
    forall j, id | 0 <= j < |z| && z[j].role == Tool && id in Results(z[j].content) ensures Asked(z, j, id) {
      AskedConcat(x, y, if j < |x| then j else j - |x|, id);
    }
  }

  lemma {:induction false} ResultsDegraded(content: seq<Block>)
    ensures Results(DegradeAll(content)) == []
  {
    if content != [] { ResultsDegraded(content[1..]); }
  }

  lemma {:induction false} InResults(content: seq<Block>, id: string)
    ensures id in Results(content) <==> exists i :: 0 <= i < |content| && content[i].ToolResult? && content[i].id == id
  {
    if content != [] {
      InResults(content[1..], id);
      if exists i :: 0 <= i < |content| && content[i].ToolResult? && content[i].id == id {
        var i :| 0 <= i < |content| && content[i].ToolResult? && content[i].id == id;
        if i > 0 { assert content[1..][i - 1] == content[i]; }
      }
    }
  }

  /** What survives in a fixed message are pending calls, and they are what gets answered. */
  lemma {:induction false} KeepPendingResults(content: seq<Block>, uses: seq<string>, answered: seq<string>)
    ensures var kept := KeepPending(content, uses, answered);
      && kept.ids == answered + Results(kept.content)
      && (forall id :: id in Results(kept.content) ==> id in uses && id in Results(content))
      && (forall id :: id in Results(content) && id in uses ==> id in kept.ids)
      && |kept.content| == |content|
    decreases |content|
  {
    if content != [] {
      var b := content[0];
      var keep := b.ToolResult? && !Stray(b.id, uses, answered);
      var more := if keep then answered + [b.id] else answered;
      KeepPendingResults(content[1..], uses, more);
      var kept, rest := KeepPending(content, uses, answered), KeepPending(content[1..], uses, more);
      assert kept.content[1..] == rest.content;
      assert Results(kept.content) == (if keep then [b.id] else []) + Results(rest.content);
      assert kept.ids == answered + Results(kept.content);
    }
  }

  /** The result ids of a whole run. */
  function RunResults(run: seq<Message>): seq<string> {
    if run == [] then [] else Results(run[0].content) + RunResults(run[1..])
  }

  lemma {:induction false} FixAnswerResults(m: Message, uses: seq<string>, answered: seq<string>)
    ensures var f := FixAnswer(m, uses, answered);
      && |f.out| == 1 && f.out[0].role == m.role && f.out[0].kind == m.kind
      && f.answered == answered + Results(f.out[0].content)
      && (forall id :: id in Results(f.out[0].content) ==> id in uses && id in Results(m.content))
      && (forall id :: id in Results(m.content) && id in uses ==> id in f.answered)
  {
    if HasStray(m.content, uses, answered) {
      KeepPendingResults(m.content, uses, answered);
    } else {
      forall id | id in Results(m.content) ensures id in uses {
        InResults(m.content, id);
      }
    }
  }

  lemma {:induction false} FixRunResults(run: seq<Message>, uses: seq<string>, answered: seq<string>)
    requires forall i | 0 <= i < |run| :: run[i].role == Tool
    ensures var f := FixRun(run, uses, answered);
      && |f.out| == |run|
      && (forall i | 0 <= i < |run| :: f.out[i].role == Tool)
      && (forall i, id | 0 <= i < |run| && id in Results(f.out[i].content) :: id in uses)
      && f.answered == answered + RunResults(f.out)
      && (forall id :: id in uses ==> (id in f.answered <==> id in answered || id in RunResults(run)))
    decreases |run|
  {
    if run != [] {
      var first := FixAnswer(run[0], uses, answered);
      FixAnswerResults(run[0], uses, answered);
      FixRunResults(run[1..], uses, first.answered);
      var rest := FixRun(run[1..], uses, first.answered);
      var f := FixRun(run, uses, answered);
      assert f.out[0] == first.out[0] && f.out[1..] == rest.out;
      assert f.answered == answered + (Results(first.out[0].content) + RunResults(rest.out));
      forall i, id | 0 <= i < |run| && id in Results(f.out[i].content) ensures id in uses {
        if i > 0 { assert f.out[i] == rest.out[i - 1]; }
      }
    }
  }

  lemma {:induction false} RunResultsIn(run: seq<Message>, id: string)
    ensures id in RunResults(run) <==> exists i :: 0 <= i < |run| && id in Results(run[i].content)
  {
    if run != [] {
      RunResultsIn(run[1..], id);
      if exists i :: 0 <= i < |run| && id in Results(run[i].content) {
        var i :| 0 <= i < |run| && id in Results(run[i].content);
        if i > 0 { assert run[1..][i - 1] == run[i]; }
      }
    }
  }

  lemma {:induction false} InMissing(uses: seq<string>, answered: seq<string>, id: string)
    ensures id in Missing(uses, answered) <==> id in uses && id !in answered
  {
    if uses != [] { InMissing(uses[1..], answered, id); }
  }

  lemma {:induction false} Synthesized(ids: seq<string>)
    ensures |Synthesize(ids)| == |ids| && RunResults(Synthesize(ids)) == ids
    ensures forall i | 0 <= i < |ids| :: Synthesize(ids)[i] == ToolResultMessage(ids[i], INTERRUPTED, true)
    ensures forall i | 0 <= i < |ids| :: Results(Synthesize(ids)[i].content) == [ids[i]]
  {
    if ids != [] {
      Synthesized(ids[1..]);
      var m := ToolResultMessage(ids[0], INTERRUPTED, true);
      assert Results(m.content) == [ids[0]] by { assert Results(m.content[1..]) == []; }
      assert Synthesize(ids)[1..] == Synthesize(ids[1..]);
    }
  }

  lemma {:induction false} RunResultsConcat(x: seq<Message>, y: seq<Message>)
    ensures RunResults(x + y) == RunResults(x) + RunResults(y)
  {
    if x == [] {
      assert x + y == y;
    } else {
      assert (x + y)[1..] == x[1..] + y;
      RunResultsConcat(x[1..], y);
    }
  }

  /** The tool messages a repaired call ends up with. */
  function Answers(run: seq<Message>, uses: seq<string>): seq<Message> {
    var fixed := FixRun(run, uses, []);
    fixed.out + Synthesize(Missing(uses, fixed.answered))
  }

  lemma {:induction false} AnswersShape(run: seq<Message>, uses: seq<string>)
    requires forall i | 0 <= i < |run| :: run[i].role == Tool
    ensures forall i | 0 <= i < |Answers(run, uses)| :: Answers(run, uses)[i].role == Tool
    ensures forall id :: id in RunResults(Answers(run, uses)) <==> id in uses
  {
    var fixed := FixRun(run, uses, []);
    FixRunResults(run, uses, []);
    var missing := Missing(uses, fixed.answered);
    Synthesized(missing);
    RunResultsConcat(fixed.out, Synthesize(missing));
    forall id ensures id in RunResults(Answers(run, uses)) <==> id in uses {
      InMissing(uses, fixed.answered, id);
      RunResultsIn(fixed.out, id);
    }
  }

  lemma {:induction false} BlockShape(m: Message, run: seq<Message>)
    ensures var out := FixBlock(m, run).out;
      |out| >= 1 && out[0] == m && out[1..] == Answers(run, Uses(m.content)) && out == [m] + out[1..]
  {
  }

  /** A repaired call is followed by tool messages whose results are exactly its own ids. */
  lemma {:induction false} BlockResults(m: Message, run: seq<Message>)
    requires forall i | 0 <= i < |run| :: run[i].role == Tool
    ensures var out := FixBlock(m, run).out;
      && (forall i | 1 <= i < |out| :: out[i].role == Tool)
      && (forall id :: id in Uses(m.content) <==> exists j :: 1 <= j < |out| && id in Results(out[j].content))
  {
    BlockShape(m, run);
    AnswersShape(run, Uses(m.content));
    var out := FixBlock(m, run).out;
    forall i | 1 <= i < |out| ensures out[i].role == Tool { assert out[i] == out[1..][i - 1]; }
    assert forall i | 0 <= i < |out[1..]| :: out[1..][i] == out[i + 1];
    forall id ensures id in Uses(m.content) <==> exists j :: 1 <= j < |out| && id in Results(out[j].content) {
      RunResultsIn(out[1..], id);
      if id in Uses(m.content) {
        var i :| 0 <= i < |out[1..]| && id in Results(out[1..][i].content);
        assert id in Results(out[i + 1].content);
      }
      if exists j :: 1 <= j < |out| && id in Results(out[j].content) {
        var j :| 1 <= j < |out| && id in Results(out[j].content);
        assert out[1..][j - 1] == out[j];
      }
    }
  }

  lemma {:induction false} BlockWellPaired(m: Message, run: seq<Message>)
    requires Calls(m) && forall i | 0 <= i < |run| :: run[i].role == Tool
    ensures WellPaired(FixBlock(m, run).out)
  {
    BlockShape(m, run);
    BlockResults(m, run);
    var out := FixBlock(m, run).out;
    forall i | 1 <= i < |out| ensures Behind(out, 0, i) {}
    forall id | id in Uses(m.content) ensures Answered(out, 0, id) {
      var j :| 1 <= j < |out| && id in Results(out[j].content);
      assert Behind(out, 0, j);
    }
    forall j, id | 0 <= j < |out| && out[j].role == Tool && id in Results(out[j].content) ensures Asked(out, j, id) {
      assert Behind(out, 0, j) && out[0].role == Assistant;
    }
  }

  /** Correctness of the repair, for every message list. */
  lemma {:induction false} SanitizeWellPaired(msgs: seq<Message>)
    ensures WellPaired(Sanitize(msgs).out)
    decreases |msgs|
  {
    if msgs != [] {
      if !Calls(msgs[0]) {
        var fixed := FixStray(msgs[0]).out;
        assert WellPaired(fixed) by {
          ResultsDegraded(msgs[0].content);
        }
        SanitizeWellPaired(msgs[1..]);
        WellPairedConcat(fixed, Sanitize(msgs[1..]).out);
      } else {
        var n := RunLength(msgs[1..]);
        var run := msgs[1..1 + n];
        assert forall i | 0 <= i < n :: run[i] == msgs[1..][i];
        BlockWellPaired(msgs[0], run);
        SanitizeWellPaired(msgs[1 + n..]);
        WellPairedConcat(FixBlock(msgs[0], run).out, Sanitize(msgs[1 + n..]).out);
      }
    }
  }

  // --- Repairs are counted, and only damage is touched ---

  lemma {:induction false} DegradeAllAt(content: seq<Block>)
    ensures |DegradeAll(content)| == |content|
    ensures forall i | 0 <= i < |content| :: DegradeAll(content)[i] == Degrade(content[i])
  {
    if content != [] { DegradeAllAt(content[1..]); }
  }

  lemma {:induction false} FixStrayCount(m: Message)
    ensures FixStray(m).repaired == 0 <==> FixStray(m).out == [m]
  {
    DegradeAllAt(m.content);
    if m.role == Tool && Results(m.content) != [] {
      var id := Results(m.content)[0];
      InResults(m.content, id);
      var i :| 0 <= i < |m.content| && m.content[i].ToolResult?;
      assert DegradeAll(m.content)[i] != m.content[i];
      assert FixStray(m).out[0].content != m.content;
    }
  }

  lemma {:induction false} KeepPendingChanges(content: seq<Block>, uses: seq<string>, answered: seq<string>)
    ensures HasStray(content, uses, answered) ==> KeepPending(content, uses, answered).content != content
    decreases |content|
  {
    if HasStray(content, uses, answered) {
      var b, kept := content[0], KeepPending(content, uses, answered).content;
      var i :| 0 <= i < |content| && content[i].ToolResult? && Stray(content[i].id, uses, answered);
      if b.ToolResult? && Stray(b.id, uses, answered) {
        assert kept[0] == Degrade(b) != b;
      } else {
        var more := if b.ToolResult? then answered + [b.id] else answered;
        assert i > 0 && content[1..][i - 1] == content[i] && Stray(content[i].id, uses, more);
        assert HasStray(content[1..], uses, more);
        KeepPendingChanges(content[1..], uses, more);
        assert kept[1..] == KeepPending(content[1..], uses, more).content;
      }
    }
  }

  lemma {:induction false} FixAnswerCount(m: Message, uses: seq<string>, answered: seq<string>)
    ensures FixAnswer(m, uses, answered).repaired == 0 <==> FixAnswer(m, uses, answered).out == [m]
  {
    KeepPendingChanges(m.content, uses, answered);
    if HasStray(m.content, uses, answered) {
      assert FixAnswer(m, uses, answered).out[0].content != m.content;
    }
  }

  lemma {:induction false} FixRunCount(run: seq<Message>, uses: seq<string>, answered: seq<string>)
    ensures |FixRun(run, uses, answered).out| == |run|
    ensures FixRun(run, uses, answered).repaired == 0 <==> FixRun(run, uses, answered).out == run
    decreases |run|
  {
    if run != [] {
      var first := FixAnswer(run[0], uses, answered);
      FixAnswerCount(run[0], uses, answered);
      FixAnswerResults(run[0], uses, answered);
      FixRunCount(run[1..], uses, first.answered);
      var f, rest := FixRun(run, uses, answered), FixRun(run[1..], uses, first.answered);
      assert f.out[0] == first.out[0] && f.out[1..] == rest.out;
      assert f.out == run <==> first.out[0] == run[0] && rest.out == run[1..];
    }
  }

  lemma {:induction false} FixBlockCount(m: Message, run: seq<Message>)
    ensures |FixBlock(m, run).out| >= 1 + |run|
    ensures FixBlock(m, run).repaired == 0 <==> FixBlock(m, run).out == [m] + run
  {
    var uses := Uses(m.content);
    FixRunCount(run, uses, []);
    var fixed := FixRun(run, uses, []);
    var missing := Missing(uses, fixed.answered);
    Synthesized(missing);
    var out := FixBlock(m, run).out;
    assert out[0] == m && out[1..1 + |run|] == fixed.out;
    if out == [m] + run {
      assert |missing| == 0;
      assert out[1..1 + |run|] == run;
    }
  }

  /** The walk repairs a call with its run, or a single message, and goes on behind it. */
  lemma {:induction false} SanitizeSplit(msgs: seq<Message>)
    returns (run: seq<Message>, tail: seq<Message>, fixed: Repair)
    requires msgs != []
    ensures msgs == [msgs[0]] + run + tail && |tail| < |msgs| && (!Calls(msgs[0]) ==> run == [])
    ensures forall i | 0 <= i < |run| :: run[i].role == Tool
    ensures fixed == if Calls(msgs[0]) then FixBlock(msgs[0], run) else FixStray(msgs[0])
    ensures Sanitize(msgs) == Repair(fixed.out + Sanitize(tail).out, fixed.repaired + Sanitize(tail).repaired)
  {
    var n := if Calls(msgs[0]) then RunLength(msgs[1..]) else 0;
    run, tail := msgs[1..1 + n], msgs[1 + n..];
    fixed := if Calls(msgs[0]) then FixBlock(msgs[0], run) else FixStray(msgs[0]);
    assert forall i | 0 <= i < n :: run[i] == msgs[1..][i];
  }

  lemma {:induction false} PartsEqual(a: seq<Message>, b: seq<Message>, c: seq<Message>, d: seq<Message>)
    requires |a| >= |c| && |b| >= |d|
    ensures a + b == c + d <==> a == c && b == d
  {
    if a + b == c + d {
      assert |a + b| == |c + d|;
      assert a == (a + b)[..|a|] == (c + d)[..|c|] == c;
      assert b == (a + b)[|a|..] == (c + d)[|c|..] == d;
    }
  }

  /** The count is zero exactly when nothing was changed, so a clean history passes untouched. */
  lemma {:induction false} RepairsCounted(msgs: seq<Message>)
    ensures |Sanitize(msgs).out| >= |msgs|
    ensures Sanitize(msgs).repaired == 0 <==> Sanitize(msgs).out == msgs
    decreases |msgs|
  {
    if msgs != [] {
      var run, tail, fixed := SanitizeSplit(msgs);
      var head := [msgs[0]] + run;
      if Calls(msgs[0]) { FixBlockCount(msgs[0], run); } else { FixStrayCount(msgs[0]); }
      assert fixed.repaired == 0 <==> fixed.out == head;
      RepairsCounted(tail);
      PartsEqual(fixed.out, Sanitize(tail).out, head, tail);
    }
  }

  /** The conversation itself, without tool messages. */
  function Conversation(msgs: seq<Message>): seq<Message> {
    if msgs == [] then [] else (if msgs[0].role == Tool then [] else [msgs[0]]) + Conversation(msgs[1..])
  }

  lemma {:induction false} ConversationConcat(x: seq<Message>, y: seq<Message>)
    ensures Conversation(x + y) == Conversation(x) + Conversation(y)
  {
    if x == [] {
      assert x + y == y;
    } else {
      assert (x + y)[1..] == x[1..] + y;
      ConversationConcat(x[1..], y);
    }
  }

  lemma {:induction false} NoConversation(x: seq<Message>)
    requires forall i | 0 <= i < |x| :: x[i].role == Tool
    ensures Conversation(x) == []
  {
    if x != [] { NoConversation(x[1..]); }
  }

  lemma {:induction false} BlockConversation(m: Message, run: seq<Message>)
    requires forall i | 0 <= i < |run| :: run[i].role == Tool
    ensures Conversation(FixBlock(m, run).out) == Conversation([m] + run)
  {
    var out := FixBlock(m, run).out;
    BlockShape(m, run);
    AnswersShape(run, Uses(m.content));
    NoConversation(out[1..]);
    NoConversation(run);
    ConversationConcat([m], out[1..]);
    ConversationConcat([m], run);
  }

  lemma {:induction false} StrayConversation(m: Message)
    ensures Conversation(FixStray(m).out) == Conversation([m])
  {
    assert FixStray(m).out[1..] == [] && [m][1..] == [];
  }

  /** User and assistant messages pass through unchanged and in order. */
  lemma {:induction false} ConversationKept(msgs: seq<Message>)
    ensures Conversation(Sanitize(msgs).out) == Conversation(msgs)
    decreases |msgs|
  {
    if msgs != [] {
      var run, tail, fixed := SanitizeSplit(msgs);
      ConversationKept(tail);
      ConversationConcat(fixed.out, Sanitize(tail).out);
      ConversationConcat([msgs[0]] + run, tail);
      if Calls(msgs[0]) {
        BlockConversation(msgs[0], run);
      } else {
        assert [msgs[0]] + run == [msgs[0]];
        StrayConversation(msgs[0]);
      }
    }
  }

  // --- No text is lost ---

  /** A result may become text, which names its call and ends in its content. */
  predicate CarriesBlock(b: Block, c: Block) {
    c == b || (b.ToolResult? && c == Text("[unmatched tool result (call " + b.id + ")]\n" + b.content))
  }

  ghost predicate Carries(m: Message, f: Message) {
    && f.role == m.role && f.kind == m.kind && |f.content| == |m.content|
    && forall i | 0 <= i < |m.content| :: CarriesBlock(m.content[i], f.content[i])
  }

  predicate Interrupted(m: Message) {
    m.role == Tool && |m.content| == 1 && m.content[0].ToolResult? && m.content[0].content == INTERRUPTED
    && m.content[0].isError
  }

  /** `out` is `msgs`, message by message, with interrupted results inserted. */
  ghost predicate Embeds(msgs: seq<Message>, out: seq<Message>)
    decreases |out|
  {
    if out == [] then msgs == []
    else
      || (msgs != [] && Carries(msgs[0], out[0]) && Embeds(msgs[1..], out[1..]))
      || (Interrupted(out[0]) && Embeds(msgs, out[1..]))
  }

  lemma {:induction false} EmbedsConcat(m1: seq<Message>, o1: seq<Message>, m2: seq<Message>, o2: seq<Message>)
    requires Embeds(m1, o1) && Embeds(m2, o2)
    ensures Embeds(m1 + m2, o1 + o2)
    decreases |o1|
  {
    if o1 == [] {
      assert m1 + m2 == m2 && o1 + o2 == o2;
    } else {
      assert (o1 + o2)[1..] == o1[1..] + o2;
      if m1 != [] && Carries(m1[0], o1[0]) && Embeds(m1[1..], o1[1..]) {
        assert (m1 + m2)[1..] == m1[1..] + m2;
        EmbedsConcat(m1[1..], o1[1..], m2, o2);
      } else {
        EmbedsConcat(m1, o1[1..], m2, o2);
      }
    }
  }

  lemma {:induction false} EmbedsOne(m: Message, f: Message)
    requires Carries(m, f)
    ensures Embeds([m], [f])
  {
    assert [m][1..] == [] && [f][1..] == [];
  }

  lemma {:induction false} EmbedsSynthesized(ids: seq<string>)
    ensures Embeds([], Synthesize(ids))
  {
    if ids != [] {
      EmbedsSynthesized(ids[1..]);
      assert Synthesize(ids)[1..] == Synthesize(ids[1..]);
    }
  }

  lemma {:induction false} KeepPendingCarries(content: seq<Block>, uses: seq<string>, answered: seq<string>)
    ensures var kept := KeepPending(content, uses, answered).content;
      |kept| == |content| && forall i | 0 <= i < |content| :: CarriesBlock(content[i], kept[i])
    decreases |content|
  {
    if content != [] {
      var b := content[0];
      var keep := b.ToolResult? && !Stray(b.id, uses, answered);
      var more := if keep then answered + [b.id] else answered;
      KeepPendingCarries(content[1..], uses, more);
      var kept, rest := KeepPending(content, uses, answered).content, KeepPending(content[1..], uses, more).content;
      forall i | 0 <= i < |content| ensures CarriesBlock(content[i], kept[i]) {
        if i > 0 { assert kept[i] == rest[i - 1] && content[i] == content[1..][i - 1]; }
      }
    }
  }

  lemma {:induction false} FixRunEmbeds(run: seq<Message>, uses: seq<string>, answered: seq<string>)
    ensures Embeds(run, FixRun(run, uses, answered).out)
    decreases |run|
  {
    if run != [] {
      var first := FixAnswer(run[0], uses, answered);
      KeepPendingCarries(run[0].content, uses, answered);
      EmbedsOne(run[0], first.out[0]);
      FixRunEmbeds(run[1..], uses, first.answered);
      assert first.out == [first.out[0]] && run == [run[0]] + run[1..];
      EmbedsConcat([run[0]], first.out, run[1..], FixRun(run[1..], uses, first.answered).out);
    }
  }

  lemma {:induction false} BlockEmbeds(m: Message, run: seq<Message>)
    ensures Embeds([m] + run, FixBlock(m, run).out)
  {
    var fixed := FixRun(run, Uses(m.content), []);
    var missing := Missing(Uses(m.content), fixed.answered);
    EmbedsOne(m, m);
    FixRunEmbeds(run, Uses(m.content), []);
    EmbedsSynthesized(missing);
    EmbedsConcat([m], [m], run, fixed.out);
    EmbedsConcat([m] + run, [m] + fixed.out, [], Synthesize(missing));
    assert [m] + run + [] == [m] + run;
  }

  lemma {:induction false} StrayEmbeds(m: Message)
    ensures Embeds([m], FixStray(m).out)
  {
    DegradeAllAt(m.content);
    forall b ensures CarriesBlock(b, Degrade(b)) {}
    EmbedsOne(m, FixStray(m).out[0]);
    assert FixStray(m).out == [FixStray(m).out[0]];
  }

  /** Conservation: every message survives in order with all its text; only interrupted results
      are added. */
  lemma {:induction false} EverythingCarried(msgs: seq<Message>)
    ensures Embeds(msgs, Sanitize(msgs).out)
    decreases |msgs|
  {
    if msgs != [] {
      var n := if Calls(msgs[0]) then RunLength(msgs[1..]) else 0;
      var run, tail := msgs[1..1 + n], msgs[1 + n..];
      EverythingCarried(tail);
      assert msgs == [msgs[0]] + run + tail;
      if Calls(msgs[0]) {
        BlockEmbeds(msgs[0], run);
        EmbedsConcat([msgs[0]] + run, FixBlock(msgs[0], run).out, tail, Sanitize(tail).out);
      } else {
        StrayEmbeds(msgs[0]);
        assert [msgs[0]] + run == [msgs[0]];
        EmbedsConcat([msgs[0]], FixStray(msgs[0]).out, tail, Sanitize(tail).out);
      }
    }
  }

  // --- A second pass ---

  ghost predicate NoDuplicates(ids: seq<string>) {
    forall i, j | 0 <= i < j < |ids| :: ids[i] != ids[j]
  }

  /** The assistant message `msgs[a]` repeats a call that nothing behind it answers. */
  ghost predicate RepeatedGap(msgs: seq<Message>, a: int) {
    0 <= a < |msgs| && msgs[a].role == Assistant &&
    exists i, j :: 0 <= i < j < |Uses(msgs[a].content)| && Uses(msgs[a].content)[i] == Uses(msgs[a].content)[j]
      && !Answered(msgs, a, Uses(msgs[a].content)[i])
  }

  /** Every id that occurs twice in `uses` is in `answered`. */
  ghost predicate RepeatsAnswered(uses: seq<string>, answered: seq<string>) {
    forall i, j | 0 <= i < j < |uses| :: uses[i] == uses[j] ==> uses[i] in answered
  }

  lemma {:induction false} NoDuplicatesCons(ids: seq<string>)
    requires ids != []
    ensures NoDuplicates(ids) <==> NoDuplicates(ids[1..]) && ids[0] !in ids[1..]
  {
    var tail := ids[1..];
    assert forall i | 0 <= i < |tail| :: tail[i] == ids[i + 1];
    if NoDuplicates(tail) && ids[0] !in tail {
      forall i, j | 0 <= i < j < |ids| ensures ids[i] != ids[j] {
        assert ids[j] == tail[j - 1];
        if i > 0 { assert ids[i] == tail[i - 1]; }
      }
    }
  }

  lemma {:induction false} MissingNoDuplicates(uses: seq<string>, answered: seq<string>)
    ensures NoDuplicates(Missing(uses, answered)) <==> RepeatsAnswered(uses, answered)
  {
    if uses != [] {
      var rest := uses[1..];
      MissingNoDuplicates(rest, answered);
      InMissing(rest, answered, uses[0]);
      var missing, tail := Missing(uses, answered), Missing(rest, answered);
      if uses[0] in answered {
        assert missing == tail;
      } else {
        assert missing[0] == uses[0] && missing[1..] == tail;
        NoDuplicatesCons(missing);
      }
      assert forall i | 0 <= i < |rest| :: rest[i] == uses[i + 1];
      assert uses[0] in rest <==> exists j :: 1 <= j < |uses| && uses[j] == uses[0];
    }
  }

  lemma {:induction false} KeepPendingStable(content: seq<Block>, uses: seq<string>, answered: seq<string>)
    ensures !HasStray(KeepPending(content, uses, answered).content, uses, answered)
    decreases |content|
  {
    if content != [] {
      var b, kept := content[0], KeepPending(content, uses, answered).content;
      var keep := b.ToolResult? && !Stray(b.id, uses, answered);
      var more := if keep then answered + [b.id] else answered;
      KeepPendingStable(content[1..], uses, more);
      var rest := KeepPending(content[1..], uses, more).content;
      forall i | 0 <= i < |kept| && kept[i].ToolResult? ensures !Stray(kept[i].id, uses, answered) {
        if i > 0 { assert rest[i - 1] == kept[i]; }
      }
    }
  }

  lemma {:induction false} FixAnswerStable(m: Message, uses: seq<string>, answered: seq<string>)
    ensures var f := FixAnswer(m, uses, answered);
      FixAnswer(f.out[0], uses, answered) == RunRepair(f.out, f.answered, 0)
  {
    FixAnswerResults(m, uses, answered);
    if HasStray(m.content, uses, answered) {
      KeepPendingStable(m.content, uses, answered);
    }
  }

  lemma {:induction false} FixRunStable(run: seq<Message>, uses: seq<string>, answered: seq<string>)
    ensures var f := FixRun(run, uses, answered);
      FixRun(f.out, uses, answered) == RunRepair(f.out, f.answered, 0)
    decreases |run|
  {
    if run != [] {
      var first := FixAnswer(run[0], uses, answered);
      FixAnswerStable(run[0], uses, answered);
      FixAnswerResults(run[0], uses, answered);
      FixRunStable(run[1..], uses, first.answered);
      var f, rest := FixRun(run, uses, answered), FixRun(run[1..], uses, first.answered);
      assert f.out[0] == first.out[0] && f.out[1..] == rest.out;
    }
  }

  lemma {:induction false} FixRunConcat(x: seq<Message>, y: seq<Message>, uses: seq<string>, answered: seq<string>)
    ensures var fx := FixRun(x, uses, answered);
      var fy := FixRun(y, uses, fx.answered);
      FixRun(x + y, uses, answered) == RunRepair(fx.out + fy.out, fy.answered, fx.repaired + fy.repaired)
    decreases |x|
  {
    if x == [] {
      assert x + y == y;
    } else {
      var first := FixAnswer(x[0], uses, answered);
      assert (x + y)[1..] == x[1..] + y;
      FixRunConcat(x[1..], y, uses, first.answered);
      var fx := FixRun(x[1..], uses, first.answered);
      var fy := FixRun(y, uses, fx.answered);
      assert first.out + (fx.out + fy.out) == first.out + fx.out + fy.out;
    }
  }

  /** Synthesized answers survive a second pass exactly when none repeats. */
  lemma {:induction false} SynthesizedStable(ids: seq<string>, uses: seq<string>, answered: seq<string>)
    requires forall id | id in ids :: id in uses
    ensures var f := FixRun(Synthesize(ids), uses, answered);
      && (f.repaired == 0 <==> NoDuplicates(ids) && forall id | id in ids :: id !in answered)
      && (f.repaired == 0 ==> f.answered == answered + ids)
    decreases |ids|
  {
    if ids != [] {
      var m := ToolResultMessage(ids[0], INTERRUPTED, true);
      Synthesized([ids[0]]);
      assert Synthesize([ids[0]])[0] == m;
      assert Synthesize(ids)[0] == m && Synthesize(ids)[1..] == Synthesize(ids[1..]);
      var first := FixAnswer(m, uses, answered);
      assert Results(m.content) == [ids[0]];
      assert HasStray(m.content, uses, answered) <==> ids[0] in answered by {
        assert m.content[0].ToolResult? && m.content[0].id == ids[0];
      }
      SynthesizedStable(ids[1..], uses, first.answered);
      assert forall i | 0 < i < |ids| :: ids[i] == ids[1..][i - 1];
      if ids[0] !in answered {
        assert first.answered == answered + [ids[0]];
        NoDuplicatesCons(ids);
        assert forall id | id in ids :: id == ids[0] || id in ids[1..];
        assert answered + [ids[0]] + ids[1..] == answered + ids;
      }
    }
  }

  /** A second pass over the tool messages behind one repaired call. */
  lemma {:induction false} RunSecondPass(run: seq<Message>, uses: seq<string>)
    requires forall i | 0 <= i < |run| :: run[i].role == Tool
    ensures var fixed := FixRun(run, uses, []);
      var missing := Missing(uses, fixed.answered);
      var again := FixRun(fixed.out + Synthesize(missing), uses, []);
      && (again.repaired == 0 <==> NoDuplicates(missing))
      && (again.repaired == 0 ==> forall id :: id in uses ==> id in again.answered)
  {
    var fixed := FixRun(run, uses, []);
    var missing := Missing(uses, fixed.answered);
    FixRunStable(run, uses, []);
    FixRunConcat(fixed.out, Synthesize(missing), uses, []);
    forall id ensures id in missing <==> id in uses && id !in fixed.answered { InMissing(uses, fixed.answered, id); }
    SynthesizedStable(missing, uses, fixed.answered);
  }

  /** A second pass over one repaired block. */
  lemma {:induction false} BlockSecondPass(m: Message, run: seq<Message>)
    requires Calls(m) && forall i | 0 <= i < |run| :: run[i].role == Tool
    ensures FixBlock(m, Answers(run, Uses(m.content))).repaired == 0 <==>
      RepeatsAnswered(Uses(m.content), RunResults(run))
  {
    var uses := Uses(m.content);
    var fixed := FixRun(run, uses, []);
    RunSecondPass(run, uses);
    FixRunResults(run, uses, []);
    MissingNoDuplicates(uses, fixed.answered);
    assert RepeatsAnswered(uses, fixed.answered) <==> RepeatsAnswered(uses, RunResults(run));
    var again := FixRun(Answers(run, uses), uses, []);
    if again.repaired == 0 { NothingMissing(uses, again.answered); }
  }

  lemma {:induction false} NothingMissing(uses: seq<string>, answered: seq<string>)
    requires forall id :: id in uses ==> id in answered
    ensures Missing(uses, answered) == []
  {
    if uses != [] { NothingMissing(uses[1..], answered); }
  }

  lemma {:induction false} RunLengthOf(run: seq<Message>, tail: seq<Message>)
    requires forall i | 0 <= i < |run| :: run[i].role == Tool
    requires tail != [] ==> tail[0].role != Tool
    ensures RunLength(run + tail) == |run|
  {
    if run == [] {
      assert run + tail == tail;
    } else {
      assert (run + tail)[1..] == run[1..] + tail;
      RunLengthOf(run[1..], tail);
    }
  }

  /** The repaired list starts with a tool message only if the input does. */
  lemma {:induction false} SanitizeFirst(msgs: seq<Message>)
    requires msgs != [] ==> msgs[0].role != Tool
    ensures Sanitize(msgs).out != [] ==> Sanitize(msgs).out[0].role != Tool
  {
  }

  lemma {:induction false} RepeatedGapShift(head: seq<Message>, tail: seq<Message>, a: int)
    requires tail != [] ==> tail[0].role != Tool
    ensures a >= |head| ==> (RepeatedGap(head + tail, a) <==> RepeatedGap(tail, a - |head|))
    ensures a < |head| ==> (RepeatedGap(head + tail, a) <==> RepeatedGap(head, a))
  {
    forall id ensures a >= |head| ==> (Answered(head + tail, a, id) <==> Answered(tail, a - |head|, id)) {
      if a >= |head| { AnsweredShift(head, tail, a - |head|, id); }
    }
    forall id ensures 0 <= a < |head| ==> (Answered(head + tail, a, id) <==> Answered(head, a, id)) {
      if 0 <= a < |head| { AnsweredPrefix(head, tail, a, id); }
    }
  }

  lemma {:induction false} RepeatedGapInBlock(m: Message, run: seq<Message>, a: int)
    requires m.role == Assistant && forall i | 0 <= i < |run| :: run[i].role == Tool
    ensures RepeatedGap([m] + run, a) <==> a == 0 && !RepeatsAnswered(Uses(m.content), RunResults(run))
  {
    var z := [m] + run;
    forall id ensures Answered(z, 0, id) <==> id in RunResults(run) {
      RunResultsIn(run, id);
      if Answered(z, 0, id) {
        var j :| Behind(z, 0, j) && id in Results(z[j].content);
        assert run[j - 1] == z[j];
      }
      if id in RunResults(run) {
        var i :| 0 <= i < |run| && id in Results(run[i].content);
        assert z[i + 1] == run[i] && Behind(z, 0, i + 1);
      }
    }
    assert 0 < a < |z| ==> z[a] == run[a - 1];
  }

  /** Idempotence, exactly: a second pass repairs nothing unless some assistant message repeats a
      call id that its run leaves unanswered. */
  lemma {:induction false} SecondPass(msgs: seq<Message>)
    ensures Sanitize(Sanitize(msgs).out).repaired == 0 <==> forall a :: !RepeatedGap(msgs, a)
    decreases |msgs|
  {
    if msgs != [] && !Calls(msgs[0]) {
      var tail := msgs[1..];
      SecondPass(tail);
      SecondPassStray(msgs[0], Sanitize(tail).out);
      GapsSplitStray(msgs[0], tail);
      assert msgs == [msgs[0]] + tail;
    } else if msgs != [] {
      var n := RunLength(msgs[1..]);
      var run, tail := msgs[1..1 + n], msgs[1 + n..];
      assert forall i | 0 <= i < n :: run[i] == msgs[1..][i];
      assert tail != [] ==> tail[0] == msgs[1..][n];
      assert msgs == [msgs[0]] + run + tail;
      SecondPass(tail);
      SecondPassBlock(msgs[0], run, tail);
      GapsSplit([msgs[0]] + run, tail);
      RepeatedGapInBlock(msgs[0], run, 0);
      forall a ensures RepeatedGap([msgs[0]] + run, a) ==> a == 0 { RepeatedGapInBlock(msgs[0], run, a); }
    }
  }

  lemma {:induction false} SecondPassStray(m: Message, rest: seq<Message>)
    requires !Calls(m)
    ensures Sanitize(FixStray(m).out + rest).repaired == Sanitize(rest).repaired
  {
    var fixed := FixStray(m).out;
    assert (fixed + rest)[1..] == rest && (fixed + rest)[0] == fixed[0];
    ResultsDegraded(m.content);
  }

  /** The repair works block by block. */
  lemma {:induction false} SanitizeBlock(m: Message, run: seq<Message>, tail: seq<Message>)
    requires Calls(m) && forall i | 0 <= i < |run| :: run[i].role == Tool
    requires tail != [] ==> tail[0].role != Tool
    ensures var block, rest := FixBlock(m, run), Sanitize(tail);
      Sanitize([m] + run + tail) == Repair(block.out + rest.out, block.repaired + rest.repaired)
  {
    var z := [m] + run + tail;
    assert z[1..] == run + tail && z[0] == m;
    RunLengthOf(run, tail);
    assert z[1..1 + |run|] == run && z[1 + |run|..] == tail;
  }

  lemma {:induction false} SecondPassBlock(m: Message, run: seq<Message>, tail: seq<Message>)
    requires Calls(m) && forall i | 0 <= i < |run| :: run[i].role == Tool
    requires tail != [] ==> tail[0].role != Tool
    ensures Sanitize(FixBlock(m, run).out + Sanitize(tail).out).repaired == 0 <==>
      Sanitize(Sanitize(tail).out).repaired == 0 && RepeatsAnswered(Uses(m.content), RunResults(run))
  {
    var answers, rest := Answers(run, Uses(m.content)), Sanitize(tail).out;
    SanitizeFirst(tail);
    AnswersShape(run, Uses(m.content));
    BlockShape(m, run);
    BlockSecondPass(m, run);
    SanitizeBlock(m, answers, rest);
  }

  lemma {:induction false} GapsSplit(head: seq<Message>, tail: seq<Message>)
    requires tail != [] ==> tail[0].role != Tool
    ensures (forall a :: !RepeatedGap(head + tail, a)) <==>
      (forall a :: !RepeatedGap(head, a)) && (forall a :: !RepeatedGap(tail, a))
  {
    forall a ensures RepeatedGap(head, a) ==> RepeatedGap(head + tail, a) { RepeatedGapShift(head, tail, a); }
    forall a ensures RepeatedGap(tail, a) ==> RepeatedGap(head + tail, a + |head|) {
      RepeatedGapShift(head, tail, a + |head|);
    }
    forall a ensures RepeatedGap(head + tail, a) ==> RepeatedGap(head, a) || RepeatedGap(tail, a - |head|) {
      RepeatedGapShift(head, tail, a);
    }
  }

  /** A message without calls has no gap of its own, whatever follows it. */
  lemma {:induction false} GapsSplitStray(m: Message, tail: seq<Message>)
    requires !Calls(m)
    ensures (forall a :: !RepeatedGap([m] + tail, a)) <==> (forall a :: !RepeatedGap(tail, a))
  {
    var z := [m] + tail;
    forall a ensures 0 <= a ==> (RepeatedGap(tail, a) <==> RepeatedGap(z, a + 1)) {
      forall id | 0 <= a ensures Answered(z, a + 1, id) <==> Answered(tail, a, id) { AnsweredShift([m], tail, a, id); }
      if 0 <= a < |tail| { assert z[a + 1] == tail[a]; }
    }
    if a :| RepeatedGap(z, a) {
      assert a > 0;
      assert RepeatedGap(tail, a - 1) <==> RepeatedGap(z, (a - 1) + 1);
    }
  }

  /** With pairwise distinct call ids per assistant message the repair is idempotent. */
  lemma {:induction false} SanitizeIdempotent(msgs: seq<Message>)
    requires forall a | 0 <= a < |msgs| && msgs[a].role == Assistant :: NoDuplicates(Uses(msgs[a].content))
    ensures Sanitize(Sanitize(msgs).out) == Repair(Sanitize(msgs).out, 0)
  {
    SecondPass(msgs);
    RepairsCounted(Sanitize(msgs).out);
  }

  /** Why the hypothesis: a call repeated and never answered is answered twice. */
  lemma {:induction false} RepeatedCallExample()
    ensures var m := Message(Assistant, [ToolUse("a", "sh", ""), ToolUse("a", "sh", "")], Normal);
      Sanitize(Sanitize([m]).out).repaired > 0
  {
    var m := Message(Assistant, [ToolUse("a", "sh", ""), ToolUse("a", "sh", "")], Normal);
    assert Uses(m.content[1..]) == ["a"] by { assert Uses(m.content[1..][1..]) == []; }
    assert Uses(m.content) == ["a", "a"];
    SecondPass([m]);
    assert RepeatedGap([m], 0) by {
      assert !Answered([m], 0, "a");
      assert Uses(m.content)[0] == Uses(m.content)[1];
    }
  }

  // --- The code ---

  lemma {:induction false} Regroup<T>(a: seq<T>, x: T, b: seq<T>)
    ensures a + ([x] + b) == (a + [x]) + b
  {
  }

  method CollectResults(content: seq<Block>, answered: seq<string>) returns (ids: seq<string>)
    ensures ids == answered + Results(content)
  {
    ids := answered;
    for i := 0 to |content|
      invariant ids + Results(content[i..]) == answered + Results(content)
    {
      assert content[i..][0] == content[i] && content[i..][1..] == content[i + 1..];
      if content[i].ToolResult? { ids := ids + [content[i].id]; }
    }
  }

  lemma {:induction false} KeepPendingStep(content: seq<Block>, i: nat, uses: seq<string>, ids: seq<string>)
    requires i < |content|
    ensures var b := content[i];
      var pending := b.ToolResult? && b.id in uses && b.id !in ids;
      var rest := KeepPending(content[i + 1..], uses, if pending then ids + [b.id] else ids);
      KeepPending(content[i..], uses, ids) == Kept([if pending then b else Degrade(b)] + rest.content, rest.ids)
  {
    assert content[i..][0] == content[i] && content[i..][1..] == content[i + 1..];
  }

  method DegradeStrayBlocks(content: seq<Block>, uses: seq<string>, answered: seq<string>) returns (kept: Kept)
    ensures kept == KeepPending(content, uses, answered)
  {
    var out, ids := [], answered;
    ghost var all := KeepPending(content, uses, answered);
    assert content[0..] == content;
    for i := 0 to |content|
      invariant |out| == i && out + KeepPending(content[i..], uses, ids).content == all.content
      invariant KeepPending(content[i..], uses, ids).ids == all.ids
    {
      var b := content[i];
      KeepPendingStep(content, i, uses, ids);
      ghost var before := out;
      if b.ToolResult? && b.id in uses && b.id !in ids {
        ids := ids + [b.id];
        out := out + [b];
      } else {
        out := out + [Degrade(b)];
      }
      Regroup(before, out[i], KeepPending(content[i + 1..], uses, ids).content);
    }
    assert content[|content|..] == [];
    kept := Kept(out, ids);
  }

  method SanitizeAnswered(m: Message, uses: seq<string>, answered: seq<string>)
    returns (fixed: Message, ids: seq<string>, repaired: nat)
    ensures RunRepair([fixed], ids, repaired) == FixAnswer(m, uses, answered)
  {
    var hasStray := exists i | 0 <= i < |m.content| ::
      m.content[i].ToolResult? && Stray(m.content[i].id, uses, answered);
    if !hasStray {
      ids := CollectResults(m.content, answered);
      return m, ids, 0;
    }
    var kept := DegradeStrayBlocks(m.content, uses, answered);
    return m.(content := kept.content), kept.ids, 1;
  }

  method SanitizeStrayMessage(m: Message) returns (fixed: Message, repaired: nat)
    ensures Repair([fixed], repaired) == FixStray(m)
  {
    var hasResults := exists i | 0 <= i < |m.content| :: m.content[i].ToolResult?;
    assert hasResults <==> Results(m.content) != [] by {
      if hasResults {
        var i :| 0 <= i < |m.content| && m.content[i].ToolResult?;
        InResults(m.content, m.content[i].id);
      } else if Results(m.content) != [] {
        InResults(m.content, Results(m.content)[0]);
      }
    }
    if m.role != Tool || !hasResults { return m, 0; }
    var content := [];
    for i := 0 to |m.content|
      invariant content + DegradeAll(m.content[i..]) == DegradeAll(m.content)
    {
      assert m.content[i..][0] == m.content[i] && m.content[i..][1..] == m.content[i + 1..];
      content := content + [Degrade(m.content[i])];
    }
    assert m.content[|m.content|..] == [] && content == DegradeAll(m.content);
    return m.(content := content), 1;
  }

  method CollectUses(m: Message) returns (uses: seq<string>)
    ensures uses == Uses(m.content)
  {
    uses := [];
    for i := 0 to |m.content|
      invariant uses + Uses(m.content[i..]) == Uses(m.content)
    {
      assert m.content[i..][0] == m.content[i] && m.content[i..][1..] == m.content[i + 1..];
      if m.content[i].ToolUse? { uses := uses + [m.content[i].id]; }
    }
  }

  lemma {:induction false} SynthesizeStep(uses: seq<string>, i: nat, answered: seq<string>)
    requires i < |uses|
    ensures uses[i] in answered ==> Missing(uses[i..], answered) == Missing(uses[i + 1..], answered)
    ensures uses[i] !in answered ==>
      Synthesize(Missing(uses[i..], answered)) ==
        [ToolResultMessage(uses[i], INTERRUPTED, true)] + Synthesize(Missing(uses[i + 1..], answered))
  {
    assert uses[i..][0] == uses[i] && uses[i..][1..] == uses[i + 1..];
    var rest := Missing(uses[i + 1..], answered);
    if uses[i] in answered {
      assert [] + rest == rest;
    } else {
      assert ([uses[i]] + rest)[1..] == rest;
    }
  }

  /** Answers every call the run left over. */
  method SynthesizeMissing(uses: seq<string>, answered: seq<string>) returns (out: seq<Message>)
    ensures out == Synthesize(Missing(uses, answered)) && |out| == |Missing(uses, answered)|
  {
    out := [];
    Synthesized(Missing(uses, answered));
    for i := 0 to |uses|
      invariant out + Synthesize(Missing(uses[i..], answered)) == Synthesize(Missing(uses, answered))
    {
      SynthesizeStep(uses, i, answered);
      if uses[i] !in answered {
        Regroup(out, ToolResultMessage(uses[i], INTERRUPTED, true), Synthesize(Missing(uses[i + 1..], answered)));
        out := out + [ToolResultMessage(uses[i], INTERRUPTED, true)];
      }
    }
  }

  lemma {:induction false} FixRunSnoc(msgs: seq<Message>, start: nat, next: nat, uses: seq<string>)
    requires start <= next < |msgs|
    ensures var f := FixRun(msgs[start..next], uses, []);
      var g := FixAnswer(msgs[next], uses, f.answered);
      FixRun(msgs[start..next + 1], uses, []) == RunRepair(f.out + g.out, g.answered, f.repaired + g.repaired)
  {
    assert msgs[start..next + 1] == msgs[start..next] + [msgs[next]];
    FixRunConcat(msgs[start..next], [msgs[next]], uses, []);
    FixRunOne(msgs[next], uses, FixRun(msgs[start..next], uses, []).answered);
  }

  /** The answering run behind an assistant message, then an answer for every call left over. */
  method SanitizeRun(msgs: seq<Message>, start: nat, uses: seq<string>)
    returns (out: seq<Message>, next: nat, repaired: nat)
    requires start <= |msgs|
    ensures next == start + RunLength(msgs[start..])
    ensures out == Answers(msgs[start..next], uses)
    ensures var f := FixRun(msgs[start..next], uses, []); repaired == f.repaired + |Missing(uses, f.answered)|
  {
    var answered := [];
    out, next, repaired := [], start, 0;
    ghost var end := start + RunLength(msgs[start..]);
    while next < |msgs| && msgs[next].role == Tool
      invariant start <= next <= end
      invariant RunRepair(out, answered, repaired) == FixRun(msgs[start..next], uses, [])
      decreases |msgs| - next
    {
      assert msgs[start..][next - start] == msgs[next];
      FixRunSnoc(msgs, start, next, uses);
      var fixed, count;
      fixed, answered, count := SanitizeAnswered(msgs[next], uses, answered);
      out, repaired, next := out + [fixed], repaired + count, next + 1;
    }
    assert next < |msgs| ==> msgs[start..][next - start] == msgs[next];
    var extra := SynthesizeMissing(uses, answered);
    out, repaired := out + extra, repaired + |extra|;
  }

  lemma {:induction false} FixRunOne(m: Message, uses: seq<string>, answered: seq<string>)
    ensures FixRun([m], uses, answered) == FixAnswer(m, uses, answered)
  {
    FixAnswerResults(m, uses, answered);
    var first := FixAnswer(m, uses, answered);
    assert FixRun([m][1..], uses, first.answered) == RunRepair([], first.answered, 0);
    assert first.out + [] == first.out;
  }

  /** One step of the walk: what remains of the repair from message `i` on. */
  method SanitizeStep(msgs: seq<Message>, i: nat) returns (fixed: seq<Message>, next: nat, count: nat)
    requires i < |msgs|
    ensures i < next <= |msgs|
    ensures Sanitize(msgs[i..]) == Repair(fixed + Sanitize(msgs[next..]).out, count + Sanitize(msgs[next..]).repaired)
  {
    var m := msgs[i];
    assert msgs[i..][0] == m && msgs[i..][1..] == msgs[i + 1..];
    var uses := CollectUses(m);
    if m.role != Assistant || uses == [] {
      var one;
      one, count := SanitizeStrayMessage(m);
      fixed, next := [one], i + 1;
    } else {
      var answers;
      answers, next, count := SanitizeRun(msgs, i + 1, uses);
      fixed := [m] + answers;
      ghost var n := next - (i + 1);
      assert msgs[i..][1..1 + n] == msgs[i + 1..next] && msgs[i..][1 + n..] == msgs[next..];
      BlockShape(m, msgs[i + 1..next]);
    }
  }

  /** Appends the repaired messages to `prefix`. */
  method SanitizeToolPairingInto(msgs: seq<Message>, prefix: seq<Message>) returns (out: seq<Message>, repaired: nat)
    ensures out == prefix + Sanitize(msgs).out
    ensures repaired == Sanitize(msgs).repaired
  {
    out, repaired := prefix, 0;
    var i := 0;
    ghost var all, rest := Sanitize(msgs), Sanitize(msgs);
    assert msgs[0..] == msgs;
    while i < |msgs|
      invariant i <= |msgs| && rest == Sanitize(msgs[i..])
      invariant out + rest.out == prefix + all.out
      invariant repaired + rest.repaired == all.repaired
      decreases |msgs| - i
    {
      var fixed, next, count := SanitizeStep(msgs, i);
      ghost var later := Sanitize(msgs[next..]);
      assert out + (fixed + later.out) == out + fixed + later.out;
      out, repaired, i, rest := out + fixed, repaired + count, next, later;
    }
    assert rest.out == [];
  }

  /** The repaired history: paired as providers demand, and untouched if it already was. */
  method SanitizeToolPairing(msgs: seq<Message>) returns (out: seq<Message>, repaired: nat)
    ensures WellPaired(out)
    ensures Conversation(out) == Conversation(msgs)
    ensures repaired == 0 <==> out == msgs
    ensures Repair(out, repaired) == Sanitize(msgs)
  {
    out, repaired := SanitizeToolPairingInto(msgs, []);
    assert out == Sanitize(msgs).out;
    SanitizeWellPaired(msgs);
    ConversationKept(msgs);
    RepairsCounted(msgs);
  }
}
