/** What a history holds after any run: a map from seqs to messages, and the last summary
    (crates/pacode-core/src/agent.rs). */
module HistoryAnswers {
  import opened Common
  import opened Messages
  import opened HistoryModel
  import opened HistoryRuns

  /** The rows of a history as a map. */
  ghost function RowsOf(h: History): (rows: map<nat, Message>)
    requires Sorted(h)
    ensures forall q :: (q in rows <==> Lookup(h, q).Some?) && (q in rows ==> Lookup(h, q) == Some(rows[q]))
  {
    forall q ensures q in h.seqs <==> Lookup(h, q).Some? { LowerSplits(h.seqs, q); }
    map q | q in h.seqs :: Lookup(h, q).value
  }

  /** What an operation does to the map: a commit of an open reservation sets its row, a restore adds a
      missing row, a clear empties the map, and a compaction folds the rows up to `upto` and rewrites the
      others. Reservations, rollbacks, discards and bumps leave it alone. */
  function RowsAfter(rows: map<nat, Message>, made: seq<Reservation>, op: Op): map<nat, Message> {
    match op
    case DoCommit(i) => if i < |made| && !made[i].finalized then rows[made[i].num := made[i].message] else rows
    case DoRestore(q, m) => if q in rows then rows else rows[q := m]
    case DoClear => map[]
    case DoCompact(upto, rewritten, _, _) => Folded(rows, upto, rewritten)
    case _ => rows
  }

  function Folded(rows: map<nat, Message>, upto: Option<nat>, rewritten: map<nat, Message>): map<nat, Message> {
    map q | q in rows && (upto.Some? ==> q > upto.value) :: if q in rewritten then rewritten[q] else rows[q]
  }

  ghost predicate Stands(h: History, rows: map<nat, Message>)
    requires Sorted(h)
  {
    forall q :: Lookup(h, q) == if q in rows then Some(rows[q]) else None
  }

  lemma {:induction false} StandsForRows(h: History, rows: map<nat, Message>)
    requires Sorted(h) && Stands(h, rows)
    ensures RowsOf(h) == rows
  {
    assert forall q :: q in RowsOf(h) <==> q in rows;
  }

  lemma {:induction false} CommitStands(h: History, q: nat, m: Message)
    requires Sorted(h)
    ensures Sorted(Commit(h, q, m)) && Stands(Commit(h, q, m), RowsOf(h)[q := m])
  {
    CommitUpdates(h, q, m, q);
    forall r ensures Lookup(Commit(h, q, m), r) == if r == q then Some(m) else Lookup(h, r) {
      CommitUpdates(h, q, m, r);
    }
  }

  lemma {:induction false} RestoreStands(h: History, q: nat, m: Message)
    requires Sorted(h)
    ensures Sorted(Restore(h, q, m))
    ensures Stands(Restore(h, q, m), if q in RowsOf(h) then RowsOf(h) else RowsOf(h)[q := m])
  {
    RestoreInserts(h, q, m, q);
    forall r
      ensures Lookup(Restore(h, q, m), r) == if r == q && Lookup(h, q).None? then Some(m) else Lookup(h, r)
    {
      RestoreInserts(h, q, m, r);
    }
  }

  lemma {:induction false} CompactAt(h: History, upto: Option<nat>, rewritten: map<nat, Message>,
    summary: Option<string>, tokens: nat, q: nat)
    requires Sorted(h)
    ensures var t, rows := Compact(h, upto, rewritten, summary, tokens), Folded(RowsOf(h), upto, rewritten);
      Sorted(t) && Lookup(t, q) == if q in rows then Some(rows[q]) else None
  {
    CompactKeeps(h, upto, rewritten, summary, tokens, q);
    var rows := RowsOf(h);
    assert q in rows <==> Lookup(h, q).Some?;
  }

  lemma {:induction false} CompactStands(h: History, upto: Option<nat>, rewritten: map<nat, Message>,
    summary: Option<string>, tokens: nat)
    requires Sorted(h)
    ensures var t := Compact(h, upto, rewritten, summary, tokens);
      Sorted(t) && Stands(t, Folded(RowsOf(h), upto, rewritten))
  {
    CompactAt(h, upto, rewritten, summary, tokens, 0);
    var t, rows := Compact(h, upto, rewritten, summary, tokens), Folded(RowsOf(h), upto, rewritten);
    forall q ensures Lookup(t, q) == if q in rows then Some(rows[q]) else None {
      CompactAt(h, upto, rewritten, summary, tokens, q);
    }
  }

  lemma {:induction false} StepRows(s: Ledger, op: Op)
    requires Sorted(s.history) && Applies(s, op)
    ensures Sorted(Step(s, op).history)
    ensures RowsOf(Step(s, op).history) == RowsAfter(RowsOf(s.history), s.made, op)
  {
    var t, rows := Step(s, op).history, RowsAfter(RowsOf(s.history), s.made, op);
    if Live(s, if op.DoCommit? then op.i else |s.made|) {
      CommitStands(s.history, s.made[op.i].num, s.made[op.i].message);
    } else if op.DoRestore? {
      RestoreStands(s.history, op.num, op.message);
    } else if op.DoCompact? {
      CompactStands(s.history, op.upto, op.rewritten, op.summary, op.tokens);
    } else if op.DoClear? {
      assert Sorted(t) && Stands(t, map[]);
    } else {
      assert SameRows(s.history, t) && Stands(t, rows);
    }
    StandsForRows(t, rows);
  }

  ghost function RowsAfterAll(rows: map<nat, Message>, s: Ledger, ops: seq<Op>): map<nat, Message>
    requires Runs(s, ops)
    decreases |ops|
  {
    if ops == [] then rows else RowsAfterAll(RowsAfter(rows, s.made, ops[0]), Step(s, ops[0]), ops[1..])
  }

  /** After every run the two parallel vectors stand for exactly the map that the operations describe. */
  lemma {:induction false} RunRows(s: Ledger, ops: seq<Op>)
    requires Sorted(s.history) && Runs(s, ops)
    ensures Sorted(Exec(s, ops).history)
    ensures RowsOf(Exec(s, ops).history) == RowsAfterAll(RowsOf(s.history), s, ops)
    decreases |ops|
  {
    if ops != [] {
      StepRows(s, ops[0]);
      RunRows(Step(s, ops[0]), ops[1..]);
    }
  }

  /** A reservation that is committed, with anything but a clear, a compaction and commits of its seq in
      between, is read back. */
  lemma {:induction false} CommittedIsRead(s: Ledger, i: nat, ops: seq<Op>)
    requires Sorted(s.history) && Live(s, i) && Applies(s, DoCommit(i)) && Runs(Step(s, DoCommit(i)), ops)
    requires forall k | 0 <= k < |ops| :: !ops[k].DoClear? && !ops[k].DoCompact? && !ops[k].DoCommit?
    ensures Sorted(Exec(Step(s, DoCommit(i)), ops).history)
    ensures Lookup(Exec(Step(s, DoCommit(i)), ops).history, s.made[i].num) == Some(s.made[i].message)
  {
    StepRows(s, DoCommit(i));
    var t := Step(s, DoCommit(i));
    RowStays(RowsOf(t.history), t, ops, s.made[i].num);
    RunRows(t, ops);
  }

  lemma {:induction false} RowStays(rows: map<nat, Message>, s: Ledger, ops: seq<Op>, q: nat)
    requires Runs(s, ops) && q in rows
    requires forall k | 0 <= k < |ops| :: !ops[k].DoClear? && !ops[k].DoCompact? && !ops[k].DoCommit?
    ensures var end := RowsAfterAll(rows, s, ops); q in end && end[q] == rows[q]
    decreases |ops|
  {
    if ops != [] { RowStays(RowsAfter(rows, s.made, ops[0]), Step(s, ops[0]), ops[1..], q); }
  }

  /** The summary is that of the last compaction that folded rows, and reaches as far as any has; a clear
      forgets it with all tokens, and nothing else touches it. */
  lemma {:induction false} StepSummary(s: Ledger, op: Op)
    requires Applies(s, op)
    ensures var h, t := s.history, Step(s, op).history;
      if op.DoClear? then t.summary.None? && t.summaryUpto == 0 && t.tokens == 0
      else if op.DoCompact? && op.upto.Some? then
        && t.summary == op.summary && t.tokens == op.tokens && t.summaryUpto >= op.upto.value
        && t.summaryUpto >= h.summaryUpto && (t.summaryUpto == h.summaryUpto || t.summaryUpto == op.upto.value)
      else
        && t.summary == h.summary && t.summaryUpto == h.summaryUpto
        && (op.DoCompact? ==> t.tokens == op.tokens)
        && (!op.DoCompact? && !op.DoCommit? && !op.DoRestore? ==> t.tokens == h.tokens)
  {
  }

  /** The counter never falls but by a rollback, and a clear keeps it. */
  lemma {:induction false} CounterKept(s: Ledger, op: Op)
    requires Applies(s, op) && !op.DoRollback? && s.history.next <= U64_MAX
    ensures var h, t := s.history, Step(s, op).history;
      && t.next >= h.next
      && (op.DoClear? || op.DoCommit? || op.DoDiscard? || op.DoPersist? || op.DoCompact? ==> t.next == h.next)
  {
  }
}
