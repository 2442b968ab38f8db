/** Runs of the seq allocator: reservations are committed, rolled back, discarded, restored or
    cleared in any order (crates/pacode-core/src/agent.rs). */
module HistoryRuns {
  import opened Common
  import opened Messages
  import opened HistoryModel

  /** The history, every reservation ever made, and the seqs that may never come back. */
  datatype Ledger = Ledger(history: History, made: seq<Reservation>, burned: set<nat>)

  datatype Op =
    | DoReserve(message: Message)
    | DoPersist(i: nat)
    | DoCommit(i: nat)
    | DoRollback(i: nat)
    | DoDiscard(i: nat)
    | DoRestore(num: nat, message: Message)
    | DoClear
    | DoBump(num: nat)
    | DoCompact(upto: Option<nat>, rewritten: map<nat, Message>, summary: Option<string>, tokens: nat)

  const START := Ledger(EMPTY, [], {})

  predicate Live(s: Ledger, i: nat) {
    i < |s.made| && !s.made[i].finalized
  }

  ghost predicate Outstanding(s: Ledger, q: nat) {
    exists i: nat :: Live(s, i) && s.made[i].num == q
  }

  /** Committed, reserved or burned. */
  ghost predicate Taken(s: Ledger, q: nat) {
    q in s.history.seqs || Outstanding(s, q) || q in s.burned
  }

  ghost predicate Applies(s: Ledger, op: Op) {
    (op.DoPersist? || op.DoCommit? || op.DoRollback? || op.DoDiscard? ==> op.i < |s.made|)
    && |s.history.seqs| == |s.history.messages|
  }

  function Finalize(s: Ledger, i: nat): Ledger
    requires i < |s.made|
  {
    s.(made := s.made[i := s.made[i].(finalized := true)])
  }

  predicate Between(lo: nat, k: nat, hi: nat) {
    lo <= k < hi
  }

  /** The seqs a restored row or a bump jumps over. */
  ghost function Skipped(lo: nat, hi: nat): set<nat> {
    set k: nat | k < hi && Between(lo, k, hi)
  }

  ghost function Step(s: Ledger, op: Op): Ledger
    requires Applies(s, op)
  {
    match op
    case DoReserve(m) =>
      Ledger(Reserve(s.history), s.made + [Reservation(ReservedSeq(s.history), m, false, false)], s.burned)
    case DoPersist(i) => s.(made := s.made[i := s.made[i].(persisted := true)])
    case DoCommit(i) =>
      if s.made[i].finalized then s
      else Finalize(s, i).(history := Commit(s.history, s.made[i].num, s.made[i].message))
    case DoRollback(i) =>
      if s.made[i].finalized then s
      else if s.made[i].persisted then Finalize(s, i).(burned := s.burned + {s.made[i].num})
      else Finalize(s, i).(history := Rollback(s.history, s.made[i].num))
    case DoDiscard(i) =>
      if s.made[i].finalized then s else Finalize(s, i).(burned := s.burned + {s.made[i].num})
    case DoRestore(q, m) =>
      s.(history := Restore(s.history, q, m), burned := s.burned + Skipped(s.history.next, q))
    case DoClear =>
      s.(history := Clear(s.history), burned := s.burned + set k: nat | k < s.history.next && !Outstanding(s, k))
    case DoBump(q) =>
      s.(history := Bump(s.history, q), burned := s.burned + Skipped(s.history.next, q + 1))
    case DoCompact(upto, rewritten, summary, tokens) =>
      var h := Compact(s.history, upto, rewritten, summary, tokens);
      s.(history := h, burned := s.burned + if upto.None? then {} else Dropped(s, h.seqs))
  }

  /** What a compaction that keeps `kept` puts out of reach. */
  ghost function Dropped(s: Ledger, kept: seq<nat>): set<nat> {
    set k: nat | k < s.history.next && !Outstanding(s, k) && k !in kept
  }

  /** The free list is exactly the untaken seqs below `next`, and `next` is as low as it can be. */
  ghost predicate Canonical(s: Ledger) {
    && Sorted(s.history)
    && s.history.next <= U64_MAX
    && (forall q: nat :: Taken(s, q) ==> q < s.history.next)
    && (forall q: nat :: q in s.history.free <==> q < s.history.next && !Taken(s, q))
    && (s.history.next > 0 ==> Taken(s, s.history.next - 1))
    && (forall i: nat, j: nat :: Live(s, i) && Live(s, j) && i != j ==> s.made[i].num != s.made[j].num)
    && (forall i: nat :: Live(s, i) ==> s.made[i].num !in s.burned)
  }

  /** The last seq of the 64-bit range is not consumed. */
  ghost predicate InRange(s: Ledger, op: Op) {
    (op.DoReserve? ==> s.history.free != {} || s.history.next < U64_MAX)
    && (op.DoRestore? || op.DoBump? ==> op.num < U64_MAX)
  }

  lemma {:induction false} StartCanonical()
    ensures Canonical(START)
  {
  }

  // --- Each operation keeps the allocator canonical ---

  lemma {:induction false} ReserveCanonical(s: Ledger, m: Message)
    requires Canonical(s) && InRange(s, DoReserve(m))
    ensures Canonical(Step(s, DoReserve(m)))
  {
    var t, q := Step(s, DoReserve(m)), ReservedSeq(s.history);
    assert t.made[|s.made|].num == q && Live(t, |s.made|);
    forall i: nat ensures Live(t, i) <==> Live(s, i) || i == |s.made| {}
    forall r: nat ensures Outstanding(t, r) <==> Outstanding(s, r) || r == q {
      if Outstanding(s, r) {
        var i: nat :| Live(s, i) && s.made[i].num == r;
        assert Live(t, i) && t.made[i].num == r;
      }
    }
    assert !Taken(s, q);
    forall r: nat ensures Taken(t, r) <==> Taken(s, r) || r == q {}
  }

  /** Settling reservation `i` releases its seq and nothing else. */
  lemma {:induction false} FinalizeOutstanding(s: Ledger, i: nat)
    requires Canonical(s) && Live(s, i)
    ensures var t := Finalize(s, i);
      && (forall j: nat :: Live(t, j) <==> Live(s, j) && j != i)
      && (forall r: nat :: Outstanding(t, r) <==> Outstanding(s, r) && r != s.made[i].num)
  {
    var t := Finalize(s, i);
    forall r: nat ensures Outstanding(t, r) <==> Outstanding(s, r) && r != s.made[i].num {
      if Outstanding(t, r) {
        var j: nat :| Live(t, j) && t.made[j].num == r;
        assert Live(s, j) && s.made[j].num == r;
      }
      if Outstanding(s, r) && r != s.made[i].num {
        var j: nat :| Live(s, j) && s.made[j].num == r;
        assert Live(t, j) && t.made[j].num == r;
      }
    }
  }

  lemma {:induction false} CommitRows(h: History, q: nat, m: Message)
    requires Sorted(h)
    ensures Sorted(Commit(h, q, m)) && Sorted(Restore(h, q, m))
    ensures forall r :: r in Commit(h, q, m).seqs <==> r in h.seqs || r == q
    ensures forall r :: r in Restore(h, q, m).seqs <==> r in h.seqs || r == q
  {
    LowerSplits(h.seqs, q);
    forall r
      ensures r in Commit(h, q, m).seqs <==> r in h.seqs || r == q
      ensures r in Restore(h, q, m).seqs <==> r in h.seqs || r == q
    {
      CommitUpdates(h, q, m, r);
      RestoreInserts(h, q, m, r);
      LowerSplits(h.seqs, r);
      LowerSplits(Commit(h, q, m).seqs, r);
      LowerSplits(Restore(h, q, m).seqs, r);
    }
    CommitUpdates(h, q, m, q);
    RestoreInserts(h, q, m, q);
  }

  lemma {:induction false} CommitCanonical(s: Ledger, i: nat)
    requires Canonical(s) && i < |s.made|
    ensures Canonical(Step(s, DoCommit(i)))
  {
    if Live(s, i) {
      var t := Step(s, DoCommit(i));
      FinalizeOutstanding(s, i);
      CommitRows(s.history, s.made[i].num, s.made[i].message);
      forall r: nat ensures Taken(t, r) <==> Taken(s, r) {
        assert Outstanding(t, r) <==> Outstanding(Finalize(s, i), r) by { SameMade(t, Finalize(s, i), r); }
        assert Outstanding(s, s.made[i].num);
      }
      assert forall j: nat :: Live(t, j) <==> Live(Finalize(s, i), j);
    }
  }

  lemma {:induction false} SameMade(s: Ledger, t: Ledger, r: nat)
    requires s.made == t.made
    ensures Outstanding(s, r) <==> Outstanding(t, r)
  {
    if Outstanding(s, r) { var i: nat :| Live(s, i) && s.made[i].num == r; assert Live(t, i); }
    if Outstanding(t, r) { var i: nat :| Live(t, i) && t.made[i].num == r; assert Live(s, i); }
  }

  lemma {:induction false} BurnCanonical(s: Ledger, i: nat)
    requires Canonical(s) && Live(s, i)
    ensures Canonical(Finalize(s, i).(burned := s.burned + {s.made[i].num}))
  {
    var t := Finalize(s, i).(burned := s.burned + {s.made[i].num});
    FinalizeOutstanding(s, i);
    forall r: nat ensures Taken(t, r) <==> Taken(s, r) {
      SameMade(t, Finalize(s, i), r);
      assert Outstanding(s, s.made[i].num);
    }
    assert forall j: nat :: Live(t, j) <==> Live(Finalize(s, i), j);
  }

  /** Shrinking returns the untaken top of the range. */
  lemma {:induction false} ShrinkShape(free: set<nat>, next: nat)
    ensures var (f, n) := Shrink(free, next);
      && n <= next && (n > 0 ==> n - 1 !in f)
      && (forall k: nat | n <= k < next :: k in free)
      && (forall k: nat :: k in f <==> k in free && !(n <= k < next))
    decreases next
  {
    if next > 0 && next - 1 in free {
      var rest := free - {next - 1};
      ShrinkShape(rest, next - 1);
      var (f, n) := Shrink(rest, next - 1);
      forall k: nat | n <= k < next ensures k in free { assert k == next - 1 || k in rest; }
    }
  }

  /** Shrinking keeps the free list equal to the untaken seqs below, and ends at a taken one. */
  lemma {:induction false} ShrinkUntaken(free: set<nat>, next: nat, taken: iset<nat>)
    requires forall r: nat :: r in taken ==> r < next
    requires forall r: nat :: r in free <==> r < next && r !in taken
    ensures var (f, n) := Shrink(free, next);
      && n <= next && (forall r: nat :: r in taken ==> r < n)
      && (forall r: nat :: r in f <==> r < n && r !in taken)
      && (n > 0 ==> n - 1 in taken)
  {
    ShrinkShape(free, next);
    var (f, n) := Shrink(free, next);
    forall r: nat | r in taken ensures r < n { assert r !in free; }
    assert n > 0 ==> n - 1 !in f;
  }

  /** A rollback settles the reservation; its seq stays taken only by a row. */
  lemma {:induction false} RollbackTaken(s: Ledger, i: nat)
    requires Canonical(s) && Live(s, i) && !s.made[i].persisted
    ensures var t, q := Step(s, DoRollback(i)), s.made[i].num;
      && Outstanding(s, q) && t.burned == s.burned
      && (forall j: nat :: Live(t, j) <==> Live(s, j) && j != i)
      && (forall r: nat :: Taken(t, r) <==> Taken(s, r) && (r != q || q in s.history.seqs))
  {
    var t, q := Step(s, DoRollback(i)), s.made[i].num;
    assert Outstanding(s, q);
    FinalizeOutstanding(s, i);
    assert forall j: nat :: Live(t, j) <==> Live(Finalize(s, i), j);
    forall r: nat ensures Outstanding(t, r) <==> Outstanding(s, r) && r != q { SameMade(t, Finalize(s, i), r); }
  }

  /** The seq of a reservation that left no trace becomes free, and the range shrinks to fit. */
  lemma {:induction false} ReleaseCanonical(s: Ledger, i: nat)
    requires Canonical(s) && Live(s, i) && !s.made[i].persisted && s.made[i].num !in s.history.seqs
    ensures Canonical(Step(s, DoRollback(i)))
  {
    var t, q := Step(s, DoRollback(i)), s.made[i].num;
    RollbackTaken(s, i);
    LowerSplits(s.history.seqs, q);
    assert Taken(s, q) && !Taken(t, q);
    ShrinkUntaken(s.history.free + {q}, s.history.next, iset r: nat | Taken(t, r));
  }

  lemma {:induction false} RollbackCanonical(s: Ledger, i: nat)
    requires Canonical(s) && i < |s.made|
    ensures Canonical(Step(s, DoRollback(i)))
    ensures Live(s, i) && !s.made[i].persisted && s.made[i].num !in s.history.seqs ==>
      forall r: nat :: Taken(Step(s, DoRollback(i)), r) <==> Taken(s, r) && r != s.made[i].num
  {
    if Live(s, i) {
      if s.made[i].persisted {
        BurnCanonical(s, i);
      } else {
        RollbackTaken(s, i);
        if s.made[i].num in s.history.seqs {
          LowerSplits(s.history.seqs, s.made[i].num);
        } else {
          ReleaseCanonical(s, i);
        }
      }
    }
  }

  lemma {:induction false} RestoreCanonical(s: Ledger, q: nat, m: Message)
    requires Canonical(s) && q < U64_MAX
    ensures Canonical(Step(s, DoRestore(q, m)))
  {
    var t := Step(s, DoRestore(q, m));
    CommitRows(s.history, q, m);
    forall j: nat ensures Live(t, j) <==> Live(s, j) {}
    forall r: nat ensures Taken(t, r) <==> Taken(s, r) || r == q || Between(s.history.next, r, q) {
      SameMade(s, t, r);
    }
    forall j: nat | Live(t, j) ensures t.made[j].num !in t.burned {
      assert Outstanding(s, s.made[j].num) && Taken(s, s.made[j].num);
    }
  }

  lemma {:induction false} ClearCanonical(s: Ledger)
    requires Canonical(s)
    ensures Canonical(Step(s, DoClear))
  {
    var t := Step(s, DoClear);
    forall r: nat ensures Outstanding(t, r) <==> Outstanding(s, r) { SameMade(s, t, r); }
    forall r: nat ensures Taken(t, r) <==> r < s.history.next {
      if Outstanding(s, r) { assert Taken(s, r); }
      if r in s.burned { assert Taken(s, r); }
    }
    assert forall j: nat :: Live(t, j) <==> Live(s, j);
    forall j: nat | Live(t, j) ensures t.made[j].num !in t.burned {
      assert Outstanding(s, s.made[j].num);
    }
  }

  lemma {:induction false} BumpCanonical(s: Ledger, q: nat)
    requires Canonical(s) && q < U64_MAX
    ensures Canonical(Step(s, DoBump(q)))
  {
    var t := Step(s, DoBump(q));
    forall j: nat ensures Live(t, j) <==> Live(s, j) {}
    forall r: nat ensures Taken(t, r) <==> Taken(s, r) || Between(s.history.next, r, t.history.next) {
      SameMade(s, t, r);
    }
    forall j: nat | Live(t, j) ensures t.made[j].num !in t.burned {
      assert Outstanding(s, s.made[j].num) && Taken(s, s.made[j].num);
    }
  }

  lemma {:induction false} CompactCanonical(s: Ledger, op: Op)
    requires Canonical(s) && op.DoCompact?
    ensures Canonical(Step(s, op))
  {
    var t := Step(s, op);
    forall r: nat ensures r in t.history.seqs ==> r in s.history.seqs {
      CompactKeeps(s.history, op.upto, op.rewritten, op.summary, op.tokens, r);
    }
    CompactKeeps(s.history, op.upto, op.rewritten, op.summary, op.tokens, 0);
    forall r: nat ensures Outstanding(t, r) <==> Outstanding(s, r) { SameMade(s, t, r); }
    if op.upto.None? {
      assert t.history.seqs == s.history.seqs;
      forall r: nat ensures Taken(t, r) <==> Taken(s, r) {}
    } else {
      forall r: nat ensures Taken(t, r) <==> r < s.history.next {
        if r in t.history.seqs || Outstanding(s, r) || r in s.burned { assert Taken(s, r); }
      }
    }
    forall j: nat | Live(t, j) ensures t.made[j].num !in t.burned {
      assert Live(s, j) && Outstanding(s, s.made[j].num);
    }
  }

  lemma {:induction false} PersistCanonical(s: Ledger, i: nat)
    requires Canonical(s) && i < |s.made|
    ensures Canonical(Step(s, DoPersist(i)))
  {
    var t := Step(s, DoPersist(i));
    assert forall j: nat :: Live(t, j) <==> Live(s, j);
    forall r: nat ensures Taken(t, r) <==> Taken(s, r) {
      if Outstanding(s, r) { var j: nat :| Live(s, j) && s.made[j].num == r; assert Live(t, j) && t.made[j].num == r; }
      if Outstanding(t, r) { var j: nat :| Live(t, j) && t.made[j].num == r; assert Live(s, j) && s.made[j].num == r; }
    }
  }

  /** The allocator stays canonical under every operation, exactly as long as seq 2^64-1 is not
      consumed: there the saturating counter stops moving. */
  lemma {:induction false} StepCanonical(s: Ledger, op: Op)
    requires Canonical(s) && Applies(s, op)
    ensures Canonical(Step(s, op)) <==> InRange(s, op)
  {
    match op
    case DoReserve(m) =>
      if InRange(s, op) { ReserveCanonical(s, m); } else { ReserveAtTheEnd(s, m); }
    case DoPersist(i) => PersistCanonical(s, i);
    case DoCommit(i) => CommitCanonical(s, i);
    case DoRollback(i) => RollbackCanonical(s, i);
    case DoDiscard(i) => if Live(s, i) { BurnCanonical(s, i); }
    case DoRestore(q, m) =>
      if q < U64_MAX { RestoreCanonical(s, q, m); } else { RestoreAtTheEnd(s, q, m); }
    case DoClear => ClearCanonical(s);
    case DoBump(q) =>
      if q < U64_MAX { BumpCanonical(s, q); } else { assert Taken(Step(s, op), q); }
    case DoCompact(upto, rewritten, summary, tokens) => CompactCanonical(s, op);
  }

  lemma {:induction false} ReserveAtTheEnd(s: Ledger, m: Message)
    requires Canonical(s) && !InRange(s, DoReserve(m))
    ensures !Canonical(Step(s, DoReserve(m)))
  {
    var t := Step(s, DoReserve(m));
    assert Live(t, |s.made|) && t.made[|s.made|].num == U64_MAX;
    assert Outstanding(t, U64_MAX) && Taken(t, U64_MAX);
  }

  lemma {:induction false} RestoreAtTheEnd(s: Ledger, q: nat, m: Message)
    requires Canonical(s) && q >= U64_MAX
    ensures !Canonical(Step(s, DoRestore(q, m)))
  {
    CommitRows(s.history, q, m);
    assert Taken(Step(s, DoRestore(q, m)), q);
  }

  // --- Runs ---

  ghost predicate Runs(s: Ledger, ops: seq<Op>)
    decreases |ops|
  {
    ops == [] || (Applies(s, ops[0]) && InRange(s, ops[0]) && Runs(Step(s, ops[0]), ops[1..]))
  }

  ghost function Exec(s: Ledger, ops: seq<Op>): Ledger
    requires Runs(s, ops)
    decreases |ops|
  {
    if ops == [] then s else Exec(Step(s, ops[0]), ops[1..])
  }

  lemma {:induction false} RunCanonical(s: Ledger, ops: seq<Op>)
    requires Canonical(s) && Runs(s, ops)
    ensures Canonical(Exec(s, ops))
    decreases |ops|
  {
    if ops != [] {
      StepCanonical(s, ops[0]);
      RunCanonical(Step(s, ops[0]), ops[1..]);
    }
  }

  /** In every reachable state a reservation gets the least seq that nothing holds. */
  lemma {:induction false} ReserveIsLeastUntaken(ops: seq<Op>)
    requires Runs(START, ops)
    ensures var s := Exec(START, ops);
      && !Taken(s, ReservedSeq(s.history))
      && forall k: nat | k < ReservedSeq(s.history) :: Taken(s, k)
  {
    StartCanonical();
    RunCanonical(START, ops);
    LeastUntaken(Exec(START, ops));
  }

  lemma {:induction false} LeastUntaken(s: Ledger)
    requires Canonical(s)
    ensures !Taken(s, ReservedSeq(s.history))
    ensures forall k: nat | k < ReservedSeq(s.history) :: Taken(s, k)
  {
  }

  /** A history taken over from elsewhere, forked from another agent or loaded from the store, starts a
      run of its own: what it neither holds nor may give out counts as burned. */
  ghost function Adopted(h: History): Ledger {
    Ledger(h, [], set k: nat | k < h.next && k !in h.free && k !in h.seqs)
  }

  lemma {:induction false} AdoptedCanonical(h: History)
    requires Sorted(h) && h.next <= U64_MAX && (h.next > 0 ==> h.next - 1 !in h.free)
    requires forall q: nat :: q in h.seqs || q in h.free ==> q < h.next
    requires forall q: nat :: q in h.free ==> q !in h.seqs
    ensures Canonical(Adopted(h))
  {
    var s := Adopted(h);
    forall q: nat ensures !Outstanding(s, q) {}
  }

  /** A fork copies the history of a running agent, whose reservations it does not share. */
  lemma {:induction false} ForkCanonical(s: Ledger)
    requires Canonical(s)
    ensures Canonical(Adopted(s.history))
  {
    forall q: nat ensures q in s.history.seqs ==> q < s.history.next && q !in s.history.free {
      if q in s.history.seqs { assert Taken(s, q); }
    }
    AdoptedCanonical(s.history);
  }

  /** `q` is burned, or held by a persisted reservation, or by a row whose seq no open reservation shares. */
  ghost predicate Secured(s: Ledger, q: nat) {
    || q in s.burned
    || (q in s.history.seqs && !Outstanding(s, q))
    || (exists i: nat :: Live(s, i) && s.made[i].persisted && s.made[i].num == q)
  }

  lemma {:induction false} SecuredStays(s: Ledger, op: Op, q: nat)
    requires Canonical(s) && Applies(s, op) && InRange(s, op) && Secured(s, q)
    ensures Secured(Step(s, op), q)
  {
    var t := Step(s, op);
    match op
    case DoReserve(m) =>
      assert Taken(s, q) by { SecuredTaken(s, q); }
      if q in s.history.seqs && !Outstanding(s, q) { SecuredReserve(s, m, q); }
      if i: nat :| Live(s, i) && s.made[i].persisted && s.made[i].num == q {
        assert Live(t, i) && t.made[i] == s.made[i];
      }
    case DoPersist(j) =>
      if Outstanding(t, q) { var i: nat :| Live(t, i) && t.made[i].num == q; assert Live(s, i) && s.made[i].num == q; }
      if i: nat :| Live(s, i) && s.made[i].persisted && s.made[i].num == q { assert Live(t, i) && t.made[i].persisted; }
    case DoCommit(i) => SecuredSettled(s, op, i, q);
    case DoRollback(i) => SecuredSettled(s, op, i, q);
    case DoDiscard(i) => SecuredSettled(s, op, i, q);
    case DoRestore(r, m) =>
      CommitRows(s.history, r, m);
      SameMade(s, t, q);
      if i: nat :| Live(s, i) && s.made[i].persisted && s.made[i].num == q {
        assert Live(t, i) && t.made[i] == s.made[i];
      }
    case DoClear =>
      SecuredKept(s, t, q);
      if q in s.history.seqs && !Outstanding(s, q) { assert Taken(s, q); }
    case DoBump(_) => SecuredKept(s, t, q);
    case DoCompact(upto, rewritten, summary, tokens) =>
      SecuredKept(s, t, q);
      CompactKeeps(s.history, upto, rewritten, summary, tokens, q);
      if q in s.history.seqs && !Outstanding(s, q) { assert Taken(s, q); }
  }

  /** Steps that settle no reservation keep what a persisted one secures. */
  lemma {:induction false} SecuredKept(s: Ledger, t: Ledger, q: nat)
    requires s.made == t.made
    ensures Outstanding(s, q) <==> Outstanding(t, q)
    ensures (exists i: nat :: Live(s, i) && s.made[i].persisted && s.made[i].num == q) ==>
      exists i: nat :: Live(t, i) && t.made[i].persisted && t.made[i].num == q
  {
    SameMade(s, t, q);
    if i: nat :| Live(s, i) && s.made[i].persisted && s.made[i].num == q {
      assert Live(t, i) && t.made[i] == s.made[i];
    }
  }

  lemma {:induction false} SecuredTaken(s: Ledger, q: nat)
    requires Secured(s, q)
    ensures Taken(s, q)
  {
    if i: nat :| Live(s, i) && s.made[i].persisted && s.made[i].num == q { assert Outstanding(s, q); }
  }

  lemma {:induction false} SecuredReserve(s: Ledger, m: Message, q: nat)
    requires Canonical(s) && InRange(s, DoReserve(m)) && q in s.history.seqs && !Outstanding(s, q)
    ensures !Outstanding(Step(s, DoReserve(m)), q)
  {
    var t := Step(s, DoReserve(m));
    assert Taken(s, q) && ReservedSeq(s.history) != q;
    forall i: nat | Live(t, i) ensures t.made[i].num != q {
      if i < |s.made| { assert Live(s, i) <==> Live(t, i); }
    }
  }

  lemma {:induction false} SecuredSettled(s: Ledger, op: Op, i: nat, q: nat)
    requires Canonical(s) && i < |s.made| && Secured(s, q)
    requires op == DoCommit(i) || op == DoRollback(i) || op == DoDiscard(i)
    ensures Secured(Step(s, op), q)
  {
    if Live(s, i) {
      var t, r := Step(s, op), s.made[i].num;
      FinalizeOutstanding(s, i);
      SameMade(t, Finalize(s, i), q);
      if op.DoCommit? { CommitRows(s.history, r, s.made[i].message); }
      if j: nat :| Live(s, j) && s.made[j].persisted && s.made[j].num == q {
        if j != i { assert Live(t, j) && t.made[j] == s.made[j]; }
      }
    }
  }

  lemma {:induction false} SecuredForever(s: Ledger, ops: seq<Op>, q: nat)
    requires Canonical(s) && Runs(s, ops) && Secured(s, q)
    ensures Secured(Exec(s, ops), q) && ReservedSeq(Exec(s, ops).history) != q
    decreases |ops|
  {
    if ops == [] {
      SecuredTaken(s, q);
    } else {
      SecuredStays(s, ops[0], q);
      StepCanonical(s, ops[0]);
      SecuredForever(Step(s, ops[0]), ops[1..], q);
    }
  }

  lemma {:induction false} TwoSteps(s: Ledger, a: Op, b: Op)
    requires Applies(s, a) && InRange(s, a) && Applies(Step(s, a), b) && InRange(Step(s, a), b)
    ensures Runs(s, [a, b]) && Exec(s, [a, b]) == Step(Step(s, a), b)
  {
    var ops, t := [a, b], Step(s, a);
    var rest := ops[1..];
    assert rest == [b] && rest[1..] == [];
    assert Runs(Step(t, b), rest[1..]) && Exec(Step(t, b), rest[1..]) == Step(t, b);
    assert Runs(t, rest) && Exec(t, rest) == Step(t, b);
    assert ops[0] == a;
  }

  /** Clearing the history and rolling back an open, unpersisted reservation gives its seq out again,
      even if a row held it too. */
  lemma {:induction false} ClearRollbackReissues(s: Ledger, i: nat)
    requires Canonical(s) && Live(s, i) && !s.made[i].persisted
    ensures var ops := [DoClear, DoRollback(i)];
      Runs(s, ops) && ReservedSeq(Exec(s, ops).history) == s.made[i].num
  {
    var q := s.made[i].num;
    var t := Step(s, DoClear);
    ClearCanonical(s);
    assert Live(t, i) && t.made[i] == s.made[i];
    var u := Step(t, DoRollback(i));
    RollbackTaken(t, i);
    RollbackCanonical(t, i);
    TwoSteps(s, DoClear, DoRollback(i));
    assert Outstanding(s, q) && Taken(s, q);
    forall k: nat | k < q ensures Taken(u, k) {
      SameMade(s, t, k);
      assert Taken(t, k);
    }
    LeastUntaken(u);
  }

  /** Exactly which taken seqs are never handed out again, whatever is committed, rolled back, discarded,
      restored, cleared or compacted in between: the secured ones. */
  lemma {:induction false} NeverReissued(s: Ledger, q: nat)
    requires Canonical(s) && Taken(s, q)
    ensures Secured(s, q) <==> forall ops | Runs(s, ops) :: ReservedSeq(Exec(s, ops).history) != q
  {
    if Secured(s, q) {
      forall ops | Runs(s, ops) ensures ReservedSeq(Exec(s, ops).history) != q { SecuredForever(s, ops, q); }
    } else {
      var i: nat :| Live(s, i) && s.made[i].num == q;
      ClearRollbackReissues(s, i);
    }
  }

  /** A row that is restored under the seq of a submission still in flight is not secured: after a clear
      the rollback of that submission frees its seq. */
  lemma {:induction false} ReissuedExample(m: Message)
    ensures var ops := [DoReserve(m), DoRestore(0, m)];
      var back := [DoClear, DoRollback(0)];
      && Runs(START, ops) && 0 in Exec(START, ops).history.seqs
      && Runs(Exec(START, ops), back) && ReservedSeq(Exec(Exec(START, ops), back).history) == 0
  {
    StartCanonical();
    ReserveCanonical(START, m);
    var s := Step(START, DoReserve(m));
    assert Live(s, 0) && s.made[0].num == 0;
    RestoreCanonical(s, 0, m);
    CommitRows(s.history, 0, m);
    var t := Step(s, DoRestore(0, m));
    TwoSteps(START, DoReserve(m), DoRestore(0, m));
    assert Live(t, 0) && t.made[0] == s.made[0];
    ClearRollbackReissues(t, 0);
  }

  // --- Rolling back in any order ---

  /** A canonical allocator is a function of what is taken. */
  lemma {:induction false} CanonicalUnique(a: Ledger, b: Ledger)
    requires Canonical(a) && Canonical(b) && forall q: nat :: Taken(a, q) <==> Taken(b, q)
    ensures a.history.free == b.history.free && a.history.next == b.history.next
  {
    assert a.history.next >= b.history.next by {
      if b.history.next > 0 { assert Taken(a, b.history.next - 1); }
    }
    assert b.history.next >= a.history.next by {
      if a.history.next > 0 { assert Taken(b, a.history.next - 1); }
    }
  }

  ghost predicate Abandonable(s: Ledger, i: nat) {
    Live(s, i) && !s.made[i].persisted && s.made[i].num !in s.history.seqs
  }

  ghost function RollbackAll(s: Ledger, order: seq<nat>): Ledger
    requires |s.history.seqs| == |s.history.messages|
    requires forall k | 0 <= k < |order| :: order[k] < |s.made|
    decreases |order|
  {
    if order == [] then s else RollbackAll(Step(s, DoRollback(order[0])), order[1..])
  }

  ghost predicate NoRepeats(order: seq<nat>) {
    forall i, j | 0 <= i < j < |order| :: order[i] != order[j]
  }

  /** What rolling back a set of unpersisted reservations leaves, however they are ordered. */
  lemma {:induction false} RollbackAllEffect(s: Ledger, order: seq<nat>)
    requires Canonical(s) && NoRepeats(order)
    requires forall k | 0 <= k < |order| :: order[k] < |s.made| && Abandonable(s, order[k])
    ensures var t := RollbackAll(s, order);
      && Canonical(t)
      && t.burned == s.burned && SameRows(s.history, t.history) && |t.made| == |s.made|
      && t.history == s.history.(free := t.history.free, next := t.history.next)
      && (forall i: nat | i < |s.made| :: t.made[i] == if i in order then s.made[i].(finalized := true) else s.made[i])
    decreases |order|
  {
    if order != [] {
      var i := order[0];
      RollbackCanonical(s, i);
      var u := Step(s, DoRollback(i));
      LowerSplits(s.history.seqs, s.made[i].num);
      assert u.history.seqs == s.history.seqs;
      forall k | 0 <= k < |order[1..]| ensures Abandonable(u, order[1..][k]) {
        assert order[1..][k] == order[k + 1] && order[k + 1] != i && Abandonable(s, order[k + 1]);
        assert u.made[order[k + 1]] == s.made[order[k + 1]];
      }
      assert NoRepeats(order[1..]);
      RollbackAllEffect(u, order[1..]);
      forall j: nat ensures j in order <==> j == i || j in order[1..] {}
    }
  }

  /** Rolling back a set of unpersisted reservations leaves the same state in every order. */
  lemma {:induction false} RollbackOrderIrrelevant(s: Ledger, p: seq<nat>, q: seq<nat>)
    requires Canonical(s) && NoRepeats(p) && NoRepeats(q)
    requires forall i :: i in p <==> i in q
    requires forall k | 0 <= k < |p| :: p[k] < |s.made| && Abandonable(s, p[k])
    ensures forall k | 0 <= k < |q| :: q[k] < |s.made|
    ensures RollbackAll(s, p) == RollbackAll(s, q)
  {
    forall k | 0 <= k < |q| ensures Abandonable(s, q[k]) {
      assert q[k] in p;
      var j :| 0 <= j < |p| && p[j] == q[k];
    }
    RollbackAllEffect(s, p);
    RollbackAllEffect(s, q);
    var a, b := RollbackAll(s, p), RollbackAll(s, q);
    assert a.made == b.made;
    forall r: nat ensures Taken(a, r) <==> Taken(b, r) { SameMade(a, b, r); }
    CanonicalUnique(a, b);
  }

  ghost function ReserveAll(s: Ledger, messages: seq<Message>): Ledger
    requires |s.history.seqs| == |s.history.messages|
    decreases |messages|
  {
    if messages == [] then s else ReserveAll(Step(s, DoReserve(messages[0])), messages[1..])
  }

  ghost predicate ReservesInRange(s: Ledger, messages: seq<Message>)
    requires |s.history.seqs| == |s.history.messages|
    decreases |messages|
  {
    messages == [] ||
    (InRange(s, DoReserve(messages[0])) && ReservesInRange(Step(s, DoReserve(messages[0])), messages[1..]))
  }

  lemma {:induction false} ReserveAllEffect(s: Ledger, messages: seq<Message>)
    requires Canonical(s) && ReservesInRange(s, messages)
    ensures var t := ReserveAll(s, messages);
      && Canonical(t) && t.burned == s.burned && |t.made| == |s.made| + |messages|
      && t.history == s.history.(free := t.history.free, next := t.history.next)
      && t.made[..|s.made|] == s.made
      && (forall i: nat | |s.made| <= i < |t.made| :: Abandonable(t, i))
    decreases |messages|
  {
    if messages != [] {
      var u := Step(s, DoReserve(messages[0]));
      StepCanonical(s, DoReserve(messages[0]));
      ReserveAllEffect(u, messages[1..]);
      var t := ReserveAll(s, messages);
      assert t.made[|s.made|] == t.made[..|u.made|][|s.made|] == u.made[|s.made|];
      assert u.made[|s.made|].num !in s.history.seqs by { assert !Taken(s, ReservedSeq(s.history)); }
      assert t.made[..|s.made|] == u.made[..|s.made|];
    }
  }

  /** Round trip: reserving any messages and rolling all of them back, in any order, restores the
      history exactly. */
  lemma {:induction false} ReserveRollbackRoundTrip(s: Ledger, messages: seq<Message>, order: seq<nat>)
    requires Canonical(s) && ReservesInRange(s, messages) && NoRepeats(order)
    requires forall i: nat :: i in order <==> |s.made| <= i < |s.made| + |messages|
    ensures |ReserveAll(s, messages).history.seqs| == |ReserveAll(s, messages).history.messages|
    ensures forall k | 0 <= k < |order| :: order[k] < |ReserveAll(s, messages).made|
    ensures RollbackAll(ReserveAll(s, messages), order).history == s.history
  {
    var t := ReserveAll(s, messages);
    ReserveAllEffect(s, messages);
    forall k | 0 <= k < |order| ensures Abandonable(t, order[k]) { assert order[k] in order; }
    RollbackAllEffect(t, order);
    var u := RollbackAll(t, order);
    forall i: nat ensures Live(u, i) <==> Live(s, i) {
      if i < |s.made| { assert t.made[..|s.made|][i] == s.made[i]; }
    }
    forall r: nat ensures Taken(u, r) <==> Taken(s, r) {
      if i: nat :| Live(u, i) && u.made[i].num == r {
        assert Live(s, i) && s.made[i] == t.made[..|s.made|][i];
      }
      if i: nat :| Live(s, i) && s.made[i].num == r {
        assert Live(u, i) && s.made[i] == t.made[..|s.made|][i];
      }
    }
    CanonicalUnique(u, s);
  }
}
