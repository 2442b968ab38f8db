/** Message history of one agent (crates/pacode-core/src/agent.rs): two parallel sorted vectors that
    stand for a map, and a seq allocator with a free list. */
module HistoryModel {
  import opened Common
  import opened Messages

  datatype History = History(
    messages: seq<Message>,
    seqs: seq<nat>,
    free: set<nat>,
    next: nat,
    summary: Option<string>,
    summaryUpto: nat,
    tokens: nat)

  const EMPTY := History([], [], {}, 0, None, 0, 0)

  /** A reserved seq; it is settled once, by a commit, a rollback or a discard. */
  datatype Reservation = Reservation(num: nat, message: Message, persisted: bool, finalized: bool)

  ghost function Least(s: set<nat>): (m: nat)
    requires s != {}
    ensures m in s && forall x | x in s :: m <= x
  {
    var some :| some in s;
    LeastBelow(s, some);
    var m :| IsLeast(s, m);
    m
  }

  ghost predicate IsLeast(s: set<nat>, m: nat) {
    m in s && forall x | x in s :: m <= x
  }

  lemma {:induction false} LeastBelow(s: set<nat>, bound: nat)
    requires bound in s
    ensures exists m: nat :: IsLeast(s, m)
    decreases bound
  {
    if x :| x in s && x < bound {
      LeastBelow(s, x);
    } else {
      assert IsLeast(s, bound);
    }
  }

  ghost function ReservedSeq(h: History): nat {
    if h.free != {} then Least(h.free) else h.next
  }

  ghost function Reserve(h: History): History {
    if h.free != {} then h.(free := h.free - {Least(h.free)}) else h.(next := SatAdd(h.next, 1, U64_MAX))
  }

  /** How many stored seqs lie below `q`: its insertion point. */
  function Lower(seqs: seq<nat>, q: nat): (i: nat)
    ensures i <= |seqs|
  {
    if seqs == [] || seqs[0] >= q then 0 else 1 + Lower(seqs[1..], q)
  }

  function InsertAt<T>(s: seq<T>, i: nat, x: T): seq<T>
    requires i <= |s|
  {
    s[..i] + [x] + s[i..]
  }

  predicate Present(seqs: seq<nat>, q: nat) {
    Lower(seqs, q) < |seqs| && seqs[Lower(seqs, q)] == q
  }

  function Insert(h: History, q: nat, m: Message): History
    requires |h.seqs| == |h.messages|
  {
    var i := Lower(h.seqs, q);
    h.(seqs := InsertAt(h.seqs, i, q), messages := InsertAt(h.messages, i, m),
       tokens := SatAdd(h.tokens, EstimateTokens(m), U32_MAX))
  }

  function Commit(h: History, q: nat, m: Message): History
    requires |h.seqs| == |h.messages|
  {
    if Present(h.seqs, q) then
      var i := Lower(h.seqs, q);
      h.(messages := h.messages[i := m],
         tokens := SatAdd(SatSub(h.tokens, EstimateTokens(h.messages[i])), EstimateTokens(m), U32_MAX))
    else Insert(h, q, m)
  }

  function Restore(h: History, q: nat, m: Message): History
    requires |h.seqs| == |h.messages|
  {
    var bumped := SatAdd(q, 1, U64_MAX);
    var r := h.(free := h.free - {q}, next := if bumped > h.next then bumped else h.next);
    if Present(h.seqs, q) then r else Insert(r, q, m)
  }

  /** Gives back free seqs at the top of the range. */
  function Shrink(free: set<nat>, next: nat): (set<nat>, nat)
    decreases next
  {
    if next > 0 && next - 1 in free then Shrink(free - {next - 1}, next - 1) else (free, next)
  }

  function Rollback(h: History, q: nat): History {
    if Present(h.seqs, q) then h
    else var (free, next) := Shrink(h.free + {q}, h.next); h.(free := free, next := next)
  }

  function Clear(h: History): History {
    EMPTY.(next := h.next)
  }

  /** Moves the counter past a seq found in the store. */
  function Bump(h: History, stored: nat): History {
    h.(next := Max(h.next, SatAdd(stored, 1, U64_MAX)))
  }

  /** The first row compaction keeps: the rows up to `upto` are folded into the summary. */
  function FirstKept(seqs: seq<nat>, upto: Option<nat>): (i: nat)
    ensures i <= |seqs|
  {
    if upto.None? then 0 else Lower(seqs, upto.value + 1)
  }

  function Rewritten(seqs: seq<nat>, messages: seq<Message>, rewritten: map<nat, Message>): (out: seq<Message>)
    requires |seqs| == |messages|
    ensures |out| == |messages|
    ensures forall i | 0 <= i < |out| :: out[i] == if seqs[i] in rewritten then rewritten[seqs[i]] else messages[i]
  {
    if seqs == [] then []
    else
      [if seqs[0] in rewritten then rewritten[seqs[0]] else messages[0]]
      + Rewritten(seqs[1..], messages[1..], rewritten)
  }

  /** What a compaction leaves: folded rows are gone and the free list with them, kept rows may be
      rewritten; `tokens` is the new estimate. */
  function Compact(h: History, upto: Option<nat>, rewritten: map<nat, Message>, summary: Option<string>,
    tokens: nat): History
    requires |h.seqs| == |h.messages|
  {
    var i := FirstKept(h.seqs, upto);
    var kept := h.(seqs := h.seqs[i..], messages := Rewritten(h.seqs[i..], h.messages[i..], rewritten),
      tokens := tokens);
    if upto.None? then kept
    else kept.(summary := summary, summaryUpto := Max(h.summaryUpto, upto.value), free := {})
  }

  // --- The parallel vectors are a sorted map ---

  ghost predicate Sorted(h: History) {
    |h.seqs| == |h.messages| && Increasing(h.seqs)
  }

  /** The map the vectors stand for. */
  function Lookup(h: History, q: nat): Option<Message>
    requires |h.seqs| == |h.messages|
  {
    if Present(h.seqs, q) then Some(h.messages[Lower(h.seqs, q)]) else None
  }

  lemma {:induction false} LowerSplits(seqs: seq<nat>, q: nat)
    requires Increasing(seqs)
    ensures var i := Lower(seqs, q);
      (forall j | 0 <= j < i :: seqs[j] < q) && (forall j | i <= j < |seqs| :: seqs[j] >= q)
    ensures Present(seqs, q) <==> q in seqs
  {
    if seqs != [] && seqs[0] < q {
      assert forall j | 0 <= j < |seqs| - 1 :: seqs[1..][j] == seqs[j + 1];
      LowerSplits(seqs[1..], q);
      var i := Lower(seqs, q);
      forall j | 0 <= j < |seqs| ensures j < i ==> seqs[j] < q ensures j >= i ==> seqs[j] >= q {
        if j > 0 { assert seqs[1..][j - 1] == seqs[j]; }
      }
    }
  }

  /** A row is found at its position, and only there. */
  lemma {:induction false} LookupRow(h: History, i: nat)
    requires Sorted(h) && i < |h.seqs|
    ensures Lookup(h, h.seqs[i]) == Some(h.messages[i])
  {
    LowerSplits(h.seqs, h.seqs[i]);
  }

  lemma {:induction false} InsertSorted(h: History, q: nat, m: Message)
    requires Sorted(h) && q !in h.seqs
    ensures var i, t := Lower(h.seqs, q), Insert(h, q, m);
      && Sorted(t) && |t.seqs| == |h.seqs| + 1
      && (forall j | 0 <= j < |t.seqs| :: t.seqs[j] == if j < i then h.seqs[j] else if j == i then q else h.seqs[j - 1])
      && (forall j | 0 <= j < |t.seqs| ::
        t.messages[j] == if j < i then h.messages[j] else if j == i then m else h.messages[j - 1])
  {
    LowerSplits(h.seqs, q);
    var i, t := Lower(h.seqs, q), Insert(h, q, m);
    assert forall j | 0 <= j < |t.seqs| ::
      t.seqs[j] == if j < i then h.seqs[j] else if j == i then q else h.seqs[j - 1];
  }

  lemma {:induction false} InsertLookup(h: History, q: nat, m: Message, r: nat)
    requires Sorted(h) && q !in h.seqs
    ensures Lookup(Insert(h, q, m), r) == if r == q then Some(m) else Lookup(h, r)
  {
    var i, t := Lower(h.seqs, q), Insert(h, q, m);
    InsertSorted(h, q, m);
    if r == q {
      assert t.seqs[i] == q;
      LookupRow(t, i);
    } else if r in h.seqs {
      var j :| 0 <= j < |h.seqs| && h.seqs[j] == r;
      LookupRow(h, j);
      LookupRow(t, if j < i then j else j + 1);
    } else {
      LowerSplits(h.seqs, r);
      LowerSplits(t.seqs, r);
      assert r !in t.seqs;
    }
  }

  ghost predicate SameRows(a: History, b: History) {
    a.seqs == b.seqs && a.messages == b.messages
  }

  /** Committing updates the map. */
  lemma {:induction false} CommitUpdates(h: History, q: nat, m: Message, r: nat)
    requires Sorted(h)
    ensures Sorted(Commit(h, q, m))
    ensures Lookup(Commit(h, q, m), r) == if r == q then Some(m) else Lookup(h, r)
  {
    LowerSplits(h.seqs, q);
    if q in h.seqs {
      LowerSplits(h.seqs, r);
    } else {
      InsertSorted(h, q, m);
      InsertLookup(h, q, m, r);
    }
  }

  /** Restoring inserts only what is absent. */
  lemma {:induction false} RestoreInserts(h: History, q: nat, m: Message, r: nat)
    requires Sorted(h)
    ensures Sorted(Restore(h, q, m))
    ensures Lookup(Restore(h, q, m), r) == if r == q && Lookup(h, q).None? then Some(m) else Lookup(h, r)
  {
    LowerSplits(h.seqs, q);
    if q !in h.seqs {
      var bumped := SatAdd(q, 1, U64_MAX);
      var base := h.(free := h.free - {q}, next := if bumped > h.next then bumped else h.next);
      InsertSorted(base, q, m);
      InsertLookup(base, q, m, r);
    }
  }

  lemma {:induction false} CompactRow(h: History, t: History, i: nat, rewritten: map<nat, Message>, j: nat)
    requires Sorted(h) && Sorted(t) && i <= |h.seqs| && t.seqs == h.seqs[i..] && j < |t.seqs|
    requires t.messages == Rewritten(h.seqs[i..], h.messages[i..], rewritten)
    ensures var r := t.seqs[j];
      && Lookup(h, r).Some?
      && Lookup(t, r) == if r in rewritten then Some(rewritten[r]) else Lookup(h, r)
  {
    assert h.seqs[i + j] == t.seqs[j] && h.messages[i..][j] == h.messages[i + j];
    LookupRow(h, i + j);
    LookupRow(t, j);
  }

  /** Compacting removes the folded part of the map and rewrites the rest in place. */
  lemma {:induction false} CompactKeeps(h: History, upto: Option<nat>, rewritten: map<nat, Message>,
    summary: Option<string>, tokens: nat, r: nat)
    requires Sorted(h)
    ensures var t := Compact(h, upto, rewritten, summary, tokens);
      && Sorted(t)
      && (r in t.seqs <==> r in h.seqs && (upto.Some? ==> r > upto.value))
      && Lookup(t, r) ==
        if Lookup(h, r).None? || (upto.Some? && r <= upto.value) then None
        else if r in rewritten then Some(rewritten[r]) else Lookup(h, r)
  {
    var i, t := FirstKept(h.seqs, upto), Compact(h, upto, rewritten, summary, tokens);
    CompactSeqs(h.seqs, upto, r);
    if r in t.seqs {
      var j :| 0 <= j < |t.seqs| && t.seqs[j] == r;
      CompactRow(h, t, i, rewritten, j);
    } else {
      LowerSplits(h.seqs, r);
      LowerSplits(t.seqs, r);
    }
  }

  lemma {:induction false} CompactSeqs(seqs: seq<nat>, upto: Option<nat>, r: nat)
    requires Increasing(seqs)
    ensures Increasing(seqs[FirstKept(seqs, upto)..])
    ensures r in seqs[FirstKept(seqs, upto)..] <==> r in seqs && (upto.Some? ==> r > upto.value)
  {
    var i := FirstKept(seqs, upto);
    var kept := seqs[i..];
    if upto.Some? { LowerSplits(seqs, upto.value + 1); }
    SuffixIncreasing(seqs, i);
    if r in seqs && (upto.Some? ==> r > upto.value) {
      var j :| 0 <= j < |seqs| && seqs[j] == r;
      assert kept[j - i] == r;
    }
  }

  lemma {:induction false} SuffixIncreasing(seqs: seq<nat>, i: nat)
    requires Increasing(seqs) && i <= |seqs|
    ensures Increasing(seqs[i..])
  {
  }

  // --- The token estimate ---

  function TokenSum(messages: seq<Message>): nat {
    if messages == [] then 0 else EstimateTokens(messages[0]) + TokenSum(messages[1..])
  }

  lemma {:induction false} TokenSumConcat(a: seq<Message>, b: seq<Message>)
    ensures TokenSum(a + b) == TokenSum(a) + TokenSum(b)
  {
    if a == [] {
      assert a + b == b;
    } else {
      assert (a + b)[1..] == a[1..] + b;
      TokenSumConcat(a[1..], b);
    }
  }

  lemma {:induction false} TokenSumSplit(s: seq<Message>, i: nat)
    requires i < |s|
    ensures TokenSum(s) == TokenSum(s[..i]) + EstimateTokens(s[i]) + TokenSum(s[i + 1..])
  {
    assert s == s[..i] + s[i..] && s[i..][1..] == s[i + 1..];
    TokenSumConcat(s[..i], s[i..]);
  }

  ghost predicate TokensExact(h: History) {
    h.tokens == TokenSum(h.messages)
  }

  /** The estimate stays the exact sum exactly while that sum fits 32 bits. */
  lemma {:induction false} TokensTrackSum(h: History, q: nat, m: Message)
    requires Sorted(h) && TokensExact(h)
    ensures TokensExact(Commit(h, q, m)) <==> TokenSum(Commit(h, q, m).messages) <= U32_MAX
    ensures h.tokens <= U32_MAX ==>
      (TokensExact(Restore(h, q, m)) <==> TokenSum(Restore(h, q, m).messages) <= U32_MAX)
    ensures TokensExact(Reserve(h)) && TokensExact(Rollback(h, q)) && TokensExact(Clear(h))
  {
    var i := Lower(h.seqs, q);
    if Present(h.seqs, q) {
      var t := h.messages[i := m];
      TokenSumSplit(h.messages, i);
      TokenSumSplit(t, i);
      assert t[..i] == h.messages[..i] && t[i + 1..] == h.messages[i + 1..];
    } else {
      var t := InsertAt(h.messages, i, m);
      TokenSumSplit(t, i);
      assert t[..i] == h.messages[..i] && t[i + 1..] == h.messages[i..] && t[i] == m;
      assert h.messages == h.messages[..i] + h.messages[i..];
      TokenSumConcat(h.messages[..i], h.messages[i..]);
    }
  }
}
