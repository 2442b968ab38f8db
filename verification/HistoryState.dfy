/** The mutable history and its reservations (crates/pacode-core/src/agent.rs), proved against the
    functions of module `HistoryModel`. */
module HistoryObject {
  import opened Common
  import opened Messages
  import opened Pairing
  import HM = HistoryModel

  class MessageReservation {
    const num: nat
    const message: Message
    var persisted: bool
    var finalized: bool
    var admission: Option<string>

    constructor (num: nat, message: Message)
      ensures this.num == num && this.message == message && !persisted && !finalized && admission.None?
    {
      this.num, this.message := num, message;
      persisted, finalized, admission := false, false, None;
    }

    ghost function View(): HM.Reservation
      reads this
    {
      HM.Reservation(num, message, persisted, finalized)
    }
  }

  /** Binary search as the standard library promises it: the position of `key`, or where it goes. */
  method BinarySearch(seqs: seq<nat>, key: nat) returns (found: bool, index: nat)
    requires Increasing(seqs)
    ensures index == HM.Lower(seqs, key) && found == HM.Present(seqs, key)
    ensures found <==> key in seqs
  {
    var lo, hi := 0, |seqs|;
    while lo < hi
      invariant 0 <= lo <= hi <= |seqs|
      invariant forall i | 0 <= i < lo :: seqs[i] < key
      invariant forall i | hi <= i < |seqs| :: seqs[i] >= key
    {
      var mid := lo + (hi - lo) / 2;
      if seqs[mid] < key { lo := mid + 1; } else { hi := mid; }
    }
    HM.LowerSplits(seqs, key);
    return lo < |seqs| && seqs[lo] == key, lo;
  }

  class History {
    var messages: seq<Message>
    var messageSeqs: seq<nat>
    var freeSeqs: set<nat>
    var nextSeq: nat
    var summary: Option<string>
    var summaryUpto: nat
    var estimatedTokens: nat

    ghost function View(): HM.History
      reads this
    {
      HM.History(messages, messageSeqs, freeSeqs, nextSeq, summary, summaryUpto, estimatedTokens)
    }

    ghost predicate Valid()
      reads this
    {
      HM.Sorted(View())
    }

    constructor ()
      ensures View() == HM.EMPTY && Valid()
    {
      messages, messageSeqs, freeSeqs, nextSeq := [], [], {}, 0;
      summary, summaryUpto, estimatedTokens := None, 0, 0;
    }

    method Reserve(message: Message) returns (r: MessageReservation)
      requires Valid()
      modifies this
      ensures Valid() && View() == HM.Reserve(old(View()))
      ensures fresh(r) && r.admission.None?
      ensures r.View() == HM.Reservation(HM.ReservedSeq(old(View())), message, false, false)
    {
      var num;
      if freeSeqs != {} {
        ghost var least := HM.Least(freeSeqs);
        num :| num in freeSeqs && forall x | x in freeSeqs :: num <= x;
        freeSeqs := freeSeqs - {num};
      } else {
        num := nextSeq;
        nextSeq := if nextSeq < U64_MAX then nextSeq + 1 else U64_MAX;
      }
      r := new MessageReservation(num, message);
    }

    method CommitReserved(r: MessageReservation)
      requires Valid()
      modifies this, r
      ensures Valid() && r.finalized && r.persisted == old(r.persisted)
      ensures View() == if old(r.finalized) then old(View()) else HM.Commit(old(View()), r.num, r.message)
    {
      HM.CommitUpdates(View(), r.num, r.message, r.num);
      HM.LowerSplits(messageSeqs, r.num);
      if r.finalized { return; }
      r.finalized := true;
      var tokens := EstimateTokens(r.message);
      if messageSeqs == [] || messageSeqs[|messageSeqs| - 1] < r.num {
        estimatedTokens := SatAdd(estimatedTokens, tokens, U32_MAX);
        messageSeqs := messageSeqs + [r.num];
        messages := messages + [r.message];
        return;
      }
      var found, index := BinarySearch(messageSeqs, r.num);
      if found {
        var previous := EstimateTokens(messages[index]);
        messages := messages[index := r.message];
        estimatedTokens := SatAdd(SatSub(estimatedTokens, previous), tokens, U32_MAX);
        return;
      }
      estimatedTokens := SatAdd(estimatedTokens, tokens, U32_MAX);
      messageSeqs := HM.InsertAt(messageSeqs, index, r.num);
      messages := HM.InsertAt(messages, index, r.message);
    }

    method RollbackReserved(r: MessageReservation)
      requires Valid()
      modifies this, r
      ensures Valid() && r.finalized && r.persisted == old(r.persisted)
      ensures View() == if old(r.finalized) || r.persisted then old(View()) else HM.Rollback(old(View()), r.num)
    {
      if r.finalized { return; }
      r.finalized := true;
      if r.persisted { return; }
      var found, _ := BinarySearch(messageSeqs, r.num);
      if found { return; }
      freeSeqs := freeSeqs + {r.num};
      ghost var goal := HM.Shrink(freeSeqs, nextSeq);
      while nextSeq > 0 && nextSeq - 1 in freeSeqs
        invariant HM.Shrink(freeSeqs, nextSeq) == goal && r.finalized && r.persisted == old(r.persisted)
        invariant View() == old(View()).(free := freeSeqs, next := nextSeq)
        decreases nextSeq
      {
        freeSeqs := freeSeqs - {nextSeq - 1};
        nextSeq := nextSeq - 1;
      }
    }

    method RestoreRow(num: nat, message: Message)
      requires Valid()
      modifies this
      ensures Valid() && View() == HM.Restore(old(View()), num, message)
    {
      HM.RestoreInserts(View(), num, message, num);
      HM.LowerSplits(messageSeqs, num);
      freeSeqs := freeSeqs - {num};
      var bumped := SatAdd(num, 1, U64_MAX);
      if bumped > nextSeq { nextSeq := bumped; }
      var tokens := EstimateTokens(message);
      if messageSeqs == [] || messageSeqs[|messageSeqs| - 1] < num {
        messageSeqs := messageSeqs + [num];
        messages := messages + [message];
        estimatedTokens := SatAdd(estimatedTokens, tokens, U32_MAX);
        return;
      }
      var found, index := BinarySearch(messageSeqs, num);
      if found { return; }
      messageSeqs := HM.InsertAt(messageSeqs, index, num);
      messages := HM.InsertAt(messages, index, message);
      estimatedTokens := SatAdd(estimatedTokens, tokens, U32_MAX);
    }

    method Push(message: Message) returns (num: nat)
      requires Valid()
      modifies this
      ensures Valid() && num == HM.ReservedSeq(old(View()))
      ensures View() == HM.Commit(HM.Reserve(old(View())), num, message)
    {
      var r := Reserve(message);
      CommitReserved(r);
      return r.num;
    }

    method Clear()
      modifies this
      ensures Valid() && View() == HM.Clear(old(View()))
    {
      messages, messageSeqs, freeSeqs := [], [], {};
      summary, summaryUpto, estimatedTokens := None, 0, 0;
    }

    /** Moves the counter past the greatest seq found in the store. */
    method BumpNext(stored: nat)
      requires Valid()
      modifies this
      ensures Valid() && View() == HM.Bump(old(View()), stored)
    {
      nextSeq := Max(nextSeq, SatAdd(stored, 1, U64_MAX));
    }

    /** The rows in seq order: exactly the entries of the map the vectors stand for. */
    method Rows() returns (rows: seq<(nat, Message)>)
      requires Valid()
      ensures forall i, j | 0 <= i < j < |rows| :: rows[i].0 < rows[j].0
      ensures forall q: nat, m :: (q, m) in rows <==> HM.Lookup(View(), q) == Some(m)
    {
      rows := seq(|messages|, i requires 0 <= i < |messages| && |messageSeqs| == |messages| reads this =>
        (messageSeqs[i], messages[i]));
      forall q: nat, m ensures (q, m) in rows <==> HM.Lookup(View(), q) == Some(m) {
        HM.LowerSplits(messageSeqs, q);
        if (q, m) in rows {
          var i :| 0 <= i < |rows| && rows[i] == (q, m);
          HM.LookupRow(View(), i);
        }
        if HM.Lookup(View(), q) == Some(m) {
          assert rows[HM.Lower(messageSeqs, q)] == (q, m);
        }
      }
    }

    /** What the model is sent: the summary, then the repaired messages, always well paired. */
    method ForModel() returns (out: seq<Message>)
      requires Valid()
      ensures WellPaired(out)
      ensures summary.None? ==> out == Sanitize(messages).out
      ensures summary.Some? ==>
        var text := "[Previous conversation summary]\n" + summary.value;
        out == [Message(User, [Text(text)], CompactionSummary)] + Sanitize(messages).out
    {
      var prefix := SummaryMessages(summary);
      var repaired;
      out, repaired := SanitizeToolPairingInto(messages, prefix);
      SanitizeWellPaired(messages);
      WellPairedConcat(prefix, Sanitize(messages).out);
    }
  }

  function SummaryMessages(summary: Option<string>): seq<Message> {
    if summary.None? then []
    else [Message(User, [Text("[Previous conversation summary]\n" + summary.value)], CompactionSummary)]
  }

  // --- Messages waiting for the running turn ---

  function PersistedPrefix(rs: seq<HM.Reservation>): (n: nat)
    ensures n <= |rs|
    ensures forall i | 0 <= i < n :: rs[i].persisted
    ensures n < |rs| ==> !rs[n].persisted
  {
    if rs == [] || !rs[0].persisted then 0 else 1 + PersistedPrefix(rs[1..])
  }

  /** Committing reservations in order. */
  function CommitMany(h: HM.History, rs: seq<HM.Reservation>): (t: HM.History)
    requires |h.seqs| == |h.messages|
    ensures |t.seqs| == |t.messages|
    decreases |rs|
  {
    if rs == [] then h
    else CommitMany(if rs[0].finalized then h else HM.Commit(h, rs[0].num, rs[0].message), rs[1..])
  }

  lemma {:induction false} CommitManyAppend(h: HM.History, rs: seq<HM.Reservation>, r: HM.Reservation)
    requires |h.seqs| == |h.messages|
    ensures CommitMany(h, rs + [r]) ==
      var t := CommitMany(h, rs); if r.finalized then t else HM.Commit(t, r.num, r.message)
    decreases |rs|
  {
    if rs == [] {
      assert (rs + [r])[1..] == [];
    } else {
      assert (rs + [r])[1..] == rs[1..] + [r] && (rs + [r])[0] == rs[0];
      CommitManyAppend(if rs[0].finalized then h else HM.Commit(h, rs[0].num, rs[0].message), rs[1..], r);
    }
  }

  lemma {:induction false} CommitManyElsewhere(h: HM.History, rs: seq<HM.Reservation>, q: nat)
    requires HM.Sorted(h) && forall i | 0 <= i < |rs| :: rs[i].finalized || rs[i].num != q
    ensures HM.Lookup(CommitMany(h, rs), q) == HM.Lookup(h, q)
    decreases |rs|
  {
    if rs != [] {
      var t := if rs[0].finalized then h else HM.Commit(h, rs[0].num, rs[0].message);
      if !rs[0].finalized { HM.CommitUpdates(h, rs[0].num, rs[0].message, q); }
      CommitManyElsewhere(t, rs[1..], q);
    }
  }

  /** Every open reservation that is committed is read back, unless a later one has its seq. */
  lemma {:induction false} CommitManyReads(h: HM.History, rs: seq<HM.Reservation>, i: nat)
    requires HM.Sorted(h) && i < |rs| && !rs[i].finalized
    requires forall j | i < j < |rs| :: rs[j].finalized || rs[j].num != rs[i].num
    ensures HM.Lookup(CommitMany(h, rs), rs[i].num) == Some(rs[i].message)
    decreases |rs|
  {
    var t := if rs[0].finalized then h else HM.Commit(h, rs[0].num, rs[0].message);
    if !rs[0].finalized { HM.CommitUpdates(h, rs[0].num, rs[0].message, rs[0].num); }
    if i == 0 {
      CommitManyElsewhere(t, rs[1..], rs[0].num);
    } else {
      CommitManyReads(t, rs[1..], i - 1);
    }
  }

  /** The admissions that were given, in order. */
  function Given(admissions: seq<Option<string>>): seq<string> {
    if admissions == [] then []
    else if admissions[0].Some? then [admissions[0].value] + Given(admissions[1..])
    else Given(admissions[1..])
  }

  lemma {:induction false} GivenConcat(a: seq<Option<string>>, b: seq<Option<string>>)
    ensures Given(a + b) == Given(a) + Given(b)
  {
    if a == [] {
      assert a + b == b;
    } else {
      assert (a + b)[1..] == a[1..] + b;
      GivenConcat(a[1..], b);
    }
  }

  /** Exactly what was given is returned. */
  lemma {:induction false} GivenExactly(admissions: seq<Option<string>>, a: string)
    ensures a in Given(admissions) <==> Some(a) in admissions
  {
    if admissions != [] { GivenExactly(admissions[1..], a); }
  }

  lemma {:induction false} GivenAppend(all: seq<Option<string>>, k: nat)
    requires k < |all|
    ensures Given(all[..k + 1]) == Given(all[..k]) + if all[k].Some? then [all[k].value] else []
  {
    assert all[..k + 1] == all[..k] + [all[k]] && [all[k]][1..] == [];
    GivenConcat(all[..k], [all[k]]);
  }

  class PendingMessages {
    const history: History
    var pending: seq<MessageReservation>
    var discarded: set<nat>

    ghost predicate Valid()
      reads this, history
    {
      history.Valid() && forall i, j | 0 <= i < j < |pending| :: pending[i] != pending[j]
    }

    constructor (history: History)
      requires history.Valid()
      ensures Valid() && this.history == history && pending == [] && discarded == {}
    {
      this.history, pending, discarded := history, [], {};
    }

    ghost function Views(): seq<HM.Reservation>
      reads this, pending
    {
      seq(|pending|, i requires 0 <= i < |pending| reads this, pending => pending[i].View())
    }

    method ReserveUserMessage(message: Message) returns (r: MessageReservation)
      requires Valid()
      modifies this, history
      ensures Valid() && fresh(r) && pending == old(pending) + [r] && discarded == old(discarded)
      ensures history.View() == HM.Reserve(old(history.View())) && r.admission.None?
      ensures r.View() == HM.Reservation(HM.ReservedSeq(old(history.View())), message, false, false)
    {
      r := history.Reserve(message);
      pending := pending + [r];
    }

    method ReserveUserMessageWithAdmission(message: Message, admission: string) returns (r: MessageReservation)
      requires Valid()
      modifies this, history
      ensures Valid() && fresh(r) && pending == old(pending) + [r] && discarded == old(discarded)
      ensures history.View() == HM.Reserve(old(history.View())) && r.admission == Some(admission)
      ensures r.View() == HM.Reservation(HM.ReservedSeq(old(history.View())), message, false, false)
    {
      r := ReserveUserMessage(message);
      r.admission := Some(admission);
    }

    /** Takes a message back: it leaves the queue, the others keep their order, and its seq is free
        again unless it was persisted. */
    method RollbackUserMessage(r: MessageReservation)
      requires Valid()
      modifies this, history, r
      ensures Valid() && discarded == old(discarded) && r.finalized
      ensures r !in pending && (r !in old(pending) ==> pending == old(pending))
      ensures forall i | 0 <= i < |old(pending)| && old(pending)[i] == r ::
        pending == old(pending)[..i] + old(pending)[i + 1..]
      ensures var kept := old(r.finalized) || r.persisted;
        history.View() == if kept then old(history.View()) else HM.Rollback(old(history.View()), r.num)
    {
      var index := 0;
      while index < |pending| && pending[index] != r
        invariant index <= |pending| && forall i | 0 <= i < index :: pending[i] != r
      {
        index := index + 1;
      }
      if index < |pending| {
        var rest := pending[..index] + pending[index + 1..];
        assert forall i | 0 <= i < |rest| :: rest[i] == pending[if i < index then i else i + 1];
        pending := rest;
      }
      history.RollbackReserved(r);
    }

    method CountPersisted() returns (count: nat)
      ensures count == PersistedPrefix(Views()) && count <= |pending|
    {
      count := 0;
      ghost var views := Views();
      while count < |pending| && pending[count].persisted
        invariant count <= PersistedPrefix(views) && count <= |pending|
      {
        assert views[count] == pending[count].View();
        count := count + 1;
      }
      assert count < |pending| ==> views[count] == pending[count].View();
    }

    /** Commits the persisted messages at the front of the queue, in order, and nothing behind the
        first one that is not persisted. */
    method CommitPendingUserMessages() returns (any: bool)
      requires Valid()
      modifies this, history, pending
      ensures Valid() && discarded == old(discarded)
      ensures var n := PersistedPrefix(old(Views()));
        && any == (n > 0)
        && pending == old(pending)[n..]
        && (forall i | 0 <= i < n :: old(pending)[i].finalized)
        && (forall i | n <= i < |old(pending)| :: old(pending)[i].finalized == old(pending[i].finalized))
        && history.View() == CommitMany(old(history.View()), old(Views())[..n])
    {
      ghost var n, views := PersistedPrefix(Views()), Views();
      var count := CountPersisted();
      if count == 0 { return false; }
      var ready := pending[..count];
      pending := pending[count..];
      assert forall i | 0 <= i < |ready| :: ready[i].View() == views[..n][i];
      CommitReady(ready, views[..n]);
      return true;
    }

    method CommitReady(ready: seq<MessageReservation>, ghost views: seq<HM.Reservation>)
      requires history.Valid() && |views| == |ready|
      requires forall i, j | 0 <= i < j < |ready| :: ready[i] != ready[j]
      requires forall i | 0 <= i < |ready| :: ready[i].View() == views[i]
      modifies history, ready
      ensures history.Valid() && history.View() == CommitMany(old(history.View()), views)
      ensures forall i | 0 <= i < |ready| :: ready[i].finalized
    {
      var k := 0;
      while k < |ready|
        invariant k <= |ready| && history.Valid()
        invariant history.View() == CommitMany(old(history.View()), views[..k])
        invariant forall i | 0 <= i < k :: ready[i].finalized
        invariant forall i | k <= i < |ready| :: ready[i].View() == views[i]
      {
        CommitManyAppend(old(history.View()), views[..k], views[k]);
        assert views[..k + 1] == views[..k] + [views[k]];
        history.CommitReserved(ready[k]);
        k := k + 1;
      }
      assert views[..k] == views;
    }

    ghost function Admissions(): seq<Option<string>>
      reads this, pending
    {
      seq(|pending|, i requires 0 <= i < |pending| reads this, pending => pending[i].admission)
    }

    /** Empties the queue: none of its messages can be committed or rolled back any more, their seqs are
        remembered as discarded, and the admissions they carried are returned in order. */
    method DiscardPendingUserMessages() returns (admissions: seq<string>)
      requires Valid()
      modifies this, pending
      ensures Valid() && pending == [] && history.View() == old(history.View())
      ensures admissions == Given(old(Admissions()))
      ensures forall r | r in old(pending) :: r.finalized
      ensures discarded == old(discarded) + set r | r in old(pending) :: r.num
    {
      var k := 0;
      admissions := [];
      ghost var all := Admissions();
      while k < |pending|
        invariant k <= |pending| && pending == old(pending) && history.View() == old(history.View())
        invariant (forall i | 0 <= i < |pending| :: pending[i].admission == all[i]) && admissions == Given(all[..k])
        invariant forall i | 0 <= i < k :: pending[i].finalized
        invariant discarded == old(discarded) + set i | 0 <= i < k :: pending[i].num
      {
        GivenAppend(all, k);
        if pending[k].admission.Some? { admissions := admissions + [pending[k].admission.value]; }
        pending[k].finalized := true;
        discarded := discarded + {pending[k].num};
        k := k + 1;
      }
      assert all[..k] == all;
      pending := [];
    }
  }
}
