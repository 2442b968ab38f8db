/** What the client event queue answers: exactly when an event is accepted, dropped or refused, and what
    it costs the events already queued (crates/pacode-client/src/lib.rs). */
module EventQueueAnswers {
  import opened Common
  import opened EventQueueModel
  import opened EventQueueRuns

  // --- Room ---

  /** The control events alone leave room for this many bytes. */
  ghost predicate LeavesRoom(q: Queue, bytes: nat) {
    |Controls(q.events)| < CAPACITY && Sum(Controls(q.events)) + bytes <= BYTE_LIMIT
  }

  ghost function Deltas(events: seq<Queued>): seq<Queued> {
    Filter(events, (x: Queued) => Lossy(x.event))
  }

  lemma {:induction false} FilterNone(events: seq<Queued>, keep: Queued -> bool)
    requires forall x | x in events :: !keep(x)
    ensures Filter(events, keep) == []
  {
    if events != [] { FilterNone(events[1..], keep); }
  }

  lemma {:induction false} NoDeltaLeft(events: seq<Queued>)
    requires FirstLossy(events) == |events|
    ensures Controls(events) == events && Deltas(events) == []
  {
    FilterAll(events, (x: Queued) => !Lossy(x.event));
    FilterNone(events, (x: Queued) => Lossy(x.event));
  }

  /** Eviction makes room exactly if the control events alone leave it. */
  lemma {:induction false} RoomIffControlsFit(size: Sizer, q: Queue, bytes: nat)
    requires Good(size, q)
    ensures MakeRoom(q, bytes).1 <==> LeavesRoom(q, bytes)
    decreases |q.events|
  {
    FilterShape(q.events, (x: Queued) => !Lossy(x.event));
    if Crowded(q, bytes) {
      var i := FirstLossy(q.events);
      if i == |q.events| {
        NoDeltaLeft(q.events);
      } else {
        RemoveGood(size, q, i);
        RemoveDelta(q, i);
        RoomIffControlsFit(size, RemoveAt(q, i), bytes);
      }
    }
  }

  /** If the control events alone leave no room, then no loss of deltas makes any, and otherwise some does. */
  lemma {:induction false} NoEvictionHelps(size: Sizer, q: Queue, bytes: nat)
    requires Good(size, q)
    ensures LeavesRoom(q, bytes) <==>
      exists t: Queue :: Good(size, t) && OnlyDeltasLost(q, t) && !Crowded(t, bytes)
  {
    RoomIffControlsFit(size, q, bytes);
    MakeRoomGood(size, q, bytes);
    forall t: Queue | Good(size, t) && OnlyDeltasLost(q, t) && !Crowded(t, bytes)
      ensures LeavesRoom(q, bytes)
    {
      FilterShape(t.events, (x: Queued) => !Lossy(x.event));
    }
    if LeavesRoom(q, bytes) { assert OnlyDeltasLost(q, MakeRoom(q, bytes).0); }
  }

  /** The events without their `n` oldest deltas. */
  function DropOldest(events: seq<Queued>, n: nat): seq<Queued>
    decreases |events|
  {
    if n == 0 || events == [] then events
    else if Lossy(events[0].event) then DropOldest(events[1..], n - 1)
    else [events[0]] + DropOldest(events[1..], n)
  }

  lemma {:induction false} DropPastControls(a: seq<Queued>, b: seq<Queued>, n: nat)
    requires forall x | x in a :: !Lossy(x.event)
    ensures DropOldest(a + b, n) == a + DropOldest(b, n)
    decreases |a|
  {
    if a == [] {
      assert a + b == b;
    } else {
      DropPastControls(a[1..], b, n);
      assert (a + b)[0] == a[0] && (a + b)[1..] == a[1..] + b && a[0] in a;
      assert a == [a[0]] + a[1..];
    }
  }

  lemma {:induction false} DropOneMore(events: seq<Queued>, n: nat)
    requires FirstLossy(events) < |events|
    ensures var i := FirstLossy(events); DropOldest(events, n + 1) == DropOldest(events[..i] + events[i + 1..], n)
  {
    var i := FirstLossy(events);
    var a, rest := events[..i], events[i..];
    assert events == a + rest && rest[1..] == events[i + 1..];
    DropPastControls(a, rest, n + 1);
    DropPastControls(a, rest[1..], n);
  }

  /** Without its `n` oldest deltas the queue has no room for this many bytes. */
  ghost predicate CrowdedWithout(events: seq<Queued>, n: nat, bytes: nat) {
    var rest := DropOldest(events, n);
    |rest| >= CAPACITY || Sum(rest) + bytes > BYTE_LIMIT
  }

  ghost predicate CrowdedUpTo(events: seq<Queued>, n: nat, bytes: nat) {
    forall m | 0 <= m < n :: CrowdedWithout(events, m, bytes)
  }

  lemma {:induction false} CrowdedNow(size: Sizer, q: Queue, bytes: nat)
    requires Good(size, q) && Crowded(q, bytes)
    ensures CrowdedWithout(q.events, 0, bytes)
  {
  }

  lemma {:induction false} EvictedOneMore(events: seq<Queued>, n: nat, bytes: nat)
    requires FirstLossy(events) < |events| && CrowdedWithout(events, 0, bytes)
    requires var i := FirstLossy(events); CrowdedUpTo(events[..i] + events[i + 1..], n, bytes)
    ensures var i := FirstLossy(events); DropOldest(events, n + 1) == DropOldest(events[..i] + events[i + 1..], n)
    ensures CrowdedUpTo(events, n + 1, bytes)
  {
    DropOneMore(events, n);
    var i := FirstLossy(events);
    forall m | 0 <= m < n + 1 ensures CrowdedWithout(events, m, bytes) {
      if m > 0 {
        DropOneMore(events, m - 1);
        assert CrowdedWithout(events[..i] + events[i + 1..], m - 1, bytes);
      }
    }
  }

  /** Eviction for this many bytes takes the `n` oldest deltas, and fewer would not do. */
  ghost predicate EvictsOldest(q: Queue, n: nat, bytes: nat) {
    MakeRoom(q, bytes).0.events == DropOldest(q.events, n) && CrowdedUpTo(q.events, n, bytes)
  }

  lemma {:induction false} EvictsOneMore(size: Sizer, q: Queue, n: nat, bytes: nat)
    requires Good(size, q) && Crowded(q, bytes) && FirstLossy(q.events) < |q.events|
    requires EvictsOldest(RemoveAt(q, FirstLossy(q.events)), n, bytes)
    ensures EvictsOldest(q, n + 1, bytes)
  {
    CrowdedNow(size, q, bytes);
    EvictedOneMore(q.events, n, bytes);
  }

  /** Eviction takes the oldest deltas, and no more of them than it has to. */
  lemma {:induction false} EvictsOldestOnly(size: Sizer, q: Queue, bytes: nat) returns (n: nat)
    requires Good(size, q)
    ensures EvictsOldest(q, n, bytes)
    decreases |q.events|
  {
    if Crowded(q, bytes) && FirstLossy(q.events) < |q.events| {
      RemoveGood(size, q, FirstLossy(q.events));
      var rest := EvictsOldestOnly(size, RemoveAt(q, FirstLossy(q.events)), bytes);
      EvictsOneMore(size, q, rest, bytes);
      n := rest + 1;
    } else {
      n := 0;
    }
  }

  /** The terminal event costs a control event only if the control events leave it no room. */
  lemma {:induction false} TerminalSparesControls(size: Sizer, q: Queue, bytes: nat)
    requires Good(size, q) && LeavesRoom(q, bytes)
    ensures bytes <= BYTE_LIMIT && ForceRoom(q, bytes) == MakeRoom(q, bytes).0
    ensures OnlyDeltasLost(q, ForceRoom(q, bytes))
    decreases |q.events|
  {
    MakeRoomGood(size, q, bytes);
    RoomIffControlsFit(size, q, bytes);
    if Crowded(q, bytes) {
      var i := FirstLossy(q.events);
      RemoveGood(size, q, i);
      RemoveDelta(q, i);
      TerminalSparesControls(size, RemoveAt(q, i), bytes);
    }
  }

  // --- Markers ---

  /** A marker for `c` is queued already or can be. */
  ghost predicate RoomForMarker(size: Sizer, q: Queue, c: Context) {
    Listed(q, c) || (|q.resync| < MAX_RESYNC && LeavesRoom(q, size(ResyncNeeded(c))))
  }

  lemma {:induction false} MarkIffRoom(size: Sizer, q: Queue, c: Context, num: nat)
    requires Good(size, q)
    ensures MarkResync(size, q, c, num).1 <==> RoomForMarker(size, q, c)
  {
    RoomIffControlsFit(size, q, size(ResyncNeeded(c)));
  }

  // --- Deltas ---

  function StreamOf(e: ClientEvent): Stream
    requires Lossy(e)
  {
    Stream(e.context, e.event.agent, e.event.item, e.event.ReasoningDelta?)
  }

  /** The last queued event is a delta of the same stream. */
  predicate Continues(q: Queue, e: ClientEvent)
    requires Lossy(e)
  {
    q.events != [] && Lossy(Last(q).event) && StreamOf(Last(q).event) == StreamOf(e)
  }

  /** A delta of this size may join the queue: below the admission limits, or within the byte limit
      when it continues the last entry. */
  predicate DeltaFits(size: Sizer, q: Queue, e: ClientEvent)
    requires Lossy(e)
  {
    || (Continues(q, e) && q.bytes + size(e) <= 16 * 1024 * 1024)
    || (|q.events| < 1022 && q.bytes + size(e) <= 16 * 1024 * 1024 - 64 * 1024)
  }

  /** Exactly when a delta is accepted, dropped for a resync, or overflows. */
  lemma {:induction false} DeltaAnswer(size: Sizer, q: Queue, e: ClientEvent, r: Option<nat>)
    requires Good(size, q) && Subadditive(size) && Lossy(e) && !q.closed
    ensures var result := Push(size, q, e, r).1;
      && (result == Accepted <==> !Listed(q, e.context) && DeltaFits(size, q, e))
      && (result == Dropped <==> Listed(q, e.context) || (!DeltaFits(size, q, e) && RoomForMarker(size, q, e.context)))
      && (result == Overflow <==> !DeltaFits(size, q, e) && !RoomForMarker(size, q, e.context))
  {
    MarkIffRoom(size, q, e.context, e.num);
    if !Listed(q, e.context) && Mergeable(size, q, e) { MergeBackGood(size, q, e); }
  }

  /** An accepted delta moves nothing: it becomes part of the last entry if it continues it, else a new
      last entry, and its number is then the last one queued. */
  lemma {:induction false} AcceptedDeltaIsLast(size: Sizer, q: Queue, e: ClientEvent, r: Option<nat>)
    requires Good(size, q) && Lossy(e) && Push(size, q, e, r).1 == Accepted
    ensures var t := Push(size, q, e, r).0;
      && |t.events| == |q.events| + (if Mergeable(size, q, e) then 0 else 1)
      && t.events[..|t.events| - 1] <= q.events
      && Lossy(Last(t).event) && StreamOf(Last(t).event) == StreamOf(e) && Last(t).event.num == e.num
  {
  }

  // --- Control events ---

  /** The queued state that a new state of the same global key replaces. */
  predicate Replaces(q: Queue, e: ClientEvent) {
    KeyOf(e).Some? && FirstKey(q.events, KeyOf(e).value) < |q.events|
  }

  ghost predicate ControlFits(size: Sizer, q: Queue, e: ClientEvent) {
    if Replaces(q, e) then q.bytes - q.events[FirstKey(q.events, KeyOf(e).value)].bytes + size(e) <= BYTE_LIMIT
    else LeavesRoom(q, size(e))
  }

  lemma {:induction false} EntryWithinBytes(events: seq<Queued>, i: nat)
    requires i < |events|
    ensures events[i].bytes <= Sum(events)
  {
    SumRemove(events, i);
  }

  lemma {:induction false} RoomWhenAdmitted(size: Sizer, q: Queue, bytes: nat)
    requires Good(size, q) && !Crowded(q, bytes)
    ensures LeavesRoom(q, bytes)
  {
    FilterShape(q.events, (x: Queued) => !Lossy(x.event));
  }

  lemma {:induction false} ControlFitsIff(size: Sizer, q: Queue, e: ClientEvent)
    requires Good(size, q) && !Lossy(e) && !e.ResyncNeeded?
    ensures PushControl(size, q, e).1 == if ControlFits(size, q, e) then Accepted else Overflow
  {
    if Replaces(q, e) {
      EntryWithinBytes(q.events, FirstKey(q.events, KeyOf(e).value));
    } else {
      RoomIffControlsFit(size, q, size(e));
      if !Crowded(q, size(e)) { RoomWhenAdmitted(size, q, size(e)); }
    }
  }

  /** Exactly when a control event is accepted: a state that replaces a queued one must fit in its place,
      any other event must fit beside the control events alone. It is never dropped. */
  lemma {:induction false} ControlAnswer(size: Sizer, q: Queue, e: ClientEvent, r: Option<nat>)
    requires Good(size, q) && !Lossy(e) && !e.ResyncNeeded? && !q.closed
    ensures var base := if e.Connected? then DropMarkers(q) else q;
      Push(size, q, e, r).1 == if ControlFits(size, base, e) then Accepted else Overflow
  {
    if e.Connected? { DropMarkersGood(size, q); }
    ControlFitsIff(size, if e.Connected? then DropMarkers(q) else q, e);
  }

  /** A marker is accepted exactly if it is queued already or can be. */
  lemma {:induction false} MarkerAnswer(size: Sizer, q: Queue, c: Context, r: Option<nat>)
    requires Good(size, q) && !q.closed
    ensures Push(size, q, ResyncNeeded(c), r).1 == if RoomForMarker(size, q, c) then Accepted else Overflow
  {
    MarkIffRoom(size, q, c, if r.Some? then r.value else 0);
  }

  /** A delta lost is one that had been queued. */
  lemma {:induction false} EvictionLosesDeltas(size: Sizer, q: Queue, bytes: nat)
    requires Good(size, q)
    ensures Deltas(MakeRoom(q, bytes).0.events) == Deltas(q.events) <==>
      !Crowded(q, bytes) || FirstLossy(q.events) == |q.events|
    ensures |Deltas(MakeRoom(q, bytes).0.events)| <= |Deltas(q.events)|
    decreases |q.events|
  {
    var i := FirstLossy(q.events);
    if Crowded(q, bytes) && i < |q.events| {
      RemoveGood(size, q, i);
      var keep := (x: Queued) => Lossy(x.event);
      var a, b := q.events[..i], q.events[i + 1..];
      assert q.events == a + [q.events[i]] + b;
      FilterConcat(a + [q.events[i]], b, keep);
      FilterConcat(a, [q.events[i]], keep);
      FilterConcat(a, b, keep);
      FilterOne(q.events[i], keep);
      EvictionLosesDeltas(size, RemoveAt(q, i), bytes);
    }
  }

  lemma {:induction false} DeltasBeside(events: seq<Queued>, e: ClientEvent, bytes: nat)
    requires !Lossy(e)
    ensures Deltas(events + [Queued(e, bytes)]) == Deltas(events)
  {
    FilterConcat(events, [Queued(e, bytes)], (x: Queued) => Lossy(x.event));
    FilterOne(Queued(e, bytes), (x: Queued) => Lossy(x.event));
  }

  lemma {:induction false} DeltasWithout(q: Queue, i: nat)
    requires i < |q.events| && !Lossy(q.events[i].event)
    ensures Deltas(RemoveAt(q, i).events) == Deltas(q.events)
  {
    var a, b := q.events[..i], q.events[i + 1..];
    assert q.events == a + [q.events[i]] + b;
    FilterDrop(a, q.events[i], b, (x: Queued) => Lossy(x.event));
  }

  /** An accepted control event is the last one queued. It costs queued deltas exactly if it replaces
      nothing and the queue has no room for it, and then no context is marked for a resync. */
  lemma {:induction false} SilentLoss(size: Sizer, q: Queue, e: ClientEvent, r: Option<nat>)
    requires Good(size, q) && !Lossy(e) && !e.ResyncNeeded? && !e.Connected? && Push(size, q, e, r).1 == Accepted
    ensures var t := Push(size, q, e, r).0;
      && Last(t) == Queued(e, size(e)) && t.resync == q.resync
      && (Deltas(t.events) != Deltas(q.events) <==>
            !Replaces(q, e) && Crowded(q, size(e)) && exists x :: x in q.events && Lossy(x.event))
  {
    if Replaces(q, e) {
      var i := FirstKey(q.events, KeyOf(e).value);
      DeltasWithout(q, i);
      DeltasBeside(RemoveAt(q, i).events, e, size(e));
    } else {
      EvictionLosesDeltas(size, q, size(e));
      MakeRoomGood(size, q, size(e));
      var room := MakeRoom(q, size(e)).0;
      DeltasBeside(room.events, e, size(e));
      assert Push(size, q, e, r).0.events == room.events + [Queued(e, size(e))];
      if FirstLossy(q.events) < |q.events| { assert q.events[FirstLossy(q.events)] in q.events; }
    }
  }

  function ExampleSize(e: ClientEvent): nat {
    if Lossy(e) then ADMIT_BYTES else 64 * 1024 + 1
  }

  /** A delta that was accepted can be lost without any resync: a control event evicts it. */
  lemma {:induction false} SilentLossExample(c: Context)
    ensures var size := e => ExampleSize(e);
      var (q, first) := Push(size, EMPTY, Wire(c, 1, TextDelta("main", 1, "hi")), None);
      var (t, second) := Push(size, q, Wire(c, 2, OtherEvent("done")), None);
      && first == Accepted && second == Accepted
      && QueuedText(q.events, Stream(c, "main", 1, false)) == "hi"
      && QueuedText(t.events, Stream(c, "main", 1, false)) == "" && t.resync == []
  {
    var size := e => ExampleSize(e);
    var delta, done := Wire(c, 1, TextDelta("main", 1, "hi")), Wire(c, 2, OtherEvent("done"));
    var q := Push(size, EMPTY, delta, None).0;
    assert q == Queue([Queued(delta, ADMIT_BYTES)], ADMIT_BYTES, [], false, false);
    assert RemoveAt(q, 0) == EMPTY;
    TextOne(q.events[0], Stream(c, "main", 1, false));
    assert MakeRoom(EMPTY, size(done)) == (EMPTY, true);
    assert MakeRoom(q, size(done)) == (EMPTY, true);
    TextOne(Queued(done, size(done)), Stream(c, "main", 1, false));
  }

  /** The two events are states of one thing: of a session, of a credential or of a login. */
  predicate SameThing(a: ClientEvent, b: ClientEvent) {
    && a.Wire? && b.Wire?
    && match (a.event, b.event)
       case (SessionStatus(x, _), SessionStatus(y, _)) => x == y
       case (AuthUpdated(x, _), AuthUpdated(y, _)) => x == y
       case (LoginProgress(x, _), LoginProgress(y, _)) => x == y
       case _ => false
  }

  lemma {:induction false} KeysTellThings(a: ClientEvent, b: ClientEvent)
    ensures SameThing(a, b) <==> KeyOf(a).Some? && KeyOf(a) == KeyOf(b)
  {
  }

  /** A state that is accepted is the only one queued of its thing. */
  lemma {:induction false} LatestStateOnly(size: Sizer, q: Queue, e: ClientEvent, r: Option<nat>)
    requires Good(size, q) && !Lossy(e) && !e.ResyncNeeded? && !e.Connected? && Push(size, q, e, r).1 == Accepted
    ensures forall x | x in Push(size, q, e, r).0.events :: SameThing(x.event, e) ==> x == Queued(e, size(e))
  {
    PushControlGood(size, q, e);
    var t := Push(size, q, e, r).0;
    SilentLoss(size, q, e, r);
    forall x | x in t.events && SameThing(x.event, e) ensures x == Queued(e, size(e)) {
      KeysTellThings(x.event, e);
      var i :| 0 <= i < |t.events| && t.events[i] == x;
      if i < |t.events| - 1 { assert Clash(t.events[i].event, t.events[|t.events| - 1].event); }
    }
  }

  // --- Snapshots ---

  /** A snapshot of the session at `num` makes the event redundant: an event of the session up to there,
      or a marker whose listing reaches no further. */
  ghost predicate Covered(q: Queue, session: string, num: nat, e: ClientEvent) {
    && e.context.session == Some(session)
    && ((e.Wire? && e.num <= num && !e.event.SessionStatus? && !e.event.AuthUpdated? && !e.event.LoginProgress?)
        || (e.ResyncNeeded? && (Listed(q, e.context) ==> FloorOf(q, e.context) <= num)))
  }

  lemma {:induction false} FilterSame(events: seq<Queued>, f: Queued -> bool, g: Queued -> bool)
    requires forall x | x in events :: f(x) == g(x)
    ensures Filter(events, f) == Filter(events, g)
  {
    if events != [] { FilterSame(events[1..], f, g); }
  }

  ghost function Uncovered(q: Queue, session: string, num: nat): seq<Queued> {
    Filter(q.events, (x: Queued) => !Covered(q, session, num, x.event))
  }

  /** An applied snapshot takes exactly the events it covers out of the queue and moves no other. */
  lemma {:induction false} SnapshotTakesCovered(size: Sizer, q: Queue, session: string, num: nat)
    requires Good(size, q)
    ensures SnapshotApplied(q, session, num).events == Uncovered(q, session, num)
  {
    var keep, uncovered := (x: Queued) => !Outdated(q, session, num, x),
      (x: Queued) => !Covered(q, session, num, x.event);
    forall x: Queued ensures keep(x) == uncovered(x) {}
    FilterSame(q.events, keep, uncovered);
  }

  // --- The receiver ---

  function PopTimes(q: Queue, n: nat): Queue
    decreases n
  {
    if n == 0 then q else PopTimes(Pop(q), n - 1)
  }

  /** The receiver takes the events in the order in which they are queued, and their bytes with them. */
  lemma {:induction false} ReceivedInOrder(size: Sizer, q: Queue, n: nat)
    requires Good(size, q) && n <= |q.events|
    ensures var t := PopTimes(q, n);
      t.events == q.events[n..] && t.bytes == Sum(q.events[n..]) && t.resync == q.resync
    decreases n
  {
    if n > 0 {
      PopGood(size, q);
      ReceivedInOrder(size, Pop(q), n - 1);
    }
  }
}
