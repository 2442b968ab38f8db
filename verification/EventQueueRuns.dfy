/** What every run of the client event queue keeps (crates/pacode-client/src/lib.rs). */
module EventQueueRuns {
  import opened Common
  import opened EventQueueModel

  // --- The queue invariant ---

  /** Two queued events that may not coexist: markers of one context, or states of one global key. */
  predicate Clash(a: ClientEvent, b: ClientEvent) {
    || (a.ResyncNeeded? && b.ResyncNeeded? && a.context == b.context)
    || (KeyOf(a).Some? && KeyOf(a) == KeyOf(b))
  }

  ghost predicate Unique(events: seq<Queued>) {
    forall i, j | 0 <= i < j < |events| :: !Clash(events[i].event, events[j].event)
  }

  ghost predicate Measured(size: Sizer, events: seq<Queued>) {
    forall x | x in events :: x.bytes == size(x.event)
  }

  ghost predicate MarkersListed(q: Queue) {
    forall x | x in q.events :: x.event.ResyncNeeded? ==> Listed(q, x.event.context)
  }

  ghost predicate DistinctContexts(resync: seq<(Context, nat)>) {
    forall i, j | 0 <= i < j < |resync| :: resync[i].0 != resync[j].0
  }

  /** Byte and count bounds are exact and respected; markers and global keys occur once; every
      queued marker's context is listed, once, among at most eight. */
  ghost predicate Good(size: Sizer, q: Queue) {
    && q.bytes == Sum(q.events) <= BYTE_LIMIT
    && |q.events| <= CAPACITY
    && Measured(size, q.events)
    && Unique(q.events)
    && MarkersListed(q)
    && |q.resync| <= MAX_RESYNC
    && DistinctContexts(q.resync)
  }

  /** Dropping some events, in order, keeps the invariant. */
  ghost predicate Within(a: seq<Queued>, b: seq<Queued>) {
    |a| <= |b| && Sum(a) <= Sum(b) && (forall x | x in a :: x in b) && (Unique(b) ==> Unique(a))
  }

  lemma {:induction false} WithinGood(size: Sizer, q: Queue, events: seq<Queued>)
    requires Good(size, q) && Within(events, q.events)
    ensures Good(size, q.(events := events, bytes := Sum(events)))
  {
    var t := q.(events := events, bytes := Sum(events));
    assert forall c :: Listed(t, c) <==> Listed(q, c);
  }

  lemma {:induction false} RemoveWithin(events: seq<Queued>, i: nat)
    requires i < |events|
    ensures Within(events[..i] + events[i + 1..], events)
    ensures Sum(events[..i] + events[i + 1..]) == Sum(events) - events[i].bytes
  {
    SumRemove(events, i);
    var rest := events[..i] + events[i + 1..];
    assert forall j | 0 <= j < |rest| :: rest[j] == if j < i then events[j] else events[j + 1];
  }

  lemma {:induction false} UniqueCons(x: Queued, s: seq<Queued>)
    ensures Unique([x] + s) <==> Unique(s) && forall y | y in s :: !Clash(x.event, y.event)
  {
    var z := [x] + s;
    assert forall j | 0 <= j < |s| :: z[j + 1] == s[j];
    if Unique(z) {
      forall i, j | 0 <= i < j < |s| ensures !Clash(s[i].event, s[j].event) {
        assert z[i + 1] == s[i] && z[j + 1] == s[j];
      }
      forall y | y in s ensures !Clash(x.event, y.event) {
        var j :| 0 <= j < |s| && s[j] == y;
        assert z[0] == x && z[j + 1] == y;
      }
    }
    if Unique(s) && forall y | y in s :: !Clash(x.event, y.event) {
      forall i, j | 0 <= i < j < |z| ensures !Clash(z[i].event, z[j].event) {
        assert z[j] == s[j - 1];
        if i > 0 { assert z[i] == s[i - 1]; }
      }
    }
  }

  lemma {:induction false} FilterWithin(events: seq<Queued>, keep: Queued -> bool)
    ensures Within(Filter(events, keep), events)
  {
    FilterShape(events, keep);
    FilterUnique(events, keep);
  }

  lemma {:induction false} FilterUnique(events: seq<Queued>, keep: Queued -> bool)
    ensures Unique(events) ==> Unique(Filter(events, keep))
  {
    if events != [] {
      FilterUnique(events[1..], keep);
      FilterShape(events[1..], keep);
      assert events == [events[0]] + events[1..];
      UniqueCons(events[0], events[1..]);
      if keep(events[0]) {
        UniqueCons(events[0], Filter(events[1..], keep));
      } else {
        assert Filter(events, keep) == Filter(events[1..], keep);
      }
    }
  }

  lemma {:induction false} RemoveGood(size: Sizer, q: Queue, i: nat)
    requires Good(size, q) && i < |q.events|
    ensures Good(size, RemoveAt(q, i))
  {
    RemoveWithin(q.events, i);
    WithinGood(size, q, q.events[..i] + q.events[i + 1..]);
  }

  lemma {:induction false} PopGood(size: Sizer, q: Queue)
    requires Good(size, q)
    ensures Good(size, Pop(q))
  {
    if q.events != [] {
      assert q.events[..0] + q.events[1..] == q.events[1..];
      RemoveGood(size, q, 0);
    }
  }

  lemma {:induction false} AppendGood(size: Sizer, q: Queue, e: ClientEvent)
    requires Good(size, q) && !Crowded(q, size(e))
    requires forall x | x in q.events :: !Clash(x.event, e)
    requires e.ResyncNeeded? ==> Listed(q, e.context)
    ensures Good(size, Append(q, e, size(e)))
  {
    var t := Append(q, e, size(e));
    SumConcat(q.events, [Queued(e, size(e))]);
    SumOne(Queued(e, size(e)));
    assert forall c :: Listed(t, c) <==> Listed(q, c);
    forall i, j | 0 <= i < j < |t.events| ensures !Clash(t.events[i].event, t.events[j].event) {
      if j == |q.events| { assert q.events[i] in q.events; }
    }
  }

  // --- Eviction ---

  ghost function Controls(events: seq<Queued>): seq<Queued> {
    Filter(events, (x: Queued) => !Lossy(x.event))
  }

  /** `t` lost only deltas of `q`. */
  ghost predicate OnlyDeltasLost(q: Queue, t: Queue) {
    && Controls(t.events) == Controls(q.events)
    && (forall x | x in t.events :: x in q.events)
    && t.resync == q.resync && t.closed == q.closed && t.terminal == q.terminal
  }

  lemma {:induction false} RemoveDelta(q: Queue, i: nat)
    requires i < |q.events| && Lossy(q.events[i].event)
    ensures OnlyDeltasLost(q, RemoveAt(q, i))
  {
    var a, b := q.events[..i], q.events[i + 1..];
    assert q.events == a + [q.events[i]] + b;
    FilterDrop(a, q.events[i], b, (x: Queued) => !Lossy(x.event));
  }

  /** An event that fails the test makes no difference. */
  lemma {:induction false} FilterDrop(a: seq<Queued>, x: Queued, b: seq<Queued>, keep: Queued -> bool)
    requires !keep(x)
    ensures Filter(a + [x] + b, keep) == Filter(a + b, keep)
  {
    assert Filter(a + [x], keep) == Filter(a, keep) by {
      FilterConcat(a, [x], keep);
      FilterOne(x, keep);
    }
    FilterConcat(a + [x], b, keep);
    FilterConcat(a, b, keep);
  }

  lemma {:induction false} MakeRoomGood(size: Sizer, q: Queue, bytes: nat)
    requires Good(size, q)
    ensures var (t, ok) := MakeRoom(q, bytes);
      Good(size, t) && OnlyDeltasLost(q, t) && (ok ==> !Crowded(t, bytes))
    decreases |q.events|
  {
    if Crowded(q, bytes) && FirstLossy(q.events) < |q.events| {
      var i := FirstLossy(q.events);
      RemoveGood(size, q, i);
      RemoveDelta(q, i);
      MakeRoomGood(size, RemoveAt(q, i), bytes);
    }
  }

  // --- Marking a resync ---

  /** The listing of `c` and of every other context after a mark at `num`. */
  ghost predicate Marked(q: Queue, t: Queue, c: Context, num: nat) {
    && Listed(t, c) && FloorOf(t, c) >= num && (Listed(q, c) ==> FloorOf(t, c) >= FloorOf(q, c))
    && forall d | d != c :: (Listed(t, d) <==> Listed(q, d)) && (Listed(q, d) ==> FloorOf(t, d) == FloorOf(q, d))
  }

  function FloorOf(q: Queue, c: Context): nat
    requires Listed(q, c)
  {
    q.resync[Listing(q.resync, c)].1
  }

  lemma {:induction false} ListingAt(resync: seq<(Context, nat)>, i: nat)
    requires DistinctContexts(resync) && i < |resync|
    ensures Listing(resync, resync[i].0) == i
  {
    var j := Listing(resync, resync[i].0);
    assert !(i < j);
  }

  lemma {:induction false} RaiseMarks(q: Queue, c: Context, num: nat)
    requires DistinctContexts(q.resync) && Listed(q, c)
    ensures var t := RaiseFloor(q, Listing(q.resync, c), num);
      DistinctContexts(t.resync) && Marked(q, t, c, num)
  {
    var i := Listing(q.resync, c);
    var t := RaiseFloor(q, i, num);
    assert forall j | 0 <= j < |q.resync| :: t.resync[j].0 == q.resync[j].0;
    ListingAt(t.resync, i);
    forall d ensures Listing(t.resync, d) == Listing(q.resync, d) {
      var j, k := Listing(t.resync, d), Listing(q.resync, d);
      assert j < |t.resync| ==> q.resync[j].0 == d;
      assert k < |q.resync| ==> t.resync[k].0 == d;
    }
  }

  lemma {:induction false} ExtendMarks(q: Queue, c: Context, num: nat)
    requires DistinctContexts(q.resync) && !Listed(q, c)
    ensures var t := q.(resync := q.resync + [(c, num)]);
      DistinctContexts(t.resync) && Marked(q, t, c, num)
  {
    var t := q.(resync := q.resync + [(c, num)]);
    ListingAt(t.resync, |q.resync|);
    forall d | d != c ensures Listing(t.resync, d) == Listing(q.resync, d) || (!Listed(t, d) && !Listed(q, d)) {
      var j, k := Listing(t.resync, d), Listing(q.resync, d);
      assert j < |q.resync| ==> q.resync[j].0 == d;
      assert k < |q.resync| ==> t.resync[k].0 == d;
    }
  }

  lemma {:induction false} MarkGood(size: Sizer, q: Queue, c: Context, num: nat)
    requires Good(size, q)
    ensures var (t, ok) := MarkResync(size, q, c, num);
      && Good(size, t)
      && (ok ==> Marked(q, t, c, num))
      && (!ok ==> OnlyDeltasLost(q, t))
      && (Listed(q, c) ==> t.events == q.events)
      && Controls(t.events) == Controls(q.events)
           + (if ok && !Listed(q, c) then [Queued(ResyncNeeded(c), size(ResyncNeeded(c)))] else [])
      && (forall x | x in t.events :: x in q.events || x.event == ResyncNeeded(c))
      && t.closed == q.closed && t.terminal == q.terminal
  {
    if Listed(q, c) {
      RaiseMarks(q, c, num);
      assert MarkersListed(RaiseFloor(q, Listing(q.resync, c), num));
    } else if |q.resync| < MAX_RESYNC {
      var e := ResyncNeeded(c);
      MakeRoomGood(size, q, size(e));
      var (room, ok) := MakeRoom(q, size(e));
      if ok {
        MarkRoom(size, room, c, num);
        SameListing(room, room, room, q);
      }
    }
  }

  /** A marker for a new context, once there is room. */
  lemma {:induction false} MarkRoom(size: Sizer, room: Queue, c: Context, num: nat)
    requires Good(size, room) && !Listed(room, c) && |room.resync| < MAX_RESYNC && !Crowded(room, size(ResyncNeeded(c)))
    ensures var e := ResyncNeeded(c);
      var t := Append(room.(resync := room.resync + [(c, num)]), e, size(e));
      && Good(size, t) && Marked(room, t, c, num)
      && Controls(t.events) == Controls(room.events) + [Queued(e, size(e))]
  {
    var e := ResyncNeeded(c);
    var listed := room.(resync := room.resync + [(c, num)]);
    ExtendMarks(room, c, num);
    assert MarkersListed(listed);
    assert forall x | x in room.events :: x.event.ResyncNeeded? ==> x.event.context != c;
    AppendGood(size, listed, e);
    FilterConcat(room.events, [Queued(e, size(e))], (x: Queued) => !Lossy(x.event));
    FilterOne(Queued(e, size(e)), (x: Queued) => !Lossy(x.event));
    SameListing(listed, Append(listed, e, size(e)), room, room);
  }

  lemma {:induction false} SameListing(a: Queue, b: Queue, c: Queue, d: Queue)
    requires a.resync == b.resync && c.resync == d.resync
    ensures forall x :: Listed(a, x) <==> Listed(b, x)
    ensures forall x :: Listed(c, x) <==> Listed(d, x)
    ensures forall x | Listed(a, x) :: FloorOf(a, x) == FloorOf(b, x)
    ensures forall x | Listed(c, x) :: FloorOf(c, x) == FloorOf(d, x)
  {
  }

  // --- The text queued for one stream ---

  /** A stream of deltas: one kind of text of one item. */
  datatype Stream = Stream(context: Context, agent: string, item: nat, reasoning: bool)

  function TextFor(e: ClientEvent, k: Stream): string {
    if Lossy(e) && k == Stream(e.context, e.event.agent, e.event.item, e.event.ReasoningDelta?)
    then e.event.text else ""
  }

  function QueuedText(events: seq<Queued>, k: Stream): string {
    if events == [] then "" else TextFor(events[0].event, k) + QueuedText(events[1..], k)
  }

  lemma {:induction false} TextConcat(a: seq<Queued>, b: seq<Queued>, k: Stream)
    ensures QueuedText(a + b, k) == QueuedText(a, k) + QueuedText(b, k)
  {
    if a == [] {
      assert a + b == b;
    } else {
      assert (a + b)[1..] == a[1..] + b;
      TextConcat(a[1..], b, k);
    }
  }

  lemma {:induction false} TextOne(x: Queued, k: Stream)
    ensures QueuedText([x], k) == TextFor(x.event, k)
  {
    assert QueuedText([x][1..], k) == "";
  }

  lemma {:induction false} MergeText(a: ClientEvent, b: ClientEvent, k: Stream)
    requires CanMerge(a, b)
    ensures Lossy(Merge(a, b)) && Merge(a, b).context == b.context
    ensures TextFor(Merge(a, b), k) == TextFor(a, k) + TextFor(b, k)
  {
  }

  /** The queued text of every stream grew by what `e` carries for it, and no control event moved. */
  ghost predicate ExtendsText(q: Queue, t: Queue, e: ClientEvent) {
    && Controls(t.events) == Controls(q.events)
    && forall k :: QueuedText(t.events, k) == QueuedText(q.events, k) + TextFor(e, k)
  }

  lemma {:induction false} MergedText(init: seq<Queued>, last: Queued, x: Queued, e: ClientEvent, k: Stream)
    requires CanMerge(last.event, e) && x.event == Merge(last.event, e)
    ensures QueuedText(init + [x], k) == QueuedText(init + [last], k) + TextFor(e, k)
  {
    TextConcat(init, [last], k);
    TextConcat(init, [x], k);
    TextOne(last, k);
    TextOne(x, k);
    MergeText(last.event, e, k);
    var a, b, c := QueuedText(init, k), TextFor(last.event, k), TextFor(e, k);
    assert a + (b + c) == a + b + c;
  }

  lemma {:induction false} MergeBackText(size: Sizer, q: Queue, e: ClientEvent)
    requires Mergeable(size, q, e)
    ensures ExtendsText(q, MergeBack(size, q, e), e)
  {
    var init, last := q.events[..|q.events| - 1], Last(q);
    var merged := Merge(last.event, e);
    var x := Queued(merged, size(merged));
    var m := MergeBack(size, q, e);
    assert q.events == init + [last] && m.events == init + [x];
    var keep := (y: Queued) => !Lossy(y.event);
    FilterConcat(init, [last], keep);
    FilterConcat(init, [x], keep);
    FilterOne(last, keep);
    FilterOne(x, keep);
    forall k ensures QueuedText(m.events, k) == QueuedText(q.events, k) + TextFor(e, k) {
      MergedText(init, last, x, e, k);
    }
  }

  lemma {:induction false} WithoutLast(size: Sizer, q: Queue)
    requires Good(size, q) && q.events != []
    ensures var init := q.events[..|q.events| - 1];
      && Good(size, q.(events := init, bytes := Sum(init)))
      && Sum(init) + size(Last(q).event) == q.bytes
  {
    var init, last := q.events[..|q.events| - 1], Last(q);
    assert q.events == init + [last] && last in q.events;
    SumConcat(init, [last]);
    SumOne(last);
    WithinGood(size, q, init);
  }

  /** The merged entry stays within the byte limit, so the overflow check after a merge never
      fires. */
  lemma {:induction false} MergeBackGood(size: Sizer, q: Queue, e: ClientEvent)
    requires Good(size, q) && Subadditive(size) && Mergeable(size, q, e)
    ensures Good(size, MergeBack(size, q, e)) && MergeBack(size, q, e).bytes <= BYTE_LIMIT
  {
    var init, last := q.events[..|q.events| - 1], Last(q);
    var merged := Merge(last.event, e);
    var rest := q.(events := init, bytes := Sum(init));
    WithoutLast(size, q);
    assert size(merged) <= size(last.event) + size(e);
    AppendGood(size, rest, merged);
    assert Append(rest, merged, size(merged)) == MergeBack(size, q, e);
  }

  function Escaped(escape: char -> nat, text: string): nat {
    if text == "" then 0 else escape(text[0]) + Escaped(escape, text[1..])
  }

  lemma {:induction false} EscapedConcat(escape: char -> nat, a: string, b: string)
    ensures Escaped(escape, a + b) == Escaped(escape, a) + Escaped(escape, b)
  {
    if a == "" {
      assert a + b == b;
    } else {
      assert (a + b)[1..] == a[1..] + b;
      EscapedConcat(escape, a[1..], b);
    }
  }

  /** A JSON encoding of deltas: a frame fixed by the stream, the digits of the seq, and the text
      escaped character by character. */
  ghost predicate JsonLike(size: Sizer, frame: Stream -> nat, digits: nat -> nat, escape: char -> nat) {
    forall e :: Lossy(e) ==>
      size(e) == frame(Stream(e.context, e.event.agent, e.event.item, e.event.ReasoningDelta?)) + digits(e.num)
                 + Escaped(escape, e.event.text)
  }

  /** Such an encoding meets the size hypothesis of the accounting. */
  lemma {:induction false} JsonLikeIsSubadditive(size: Sizer, frame: Stream -> nat, digits: nat -> nat,
    escape: char -> nat)
    requires JsonLike(size, frame, digits, escape)
    ensures Subadditive(size)
  {
    forall a, b | CanMerge(a, b) ensures size(Merge(a, b)) <= size(a) + size(b) {
      EscapedConcat(escape, a.event.text, b.event.text);
    }
  }

  // --- Pushing ---

  lemma {:induction false} PushDeltaGood(size: Sizer, q: Queue, e: ClientEvent)
    requires Good(size, q) && Subadditive(size) && Lossy(e)
    ensures var (t, r) := PushDelta(size, q, e);
      && Good(size, t)
      && (r == Accepted ==> t.resync == q.resync && ExtendsText(q, t, e))
      && (r == Dropped ==> Marked(q, t, e.context, e.num))
      && (r == Overflow ==> OnlyDeltasLost(q, t))
      && (Listed(q, e.context) ==> r == Dropped && t.events == q.events)
  {
    if Listed(q, e.context) {
      MarkGood(size, q, e.context, e.num);
    } else if Mergeable(size, q, e) {
      MergeBackGood(size, q, e);
      MergeBackText(size, q, e);
    } else if Admits(q, size(e)) {
      AppendGood(size, q, e);
      var x := Queued(e, size(e));
      FilterConcat(q.events, [x], (y: Queued) => !Lossy(y.event));
      FilterOne(x, (y: Queued) => !Lossy(y.event));
      forall k ensures QueuedText(q.events + [x], k) == QueuedText(q.events, k) + TextFor(e, k) {
        TextConcat(q.events, [x], k);
        TextOne(x, k);
      }
    } else {
      MarkGood(size, q, e.context, e.num);
    }
  }

  lemma {:induction false} UniqueKeyRemoved(q: Queue, key: GlobalKey)
    requires Unique(q.events) && FirstKey(q.events, key) < |q.events|
    ensures var rest := RemoveAt(q, FirstKey(q.events, key));
      && (forall x | x in rest.events :: KeyOf(x.event) != Some(key))
      && Controls(rest.events) == Filter(Controls(q.events), (x: Queued) => KeyOf(x.event) != Some(key))
  {
    var i := FirstKey(q.events, key);
    var a, x, b := q.events[..i], q.events[i], q.events[i + 1..];
    forall y: Queued | y in a ensures KeyOf(y.event) != Some(key) {
      var j :| 0 <= j < |a| && a[j] == y;
      assert q.events[j] == y;
    }
    forall y: Queued | y in b ensures KeyOf(y.event) != Some(key) {
      var j :| 0 <= j < |b| && b[j] == y;
      assert q.events[i + 1 + j] == y && !Clash(x.event, q.events[i + 1 + j].event);
    }
    assert q.events == a + [x] + b;
    FilterSplit(a, x, b, (y: Queued) => KeyOf(y.event) != Some(key));
    FilterCommutes(q.events, (y: Queued) => !Lossy(y.event), (y: Queued) => KeyOf(y.event) != Some(key));
  }

  /** Filtering out the one event that fails the test. */
  lemma {:induction false} FilterSplit(a: seq<Queued>, x: Queued, b: seq<Queued>, keep: Queued -> bool)
    requires !keep(x) && (forall y | y in a :: keep(y)) && forall y | y in b :: keep(y)
    ensures Filter(a + [x] + b, keep) == a + b
  {
    FilterAll(a, keep);
    FilterAll(b, keep);
    assert Filter(a + [x], keep) == a by {
      FilterConcat(a, [x], keep);
      FilterOne(x, keep);
    }
    FilterConcat(a + [x], b, keep);
  }

  lemma {:induction false} FilterAll(events: seq<Queued>, keep: Queued -> bool)
    requires forall x | x in events :: keep(x)
    ensures Filter(events, keep) == events
  {
    if events != [] { FilterAll(events[1..], keep); }
  }

  /** The control events after a control event was pushed: a queued state of the same global key is
      replaced, nothing else leaves. */
  ghost function ControlsAfter(size: Sizer, q: Queue, e: ClientEvent): seq<Queued> {
    (if KeyOf(e).Some?
     then Filter(Controls(q.events), (x: Queued) => KeyOf(x.event) != KeyOf(e)) else Controls(q.events))
    + [Queued(e, size(e))]
  }

  lemma {:induction false} PushControlGood(size: Sizer, q: Queue, e: ClientEvent)
    requires Good(size, q) && !Lossy(e) && !e.ResyncNeeded?
    ensures var (t, r) := PushControl(size, q, e);
      && Good(size, t) && t.resync == q.resync && (r == Accepted || r == Overflow)
      && (r == Accepted ==> Controls(t.events) == ControlsAfter(size, q, e))
      && (r == Overflow ==> OnlyDeltasLost(q, t))
      && (forall x | x in t.events :: x in q.events || x.event == e)
  {
    var x := Queued(e, size(e));
    var keep := (y: Queued) => !Lossy(y.event);
    FilterOne(x, keep);
    var i := if KeyOf(e).Some? then FirstKey(q.events, KeyOf(e).value) else |q.events|;
    if i < |q.events| {
      UniqueKeyRemoved(q, KeyOf(e).value);
      var rest := RemoveAt(q, i);
      RemoveGood(size, q, i);
      RemoveWithin(q.events, i);
      if AddBytes(SatSub(q.bytes, q.events[i].bytes), size(e)) <= BYTE_LIMIT {
        AppendGood(size, rest, e);
        FilterConcat(rest.events, [x], keep);
      }
    } else {
      assert forall y | y in q.events :: !Clash(y.event, e);
      NoKeyNoChange(q.events, e);
      if Admits(q, size(e)) {
        AppendGood(size, q, e);
        FilterConcat(q.events, [x], keep);
      } else {
        MakeRoomGood(size, q, size(e));
        var (room, ok) := MakeRoom(q, size(e));
        if ok {
          AppendGood(size, room, e);
          FilterConcat(room.events, [x], keep);
        }
      }
    }
  }

  lemma {:induction false} NoKeyNoChange(events: seq<Queued>, e: ClientEvent)
    requires KeyOf(e).Some? ==> forall y | y in events :: KeyOf(y.event) != KeyOf(e)
    ensures KeyOf(e).Some? ==> Filter(Controls(events), (x: Queued) => KeyOf(x.event) != KeyOf(e)) == Controls(events)
  {
    if KeyOf(e).Some? {
      FilterShape(events, (y: Queued) => !Lossy(y.event));
      FilterAll(Controls(events), (x: Queued) => KeyOf(x.event) != KeyOf(e));
    }
  }

  lemma {:induction false} DropMarkersGood(size: Sizer, q: Queue)
    requires Good(size, q)
    ensures Good(size, DropMarkers(q))
    ensures Controls(DropMarkers(q).events) == Filter(Controls(q.events), (x: Queued) => !x.event.ResyncNeeded?)
  {
    var keep := (x: Queued) => !x.event.ResyncNeeded?;
    FilterWithin(q.events, keep);
    FilterShape(q.events, keep);
    WithinGood(size, q, Filter(q.events, keep));
    FilterCommutes(q.events, (x: Queued) => !Lossy(x.event), keep);
  }

  lemma {:induction false} FilterCommutes(events: seq<Queued>, f: Queued -> bool, g: Queued -> bool)
    ensures Filter(Filter(events, g), f) == Filter(Filter(events, f), g)
  {
    if events != [] {
      var x, rest := events[0], events[1..];
      FilterCommutes(rest, f, g);
      FilterConcat(if g(x) then [x] else [], Filter(rest, g), f);
      FilterConcat(if f(x) then [x] else [], Filter(rest, f), g);
      FilterOne(x, f);
      FilterOne(x, g);
      assert Filter([], f) == [] && Filter([], g) == [];
    }
  }

  /** What one push does: a control event leaves only by same-key replacement or, on reconnect, as a
      marker; an accepted delta extends the queued text of its own stream by exactly its text; a
      refused delta leaves its context marked; an overflow loses nothing but deltas. */
  lemma {:induction false} PushEffect(size: Sizer, q: Queue, e: ClientEvent, resyncSeq: Option<nat>)
    requires Good(size, q) && Subadditive(size)
    ensures var (t, r) := Push(size, q, e, resyncSeq);
      var base := if e.Connected? then DropMarkers(q) else q;
      && Good(size, t)
      && (q.closed <==> r == Closed) && (r == Closed ==> t == q)
      && (e.Connected? && !q.closed ==> t.resync == [])
      && (!Lossy(e) && !e.ResyncNeeded? && r == Accepted ==> Controls(t.events) == ControlsAfter(size, base, e))
      && (Lossy(e) && r == Accepted ==> t.resync == q.resync && ExtendsText(q, t, e))
      && (Lossy(e) && r == Dropped ==> Marked(q, t, e.context, e.num))
      && (e.ResyncNeeded? && r == Accepted ==>
            Marked(q, t, e.context, if resyncSeq.Some? then resyncSeq.value else 0))
      && (r == Overflow ==> OnlyDeltasLost(base, t))
      && (r == Dropped ==> Lossy(e))
  {
    if !q.closed {
      if e.Connected? { DropMarkersGood(size, q); }
      var base := if e.Connected? then DropMarkers(q) else q;
      if e.ResyncNeeded? {
        MarkGood(size, q, e.context, if resyncSeq.Some? then resyncSeq.value else 0);
      } else if Lossy(e) {
        PushDeltaGood(size, q, e);
      } else {
        PushControlGood(size, base, e);
      }
    }
  }

  // --- Snapshots and termination ---

  lemma {:induction false} DistinctCons(p: (Context, nat), rest: seq<(Context, nat)>)
    requires DistinctContexts(rest) && forall r | r in rest :: r.0 != p.0
    ensures DistinctContexts([p] + rest)
  {
    var all := [p] + rest;
    forall i, j | 0 <= i < j < |all| ensures all[i].0 != all[j].0 {
      assert all[j] == rest[j - 1] && rest[j - 1] in rest;
      if i > 0 { assert all[i] == rest[i - 1]; }
    }
  }

  lemma {:induction false} KeepListingMembers(resync: seq<(Context, nat)>, session: string, num: nat)
    ensures |KeepListing(resync, session, num)| <= |resync|
    ensures forall p :: p in KeepListing(resync, session, num) <==>
      p in resync && (p.0.session != Some(session) || p.1 > num)
  {
    if resync != [] { KeepListingMembers(resync[1..], session, num); }
  }

  lemma {:induction false} KeepListingShape(resync: seq<(Context, nat)>, session: string, num: nat)
    requires DistinctContexts(resync)
    ensures var kept := KeepListing(resync, session, num);
      && |kept| <= |resync| && DistinctContexts(kept)
      && (forall p :: p in kept <==> p in resync && (p.0.session != Some(session) || p.1 > num))
  {
    KeepListingMembers(resync, session, num);
    if resync != [] {
      var tail := resync[1..];
      assert forall i | 0 <= i < |tail| :: tail[i] == resync[i + 1];
      KeepListingShape(tail, session, num);
      var rest := KeepListing(tail, session, num);
      forall p | p in rest ensures p.0 != resync[0].0 {
        var i :| 0 <= i < |tail| && tail[i] == p;
        assert resync[i + 1] == p;
      }
      DistinctCons(resync[0], rest);
      assert KeepListing(resync, session, num) == [resync[0]] + rest || KeepListing(resync, session, num) == rest;
    }
  }

  /** A listing survives a snapshot of another session, or one older than its floor. */
  lemma {:induction false} KeepListingFloor(q: Queue, t: Queue, session: string, num: nat, c: Context)
    requires DistinctContexts(q.resync) && t.resync == KeepListing(q.resync, session, num)
    ensures Listed(t, c) <==> Listed(q, c) && (c.session != Some(session) || FloorOf(q, c) > num)
    ensures Listed(t, c) ==> FloorOf(t, c) == FloorOf(q, c)
  {
    KeepListingShape(q.resync, session, num);
    if Listed(t, c) {
      var p := t.resync[Listing(t.resync, c)];
      assert p in q.resync;
      var i :| 0 <= i < |q.resync| && q.resync[i] == p;
      ListingAt(q.resync, i);
    }
    if Listed(q, c) && (c.session != Some(session) || FloorOf(q, c) > num) {
      var p := q.resync[Listing(q.resync, c)];
      assert p in t.resync;
      var i :| 0 <= i < |t.resync| && t.resync[i] == p;
      ListingAt(t.resync, i);
    }
  }

  lemma {:induction false} SnapshotGood(size: Sizer, q: Queue, session: string, num: nat)
    requires Good(size, q)
    ensures var t := SnapshotApplied(q, session, num);
      && Good(size, t)
      && (forall x :: x in t.events <==> x in q.events && !Outdated(q, session, num, x))
      && (forall c :: Listed(t, c) <==> Listed(q, c) && (c.session != Some(session) || FloorOf(q, c) > num))
      && (forall c | Listed(t, c) :: FloorOf(t, c) == FloorOf(q, c))
  {
    var keep := (x: Queued) => !Outdated(q, session, num, x);
    FilterWithin(q.events, keep);
    FilterShape(q.events, keep);
    WithinGood(size, q, Filter(q.events, keep));
    KeepListingShape(q.resync, session, num);
    var t := SnapshotApplied(q, session, num);
    forall c
      ensures Listed(t, c) <==> Listed(q, c) && (c.session != Some(session) || FloorOf(q, c) > num)
      ensures Listed(t, c) ==> FloorOf(t, c) == FloorOf(q, c)
    {
      KeepListingFloor(q, t, session, num, c);
    }
  }

  lemma {:induction false} ForceRoomGood(size: Sizer, q: Queue, bytes: nat)
    requires Good(size, q) && bytes <= BYTE_LIMIT
    ensures var t := ForceRoom(q, bytes);
      && Good(size, t) && !Crowded(t, bytes) && (forall x | x in t.events :: x in q.events)
      && t.resync == q.resync
    decreases |q.events|
  {
    if Crowded(q, bytes) && q.events != [] {
      var i := if FirstLossy(q.events) == |q.events| then 0 else FirstLossy(q.events);
      RemoveGood(size, q, i);
      ForceRoomGood(size, RemoveAt(q, i), bytes);
    }
  }

  /** One turn of the eviction loop of force_terminal; on an empty queue it removes nothing. */
  function EvictOne(q: Queue): Queue {
    if q.events == [] then q
    else RemoveAt(q, if FirstLossy(q.events) == |q.events| then 0 else FirstLossy(q.events))
  }

  function EvictTimes(q: Queue, n: nat): Queue
    decreases n
  {
    if n == 0 then q else EvictTimes(EvictOne(q), n - 1)
  }

  /** The queue is still crowded before each of the next `n` turns. */
  predicate CrowdedFor(q: Queue, n: nat, bytes: nat)
    decreases n
  {
    n == 0 || (Crowded(q, bytes) && CrowdedFor(EvictOne(q), n - 1, bytes))
  }

  /** The loop leaves with `ForceRoom` after as many turns as it stays crowded. */
  lemma {:induction false} EvictionEnds(size: Sizer, q: Queue, bytes: nat) returns (n: nat)
    requires Good(size, q) && bytes <= BYTE_LIMIT
    ensures EvictTimes(q, n) == ForceRoom(q, bytes) && !Crowded(EvictTimes(q, n), bytes) && CrowdedFor(q, n, bytes)
    decreases |q.events|
  {
    if Crowded(q, bytes) {
      EvictOneGood(size, q, bytes);
      var next := EvictOne(q);
      var rest := EvictionEnds(size, next, bytes);
      n := rest + 1;
    } else {
      n := 0;
    }
  }

  lemma {:induction false} EvictOneGood(size: Sizer, q: Queue, bytes: nat)
    requires Good(size, q) && bytes <= BYTE_LIMIT && Crowded(q, bytes)
    ensures |EvictOne(q).events| + 1 == |q.events| && Good(size, EvictOne(q))
    ensures ForceRoom(q, bytes) == ForceRoom(EvictOne(q), bytes)
  {
    assert q.events != [];
    EvictOneKeeps(size, q);
  }

  lemma {:induction false} EvictOneKeeps(size: Sizer, q: Queue)
    requires Good(size, q)
    ensures Good(size, EvictOne(q)) && |EvictOne(q).events| == SatSub(|q.events|, 1)
  {
    if q.events != [] {
      RemoveGood(size, q, if FirstLossy(q.events) == |q.events| then 0 else FirstLossy(q.events));
    }
  }

  /** The eviction loop of force_terminal ends exactly for events within the byte limit: a larger one
      fits no queue at all, so the loop empties the queue and goes on forever. */
  lemma {:induction false} OversizedNeverFits(size: Sizer, q: Queue, e: ClientEvent)
    requires Good(size, q)
    ensures size(e) > BYTE_LIMIT ==> forall t: Queue :: Crowded(t, size(e))
    ensures (exists n: nat :: !Crowded(EvictTimes(q, n), size(e))) <==> size(e) <= BYTE_LIMIT
    ensures EvictTimes(q, |q.events|).events == []
  {
    EvictedAll(q, |q.events|);
    if size(e) <= BYTE_LIMIT { var n := EvictionEnds(size, q, size(e)); }
  }

  /** At most `turns` turns of the loop. */
  function EvictLoop(q: Queue, bytes: nat, turns: nat): Queue
    decreases turns
  {
    if turns == 0 || !Crowded(q, bytes) then q else EvictLoop(EvictOne(q), bytes, turns - 1)
  }

  /** With as many turns as there are events the loop ends exactly for events within the byte limit. */
  lemma {:induction false} EvictLoopEnds(size: Sizer, q: Queue, bytes: nat, turns: nat)
    requires Good(size, q)
    ensures var t := EvictLoop(q, bytes, turns);
      && Good(size, t)
      && (Crowded(t, bytes) ==> t == EvictTimes(q, turns))
      && (!Crowded(t, bytes) ==> bytes <= BYTE_LIMIT && t == ForceRoom(q, bytes))
      && (turns >= |q.events| ==> (!Crowded(t, bytes) <==> bytes <= BYTE_LIMIT))
    decreases turns
  {
    if turns > 0 && Crowded(q, bytes) {
      EvictOneKeeps(size, q);
      if bytes <= BYTE_LIMIT { EvictOneGood(size, q, bytes); }
      EvictLoopEnds(size, EvictOne(q), bytes, turns - 1);
    }
  }

  lemma {:induction false} EvictedAll(q: Queue, n: nat)
    requires n == |q.events|
    ensures EvictTimes(q, n).events == []
    decreases n
  {
    if n > 0 { EvictedAll(EvictOne(q), n - 1); }
  }

  lemma {:induction false} TerminalGood(size: Sizer, q: Queue, e: ClientEvent)
    requires Good(size, q) && size(e) <= BYTE_LIMIT && e.Disconnected?
    ensures var t := ForceTerminal(size, q, e);
      && Good(size, t) && t.terminal
      && (!q.terminal ==> t.closed && t.events != [] && Last(t).event == e)
  {
    if !q.terminal {
      ForceRoomGood(size, q, size(e));
      AppendGood(size, ForceRoom(q, size(e)), e);
      var appended := Append(ForceRoom(q, size(e)), e, size(e));
      SameListing(appended, ForceTerminal(size, q, e), q, q);
      assert MarkersListed(ForceTerminal(size, q, e));
    }
  }

  // --- Runs ---

  datatype Op =
    | DoPush(event: ClientEvent, resyncSeq: Option<nat>)
    | DoSnapshot(session: string, num: nat)
    | DoTerminal(event: ClientEvent)
    | DoPop
    | DoClose

  ghost predicate Legal(size: Sizer, op: Op) {
    op.DoTerminal? ==> op.event.Disconnected? && size(op.event) <= BYTE_LIMIT
  }

  ghost function Step(size: Sizer, q: Queue, op: Op): Queue
    requires Good(size, q) && Legal(size, op)
  {
    match op
    case DoPush(e, r) => Push(size, q, e, r).0
    case DoSnapshot(session, num) => SnapshotApplied(q, session, num)
    case DoTerminal(e) => ForceTerminal(size, q, e)
    case DoPop => Pop(q)
    case DoClose => q.(closed := true)
  }

  lemma {:induction false} StepGood(size: Sizer, q: Queue, op: Op)
    requires Good(size, q) && Subadditive(size) && Legal(size, op)
    ensures Good(size, Step(size, q, op))
  {
    match op
    case DoPush(e, r) => PushEffect(size, q, e, r);
    case DoSnapshot(session, num) => SnapshotGood(size, q, session, num);
    case DoTerminal(e) => TerminalGood(size, q, e);
    case DoPop => PopGood(size, q);
    case DoClose => SameListing(q, q.(closed := true), q, q);
  }

  ghost predicate AllLegal(size: Sizer, ops: seq<Op>) {
    forall i | 0 <= i < |ops| :: Legal(size, ops[i])
  }

  /** The states of a run, the first one included. */
  ghost function Exec(size: Sizer, q: Queue, ops: seq<Op>): Queue
    requires Good(size, q) && Subadditive(size) && AllLegal(size, ops)
    decreases |ops|
  {
    if ops == [] then q
    else
      StepGood(size, q, ops[0]);
      Exec(size, Step(size, q, ops[0]), ops[1..])
  }

  /** Queue accounting is kept by every run. */
  lemma {:induction false} RunGood(size: Sizer, q: Queue, ops: seq<Op>)
    requires Good(size, q) && Subadditive(size) && AllLegal(size, ops)
    ensures Good(size, Exec(size, q, ops))
    decreases |ops|
  {
    if ops != [] {
      StepGood(size, q, ops[0]);
      RunGood(size, Step(size, q, ops[0]), ops[1..]);
    }
  }

  /** Queue accounting in every reachable state: the byte count is exact and within its bound, the
      queue within its capacity, every queued marker listed, once, among at most eight. */
  lemma {:induction false} ReachableGood(size: Sizer, ops: seq<Op>)
    requires Subadditive(size) && AllLegal(size, ops)
    ensures Good(size, EMPTY)
    ensures var q := Exec(size, EMPTY, ops);
      && q.bytes == Sum(q.events) <= BYTE_LIMIT && |q.events| <= CAPACITY
      && |q.resync| <= MAX_RESYNC && DistinctContexts(q.resync)
      && (forall x | x in q.events ::
            x.bytes == size(x.event) && (x.event.ResyncNeeded? ==> Listed(q, x.event.context)))
      && (forall i, j | 0 <= i < j < |q.events| && q.events[i].event.ResyncNeeded? && q.events[j].event.ResyncNeeded? ::
            q.events[i].event.context != q.events[j].event.context)
  {
    assert Good(size, EMPTY);
    RunGood(size, EMPTY, ops);
    var q := Exec(size, EMPTY, ops);
    forall i, j | 0 <= i < j < |q.events| && q.events[i].event.ResyncNeeded? && q.events[j].event.ResyncNeeded?
      ensures q.events[i].event.context != q.events[j].event.context
    {
      assert !Clash(q.events[i].event, q.events[j].event);
    }
  }

  // --- No delta after a refused delta ---

  /** What lifts the block on context `c`: a reconnect, or a snapshot of its session that reaches
      the floor. */
  ghost predicate Lifts(q: Queue, op: Op, c: Context)
    requires Listed(q, c)
  {
    || (op.DoPush? && op.event.Connected? && !q.closed)
    || (op.DoSnapshot? && c.session == Some(op.session) && FloorOf(q, c) <= op.num)
  }

  /** No delta of context `c` is in `t` that was not in `q`. */
  ghost predicate NoNewDelta(q: Queue, t: Queue, c: Context) {
    forall x | x in t.events && Lossy(x.event) && x.event.context == c :: x in q.events
  }

  lemma {:induction false} BlockHolds(size: Sizer, q: Queue, op: Op, c: Context)
    requires Good(size, q) && Subadditive(size) && Legal(size, op) && Listed(q, c)
    ensures var t := Step(size, q, op);
      && (Lifts(q, op, c) <==> !Listed(t, c))
      && (Listed(t, c) ==> FloorOf(t, c) >= FloorOf(q, c))
      && NoNewDelta(q, t, c)
      && (op.DoPush? && Lossy(op.event) && op.event.context == c && !q.closed ==>
            Push(size, q, op.event, op.resyncSeq).1 == Dropped && t.events == q.events && FloorOf(t, c) >= op.event.num)
  {
    var t := Step(size, q, op);
    match op
    case DoPush(e, r) => BlockHoldsPush(size, q, e, r, c);
    case DoSnapshot(session, num) => SnapshotGood(size, q, session, num);
    case DoTerminal(e) =>
      TerminalGood(size, q, e);
      if !q.terminal { ForceRoomGood(size, q, size(e)); }
      SameListing(t, q, q, q);
    case DoPop => SameListing(t, q, q, q);
    case DoClose => SameListing(t, q, q, q);
  }

  lemma {:induction false} BlockHoldsPush(size: Sizer, q: Queue, e: ClientEvent, r: Option<nat>, c: Context)
    requires Good(size, q) && Subadditive(size) && Listed(q, c)
    ensures var (t, result) := Push(size, q, e, r);
      && (e.Connected? && !q.closed <==> !Listed(t, c))
      && (Listed(t, c) ==> FloorOf(t, c) >= FloorOf(q, c))
      && NoNewDelta(q, t, c)
      && (Lossy(e) && e.context == c && !q.closed ==>
        result == Dropped && t.events == q.events && FloorOf(t, c) >= e.num)
  {
    if !q.closed {
      if e.ResyncNeeded? {
        MarkGood(size, q, e.context, if r.Some? then r.value else 0);
        var t := Push(size, q, e, r).0;
        if !(Marked(q, t, e.context, if r.Some? then r.value else 0)) { SameListing(t, q, q, q); }
      } else if Lossy(e) {
        BlockHoldsDelta(size, q, e, c);
      } else {
        var base := if e.Connected? then DropMarkers(q) else q;
        if e.Connected? {
          DropMarkersGood(size, q);
          FilterShape(q.events, (x: Queued) => !x.event.ResyncNeeded?);
        }
        PushControlGood(size, base, e);
        SameListing(PushControl(size, base, e).0, base, q, q);
      }
    }
  }

  lemma {:induction false} MergeAddsNone(size: Sizer, q: Queue, e: ClientEvent, c: Context)
    requires Mergeable(size, q, e) && e.context != c
    ensures NoNewDelta(q, MergeBack(size, q, e), c)
  {
    var t := MergeBack(size, q, e);
    assert Last(t).event.context == e.context;
    forall x | x in t.events && Lossy(x.event) && x.event.context == c ensures x in q.events {
      assert x in q.events[..|q.events| - 1];
    }
  }

  lemma {:induction false} BlockHoldsDelta(size: Sizer, q: Queue, e: ClientEvent, c: Context)
    requires Good(size, q) && Subadditive(size) && Listed(q, c) && Lossy(e)
    ensures var (t, result) := PushDelta(size, q, e);
      && Listed(t, c) && FloorOf(t, c) >= FloorOf(q, c) && NoNewDelta(q, t, c)
      && (e.context == c ==> result == Dropped && t.events == q.events && FloorOf(t, c) >= e.num)
  {
    PushDeltaGood(size, q, e);
    var (t, result) := PushDelta(size, q, e);
    if !Listed(q, e.context) && !Mergeable(size, q, e) && !Admits(q, size(e)) { MarkGood(size, q, e.context, e.num); }
    if result != Dropped { SameListing(t, q, q, q); }
    if !Listed(q, e.context) && Mergeable(size, q, e) { MergeAddsNone(size, q, e, c); }
  }

  ghost predicate NeverLifted(size: Sizer, q: Queue, ops: seq<Op>, c: Context)
    requires Good(size, q) && Subadditive(size) && AllLegal(size, ops) && Listed(q, c)
    decreases |ops|
  {
    ops == [] ||
    (BlockHolds(size, q, ops[0], c);
     StepGood(size, q, ops[0]);
     !Lifts(q, ops[0], c) && NeverLifted(size, Step(size, q, ops[0]), ops[1..], c))
  }

  lemma {:induction false} BlockHoldsRun(size: Sizer, q: Queue, ops: seq<Op>, c: Context)
    requires Good(size, q) && Subadditive(size) && AllLegal(size, ops) && Listed(q, c)
    requires NeverLifted(size, q, ops, c)
    ensures var t := Exec(size, q, ops);
      Listed(t, c) && FloorOf(t, c) >= FloorOf(q, c) && NoNewDelta(q, t, c)
    decreases |ops|
  {
    if ops != [] {
      StepGood(size, q, ops[0]);
      BlockHolds(size, q, ops[0], c);
      BlockHoldsRun(size, Step(size, q, ops[0]), ops[1..], c);
    }
  }

  /** Once a delta was refused, its context stays listed with a floor at or above it, and no delta
      of the context enters the queue, until a reconnect or a snapshot reaching the floor. */
  lemma {:induction false} NoDeltaAfterRefusal(size: Sizer, q: Queue, e: ClientEvent, r: Option<nat>, ops: seq<Op>)
    requires Good(size, q) && Subadditive(size) && AllLegal(size, ops) && Lossy(e)
    requires Push(size, q, e, r).1 == Dropped
    ensures Good(size, Push(size, q, e, r).0) && Listed(Push(size, q, e, r).0, e.context)
    ensures NeverLifted(size, Push(size, q, e, r).0, ops, e.context) ==>
      var t, end := Push(size, q, e, r).0, Exec(size, Push(size, q, e, r).0, ops);
      Listed(end, e.context) && FloorOf(end, e.context) >= e.num && NoNewDelta(t, end, e.context)
  {
    PushEffect(size, q, e, r);
    var t := Push(size, q, e, r).0;
    if NeverLifted(size, t, ops, e.context) { BlockHoldsRun(size, t, ops, e.context); }
  }

  // --- After the terminal event ---

  /** Closed for good: whatever is queued ends with the terminal event. */
  ghost predicate Ended(q: Queue, e: ClientEvent) {
    q.closed && q.terminal && (q.events != [] ==> Last(q).event == e)
  }

  lemma {:induction false} FilterLast(events: seq<Queued>, keep: Queued -> bool)
    requires events != [] && keep(events[|events| - 1])
    ensures Filter(events, keep) != [] && Filter(events, keep)[|Filter(events, keep)| - 1] == events[|events| - 1]
  {
    var init, last := events[..|events| - 1], events[|events| - 1];
    assert events == init + [last];
    FilterConcat(init, [last], keep);
    FilterOne(last, keep);
  }

  lemma {:induction false} EndedStep(size: Sizer, q: Queue, op: Op, e: ClientEvent)
    requires Good(size, q) && Legal(size, op) && Ended(q, e) && e.Disconnected?
    ensures Ended(Step(size, q, op), e) && |Step(size, q, op).events| <= |q.events|
  {
    if op.DoSnapshot? { EndedSnapshot(q, op.session, op.num, e); }
  }

  lemma {:induction false} EndedSnapshot(q: Queue, session: string, num: nat, e: ClientEvent)
    requires Ended(q, e) && e.Disconnected?
    ensures Ended(SnapshotApplied(q, session, num), e) && |SnapshotApplied(q, session, num).events| <= |q.events|
  {
    var keep := (x: Queued) => !Outdated(q, session, num, x);
    FilterShape(q.events, keep);
    if q.events != [] { FilterLast(q.events, keep); }
  }

  lemma {:induction false} EndedStays(size: Sizer, q: Queue, ops: seq<Op>, e: ClientEvent)
    requires Good(size, q) && Subadditive(size) && AllLegal(size, ops) && Ended(q, e) && e.Disconnected?
    ensures Ended(Exec(size, q, ops), e) && |Exec(size, q, ops).events| <= |q.events|
    decreases |ops|
  {
    if ops != [] {
      StepGood(size, q, ops[0]);
      EndedStep(size, q, ops[0], e);
      EndedStays(size, Step(size, q, ops[0]), ops[1..], e);
    }
  }

  /** After force_terminal the terminal event is the last one the receiver can see, and nothing is
      accepted any more. */
  lemma {:induction false} TerminalIsLast(size: Sizer, q: Queue, e: ClientEvent, ops: seq<Op>, late: ClientEvent,
    r: Option<nat>)
    requires Good(size, q) && Subadditive(size) && !q.terminal && AllLegal(size, ops)
    requires e.Disconnected? && size(e) <= BYTE_LIMIT
    ensures Good(size, ForceTerminal(size, q, e))
    ensures var t := Exec(size, ForceTerminal(size, q, e), ops);
      Ended(t, e) && Push(size, t, late, r) == (t, Closed)
  {
    TerminalGood(size, q, e);
    EndedStays(size, ForceTerminal(size, q, e), ops, e);
  }
}
