/** The bounded client event queue of crates/pacode-client/src/lib.rs, as functions on its value.
    The serialized size of an event is a parameter. */
module EventQueueModel {
  import opened Common

  const CAPACITY: nat := 1024
  const ADMIT_COUNT: nat := CAPACITY - 2
  const BYTE_LIMIT: nat := 16 * 1024 * 1024
  const ADMIT_BYTES: nat := BYTE_LIMIT - 64 * 1024
  const MAX_RESYNC: nat := 8
  const USIZE_MAX: nat := 0xFFFF_FFFF_FFFF_FFFF

  datatype Event =
    | TextDelta(agent: string, item: nat, text: string)
    | ReasoningDelta(agent: string, item: nat, text: string)
    | SessionStatus(session: string, detail: string)
    | AuthUpdated(id: string, detail: string)
    | LoginProgress(provider: string, detail: string)
    | OtherEvent(detail: string)
  {
    predicate IsDelta() { TextDelta? || ReasoningDelta? }
    predicate IsGlobal() { SessionStatus? || AuthUpdated? || LoginProgress? }
  }

  datatype ClientEvent =
    | Connected(context: Context, detail: string)
    | Disconnected(context: Context, reason: string)
    | Reconnecting(context: Context, attempt: nat)
    | AttachFailed(context: Context, reason: string)
    | Snapshot(context: Context, detail: string)
    | ResyncNeeded(context: Context)
    | Wire(context: Context, num: nat, event: Event)

  datatype GlobalKey = StatusOf(session: string) | AuthOf(id: string) | LoginOf(provider: string)

  datatype Queued = Queued(event: ClientEvent, bytes: nat)

  datatype Queue = Queue(
    events: seq<Queued>,
    bytes: nat,
    resync: seq<(Context, nat)>,
    closed: bool,
    terminal: bool)

  datatype PushResult = Accepted | Dropped | Overflow | Closed

  type Sizer = ClientEvent -> nat

  const EMPTY := Queue([], 0, [], false, false)

  predicate Lossy(e: ClientEvent) {
    e.Wire? && e.event.IsDelta()
  }

  function KeyOf(e: ClientEvent): Option<GlobalKey> {
    if !e.Wire? then None
    else match e.event
      case SessionStatus(s, _) => Some(StatusOf(s))
      case AuthUpdated(id, _) => Some(AuthOf(id))
      case LoginProgress(p, _) => Some(LoginOf(p))
      case _ => None
  }

  predicate CanMerge(a: ClientEvent, b: ClientEvent) {
    && Lossy(a) && Lossy(b) && a.context == b.context
    && (a.event.TextDelta? <==> b.event.TextDelta?)
    && a.event.agent == b.event.agent && a.event.item == b.event.item
  }

  function Merge(a: ClientEvent, b: ClientEvent): ClientEvent
    requires CanMerge(a, b)
  {
    Wire(a.context, b.num, a.event.(text := a.event.text + b.event.text))
  }

  /** Merging never serializes to more than its parts did. */
  ghost predicate Subadditive(size: Sizer) {
    forall a, b :: CanMerge(a, b) ==> size(Merge(a, b)) <= size(a) + size(b)
  }

  function AddBytes(a: nat, b: nat): nat {
    SatAdd(a, b, USIZE_MAX)
  }

  function Sum(events: seq<Queued>): nat {
    if events == [] then 0 else events[0].bytes + Sum(events[1..])
  }

  function Filter(events: seq<Queued>, keep: Queued -> bool): seq<Queued> {
    if events == [] then []
    else (if keep(events[0]) then [events[0]] else []) + Filter(events[1..], keep)
  }

  function FirstLossy(events: seq<Queued>): (i: nat)
    ensures i <= |events|
    ensures forall j | 0 <= j < i :: !Lossy(events[j].event)
    ensures i < |events| ==> Lossy(events[i].event)
  {
    if events == [] || Lossy(events[0].event) then 0 else 1 + FirstLossy(events[1..])
  }

  function FirstKey(events: seq<Queued>, key: GlobalKey): (i: nat)
    ensures i <= |events|
    ensures forall j | 0 <= j < i :: KeyOf(events[j].event) != Some(key)
    ensures i < |events| ==> KeyOf(events[i].event) == Some(key)
  {
    if events == [] || KeyOf(events[0].event) == Some(key) then 0 else 1 + FirstKey(events[1..], key)
  }

  function Listing(resync: seq<(Context, nat)>, c: Context): (i: nat)
    ensures i <= |resync|
    ensures forall j | 0 <= j < i :: resync[j].0 != c
    ensures i < |resync| ==> resync[i].0 == c
  {
    if resync == [] || resync[0].0 == c then 0 else 1 + Listing(resync[1..], c)
  }

  predicate Listed(q: Queue, c: Context) {
    Listing(q.resync, c) < |q.resync|
  }

  function RemoveAt(q: Queue, i: nat): Queue
    requires i < |q.events|
  {
    q.(events := q.events[..i] + q.events[i + 1..], bytes := SatSub(q.bytes, q.events[i].bytes))
  }

  function Append(q: Queue, e: ClientEvent, bytes: nat): Queue {
    q.(events := q.events + [Queued(e, bytes)], bytes := AddBytes(q.bytes, bytes))
  }

  function Retain(q: Queue, keep: Queued -> bool): Queue {
    var events := Filter(q.events, keep);
    q.(events := events, bytes := Sum(events))
  }

  predicate Crowded(q: Queue, bytes: nat) {
    |q.events| >= CAPACITY || AddBytes(q.bytes, bytes) > BYTE_LIMIT
  }

  predicate Admits(q: Queue, bytes: nat) {
    |q.events| < ADMIT_COUNT && AddBytes(q.bytes, bytes) <= ADMIT_BYTES
  }

  /** Evicts deltas, oldest first, until an event of this size fits; fails when none is left. */
  function MakeRoom(q: Queue, bytes: nat): (Queue, bool)
    decreases |q.events|
  {
    if !Crowded(q, bytes) then (q, true)
    else if FirstLossy(q.events) == |q.events| then (q, false)
    else MakeRoom(RemoveAt(q, FirstLossy(q.events)), bytes)
  }

  /** Evicts deltas first and anything after, until an event of this size fits. */
  function ForceRoom(q: Queue, bytes: nat): Queue
    requires bytes <= BYTE_LIMIT && q.bytes == Sum(q.events)
    decreases |q.events|
  {
    if !Crowded(q, bytes) || q.events == [] then q
    else
      var i := if FirstLossy(q.events) == |q.events| then 0 else FirstLossy(q.events);
      SumRemove(q.events, i);
      ForceRoom(RemoveAt(q, i), bytes)
  }

  function RaiseFloor(q: Queue, i: nat, num: nat): Queue
    requires i < |q.resync|
  {
    q.(resync := q.resync[i := (q.resync[i].0, if num > q.resync[i].1 then num else q.resync[i].1)])
  }

  function MarkResync(size: Sizer, q: Queue, c: Context, num: nat): (Queue, bool) {
    if Listed(q, c) then (RaiseFloor(q, Listing(q.resync, c), num), true)
    else if |q.resync| >= MAX_RESYNC then (q, false)
    else
      var bytes := size(ResyncNeeded(c));
      var (room, ok) := MakeRoom(q, bytes);
      if !ok then (room, false)
      else (Append(room, ResyncNeeded(c), bytes).(resync := room.resync + [(c, num)]), true)
  }

  function Last(q: Queue): Queued
    requires q.events != []
  {
    q.events[|q.events| - 1]
  }

  predicate Mergeable(size: Sizer, q: Queue, e: ClientEvent) {
    q.events != [] && CanMerge(Last(q).event, e) && AddBytes(q.bytes, size(e)) <= BYTE_LIMIT
  }

  function MergeBack(size: Sizer, q: Queue, e: ClientEvent): Queue
    requires Mergeable(size, q, e)
  {
    var merged := Merge(Last(q).event, e);
    var before, after := Last(q).bytes, size(merged);
    q.(events := q.events[..|q.events| - 1] + [Queued(merged, after)],
       bytes := if after >= before then AddBytes(q.bytes, after - before) else SatSub(q.bytes, before - after))
  }

  function PushDelta(size: Sizer, q: Queue, e: ClientEvent): (Queue, PushResult)
    requires Lossy(e)
  {
    if Listed(q, e.context) then (RaiseFloor(q, Listing(q.resync, e.context), e.num), Dropped)
    else if Mergeable(size, q, e) then
      var m := MergeBack(size, q, e);
      (m, if m.bytes <= BYTE_LIMIT then Accepted else Overflow)
    else if Admits(q, size(e)) then (Append(q, e, size(e)), Accepted)
    else
      var (m, ok) := MarkResync(size, q, e.context, e.num);
      (m, if ok then Dropped else Overflow)
  }

  function PushControl(size: Sizer, q: Queue, e: ClientEvent): (Queue, PushResult) {
    var bytes := size(e);
    var i := if KeyOf(e).Some? then FirstKey(q.events, KeyOf(e).value) else |q.events|;
    if i < |q.events| then
      if AddBytes(SatSub(q.bytes, q.events[i].bytes), bytes) > BYTE_LIMIT then (q, Overflow)
      else (Append(RemoveAt(q, i), e, bytes), Accepted)
    else if Admits(q, bytes) then (Append(q, e, bytes), Accepted)
    else
      var (room, ok) := MakeRoom(q, bytes);
      if ok then (Append(room, e, bytes), Accepted) else (room, Overflow)
  }

  function DropMarkers(q: Queue): Queue {
    Retain(q.(resync := []), (x: Queued) => !x.event.ResyncNeeded?)
  }

  function Push(size: Sizer, q: Queue, e: ClientEvent, resyncSeq: Option<nat>): (Queue, PushResult) {
    if q.closed then (q, Closed)
    else
      var base := if e.Connected? then DropMarkers(q) else q;
      if e.ResyncNeeded? then
        var (m, ok) := MarkResync(size, base, e.context, if resyncSeq.Some? then resyncSeq.value else 0);
        (m, if ok then Accepted else Overflow)
      else if Lossy(e) then PushDelta(size, base, e)
      else PushControl(size, base, e)
  }

  predicate Outdated(q: Queue, session: string, num: nat, x: Queued) {
    match x.event
    case ResyncNeeded(c) => c.session == Some(session) && !(Listed(q, c) && q.resync[Listing(q.resync, c)].1 > num)
    case Wire(c, k, e) => !e.IsGlobal() && c.session == Some(session) && k <= num
    case _ => false
  }

  function KeepListing(resync: seq<(Context, nat)>, session: string, num: nat): seq<(Context, nat)> {
    if resync == [] then []
    else
      var keep := resync[0].0.session != Some(session) || resync[0].1 > num;
      (if keep then [resync[0]] else []) + KeepListing(resync[1..], session, num)
  }

  function SnapshotApplied(q: Queue, session: string, num: nat): Queue {
    Retain(q, (x: Queued) => !Outdated(q, session, num, x)).(resync := KeepListing(q.resync, session, num))
  }

  function ForceTerminal(size: Sizer, q: Queue, e: ClientEvent): Queue
    requires size(e) <= BYTE_LIMIT && q.bytes == Sum(q.events)
  {
    if q.terminal then q
    else Append(ForceRoom(q, size(e)), e, size(e)).(terminal := true, closed := true)
  }

  function Pop(q: Queue): Queue {
    if q.events == [] then q
    else q.(events := q.events[1..], bytes := SatSub(q.bytes, q.events[0].bytes))
  }

  // --- Sums and filters ---

  lemma {:induction false} SumConcat(a: seq<Queued>, b: seq<Queued>)
    ensures Sum(a + b) == Sum(a) + Sum(b)
  {
    if a == [] {
      assert a + b == b;
    } else {
      assert (a + b)[1..] == a[1..] + b;
      SumConcat(a[1..], b);
    }
  }

  lemma {:induction false} SumRemove(events: seq<Queued>, i: nat)
    requires i < |events|
    ensures Sum(events) == events[i].bytes + Sum(events[..i] + events[i + 1..])
  {
    SumConcat(events[..i], events[i..]);
    SumConcat(events[..i], events[i + 1..]);
    assert events == events[..i] + events[i..] && events[i..][1..] == events[i + 1..];
  }

  lemma {:induction false} SumOne(x: Queued)
    ensures Sum([x]) == x.bytes
  {
    assert Sum([x][1..]) == 0;
  }

  lemma {:induction false} FilterConcat(a: seq<Queued>, b: seq<Queued>, keep: Queued -> bool)
    ensures Filter(a + b, keep) == Filter(a, keep) + Filter(b, keep)
  {
    if a == [] {
      assert a + b == b;
    } else {
      assert (a + b)[1..] == a[1..] + b;
      FilterConcat(a[1..], b, keep);
    }
  }

  lemma {:induction false} FilterOne(x: Queued, keep: Queued -> bool)
    ensures Filter([x], keep) == if keep(x) then [x] else []
  {
    assert Filter([x][1..], keep) == [];
  }

  lemma {:induction false} FilterShape(events: seq<Queued>, keep: Queued -> bool)
    ensures |Filter(events, keep)| <= |events| && Sum(Filter(events, keep)) <= Sum(events)
    ensures forall x :: x in Filter(events, keep) <==> x in events && keep(x)
  {
    if events != [] {
      FilterShape(events[1..], keep);
      var rest := Filter(events[1..], keep);
      if keep(events[0]) {
        SumConcat([events[0]], rest);
        SumOne(events[0]);
      } else {
        assert Filter(events, keep) == rest;
      }
    }
  }
}
