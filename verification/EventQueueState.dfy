/** The mutable event queue of crates/pacode-client/src/lib.rs, proved against the functions of
    module `EventQueueModel`. */
module EventQueueObject {
  import opened Common
  import M = EventQueueModel
  import opened EventQueueRuns

  class EventQueue {
    const size: M.Sizer
    var events: seq<M.Queued>
    var queuedBytes: nat
    var resyncContexts: seq<(Context, nat)>
    var closed: bool
    var terminal: bool

    ghost function View(): M.Queue
      reads this
    {
      M.Queue(events, queuedBytes, resyncContexts, closed, terminal)
    }

    ghost predicate Valid()
      reads this
    {
      Good(size, View())
    }

    constructor (size: M.Sizer)
      ensures this.size == size && View() == M.EMPTY && Valid()
    {
      this.size := size;
      events, queuedBytes, resyncContexts, closed, terminal := [], 0, [], false, false;
    }

    method RemoveAt(index: nat)
      requires index < |events|
      modifies this`events, this`queuedBytes
      ensures View() == M.RemoveAt(old(View()), index)
    {
      queuedBytes := SatSub(queuedBytes, events[index].bytes);
      events := events[..index] + events[index + 1..];
    }

    method PushBack(event: M.ClientEvent, bytes: nat)
      modifies this`events, this`queuedBytes
      ensures View() == M.Append(old(View()), event, bytes)
    {
      events := events + [M.Queued(event, bytes)];
      queuedBytes := M.AddBytes(queuedBytes, bytes);
    }

    static method KeepAndCount(all: seq<M.Queued>, keep: M.Queued -> bool) returns (kept: seq<M.Queued>, bytes: nat)
      ensures kept == M.Filter(all, keep) && bytes == M.Sum(kept)
    {
      kept, bytes := [], 0;
      for i := 0 to |all|
        invariant kept + M.Filter(all[i..], keep) == M.Filter(all, keep)
        invariant bytes == M.Sum(kept)
      {
        assert all[i..][0] == all[i] && all[i..][1..] == all[i + 1..];
        if keep(all[i]) {
          M.SumConcat(kept, [all[i]]);
          M.SumOne(all[i]);
          bytes := bytes + all[i].bytes;
          kept := kept + [all[i]];
        }
      }
      assert all[|all|..] == [] && M.Filter([], keep) == [];
      assert kept == M.Filter(all, keep);
    }

    method RetainEvents(keep: M.Queued -> bool)
      modifies this`events, this`queuedBytes
      ensures View() == M.Retain(old(View()), keep)
    {
      events, queuedBytes := KeepAndCount(events, keep);
    }

    method FindLossy() returns (index: nat)
      ensures index == M.FirstLossy(events)
    {
      index := 0;
      while index < |events| && !M.Lossy(events[index].event)
        invariant index <= M.FirstLossy(events)
      {
        index := index + 1;
      }
    }

    /** Evicts the oldest deltas until an event of this size fits. */
    method MakeRoom(bytes: nat) returns (ok: bool)
      modifies this`events, this`queuedBytes
      ensures (View(), ok) == M.MakeRoom(old(View()), bytes)
    {
      while |events| >= M.CAPACITY || M.AddBytes(queuedBytes, bytes) > M.BYTE_LIMIT
        invariant M.MakeRoom(View(), bytes) == M.MakeRoom(old(View()), bytes)
        decreases |events|
      {
        var index := FindLossy();
        if index == |events| { return false; }
        RemoveAt(index);
      }
      return true;
    }

    method FindListing(context: Context) returns (index: nat)
      ensures index == M.Listing(resyncContexts, context)
    {
      index := 0;
      while index < |resyncContexts| && resyncContexts[index].0 != context
        invariant index <= M.Listing(resyncContexts, context)
      {
        index := index + 1;
      }
    }

    method RaiseFloor(index: nat, num: nat)
      requires index < |resyncContexts|
      modifies this`resyncContexts
      ensures View() == M.RaiseFloor(old(View()), index, num)
    {
      var (context, floor) := resyncContexts[index];
      resyncContexts := resyncContexts[index := (context, if num > floor then num else floor)];
    }

    method MarkResync(context: Context, num: nat) returns (ok: bool)
      requires Valid()
      modifies this
      ensures (View(), ok) == M.MarkResync(size, old(View()), context, num) && Valid()
    {
      MarkGood(size, View(), context, num);
      var index := FindListing(context);
      if index < |resyncContexts| {
        RaiseFloor(index, num);
        return true;
      }
      if |resyncContexts| >= M.MAX_RESYNC { return false; }
      var event := M.ResyncNeeded(context);
      var bytes := size(event);
      var room := MakeRoom(bytes);
      if !room { return false; }
      PushBack(event, bytes);
      resyncContexts := resyncContexts + [(context, num)];
      return true;
    }

    method MergeIntoLast(event: M.ClientEvent)
      requires M.Mergeable(size, View(), event)
      modifies this`events, this`queuedBytes
      ensures View() == M.MergeBack(size, old(View()), event)
    {
      var n := |events| - 1;
      var last := events[n];
      var merged := M.Merge(last.event, event);
      var bytes := size(merged);
      events := events[..n] + [M.Queued(merged, bytes)];
      queuedBytes := if bytes >= last.bytes then M.AddBytes(queuedBytes, bytes - last.bytes)
        else SatSub(queuedBytes, last.bytes - bytes);
    }

    method PushDelta(event: M.ClientEvent) returns (result: M.PushResult)
      requires Valid() && M.Lossy(event) && SizesMerge()
      modifies this
      ensures (View(), result) == M.PushDelta(size, old(View()), event) && Valid()
    {
      PushDeltaGood(size, View(), event);
      var index := FindListing(event.context);
      if index < |resyncContexts| {
        RaiseFloor(index, event.num);
        return M.Dropped;
      }
      var bytes := size(event);
      if |events| > 0 && M.CanMerge(events[|events| - 1].event, event)
        && M.AddBytes(queuedBytes, bytes) <= M.BYTE_LIMIT {
        MergeIntoLast(event);
        return if queuedBytes <= M.BYTE_LIMIT then M.Accepted else M.Overflow;
      }
      if |events| < M.ADMIT_COUNT && M.AddBytes(queuedBytes, bytes) <= M.ADMIT_BYTES {
        PushBack(event, bytes);
        return M.Accepted;
      }
      var marked := MarkResync(event.context, event.num);
      return if marked then M.Dropped else M.Overflow;
    }

    ghost predicate SizesMerge() { M.Subadditive(size) }

    method FindKey(key: M.GlobalKey) returns (index: nat)
      ensures index == M.FirstKey(events, key)
    {
      index := 0;
      while index < |events| && M.KeyOf(events[index].event) != Some(key)
        invariant index <= M.FirstKey(events, key)
      {
        index := index + 1;
      }
    }

    method PushControl(event: M.ClientEvent) returns (result: M.PushResult)
      requires Valid() && !M.Lossy(event) && !event.ResyncNeeded?
      modifies this
      ensures (View(), result) == M.PushControl(size, old(View()), event) && Valid()
    {
      PushControlGood(size, View(), event);
      var bytes := size(event);
      if M.KeyOf(event).Some? {
        var index := FindKey(M.KeyOf(event).value);
        if index < |events| {
          if M.AddBytes(SatSub(queuedBytes, events[index].bytes), bytes) > M.BYTE_LIMIT { return M.Overflow; }
          RemoveAt(index);
          PushBack(event, bytes);
          return M.Accepted;
        }
      }
      if |events| < M.ADMIT_COUNT && M.AddBytes(queuedBytes, bytes) <= M.ADMIT_BYTES {
        PushBack(event, bytes);
        return M.Accepted;
      }
      var room := MakeRoom(bytes);
      if !room { return M.Overflow; }
      PushBack(event, bytes);
      return M.Accepted;
    }

    /** Admits an event, merging, marking or evicting as needed; see `EventQueueRuns.PushEffect`. */
    method Push(event: M.ClientEvent, resyncSeq: Option<nat>) returns (result: M.PushResult)
      requires Valid() && SizesMerge()
      modifies this
      ensures (View(), result) == M.Push(size, old(View()), event, resyncSeq) && Valid()
    {
      if closed { return M.Closed; }
      if event.Connected? {
        DropMarkersGood(size, View());
        resyncContexts := [];
        RetainEvents((queued: M.Queued) => !queued.event.ResyncNeeded?);
        assert View() == M.DropMarkers(old(View()));
      }
      if event.ResyncNeeded? {
        var ok := MarkResync(event.context, if resyncSeq.Some? then resyncSeq.value else 0);
        return if ok then M.Accepted else M.Overflow;
      }
      if M.Lossy(event) {
        result := PushDelta(event);
      } else {
        result := PushControl(event);
      }
    }

    /** Forgets what a snapshot of the session at `num` already covers. */
    method SnapshotApplied(session: string, num: nat)
      requires Valid()
      modifies this
      ensures View() == M.SnapshotApplied(old(View()), session, num) && Valid()
    {
      SnapshotGood(size, View(), session, num);
      var q := M.Queue(events, queuedBytes, resyncContexts, closed, terminal);
      RetainEvents((x: M.Queued) => !M.Outdated(q, session, num, x));
      assert View() == M.Retain(q, (x: M.Queued) => !M.Outdated(q, session, num, x));
      RetainListings(session, num);
    }

    method RetainListings(session: string, num: nat)
      modifies this`resyncContexts
      ensures resyncContexts == M.KeepListing(old(resyncContexts), session, num)
    {
      var all, kept := resyncContexts, [];
      for i := 0 to |all|
        invariant kept + M.KeepListing(all[i..], session, num) == M.KeepListing(all, session, num)
      {
        assert all[i..][0] == all[i] && all[i..][1..] == all[i + 1..];
        if all[i].0.session != Some(session) || all[i].1 > num {
          kept := kept + [all[i]];
        }
      }
      assert all[|all|..] == [];
      resyncContexts := kept;
    }

    /** Runs force_terminal for at most `turns` turns of its eviction loop; `done` is whether it returned.
        It returns in as many turns as there are events, or never. */
    method ForceTerminal(event: M.ClientEvent, turns: nat) returns (done: bool)
      requires Valid() && event.Disconnected?
      modifies this
      ensures Valid()
      ensures old(terminal) ==> done && View() == old(View())
      ensures done && !old(terminal) ==>
        size(event) <= M.BYTE_LIMIT && View() == M.ForceTerminal(size, old(View()), event)
      ensures !done ==> View() == EvictTimes(old(View()), turns) && M.Crowded(View(), size(event))
      ensures turns >= |old(events)| && !old(terminal) ==> (done <==> size(event) <= M.BYTE_LIMIT)
    {
      if terminal { return true; }
      var bytes := size(event);
      if bytes <= M.BYTE_LIMIT { TerminalGood(size, View(), event); }
      done := EvictTurns(bytes, turns);
      if !done { return; }
      PushBack(event, bytes);
      terminal, closed := true, true;
    }

    /** At most `turns` turns of the eviction loop; `room` is whether it ended. */
    method EvictTurns(bytes: nat, turns: nat) returns (room: bool)
      requires Valid()
      modifies this`events, this`queuedBytes
      ensures Valid() && room == !M.Crowded(View(), bytes)
      ensures room ==> bytes <= M.BYTE_LIMIT && View() == M.ForceRoom(old(View()), bytes)
      ensures !room ==> View() == EvictTimes(old(View()), turns)
      ensures turns >= |old(events)| ==> (room <==> bytes <= M.BYTE_LIMIT)
    {
      EvictLoopEnds(size, View(), bytes, turns);
      var turn := 0;
      while turn < turns && (|events| >= M.CAPACITY || M.AddBytes(queuedBytes, bytes) > M.BYTE_LIMIT)
        invariant turn <= turns && EvictLoop(View(), bytes, turns - turn) == EvictLoop(old(View()), bytes, turns)
      {
        EvictOnce();
        turn := turn + 1;
      }
      return !(|events| >= M.CAPACITY || M.AddBytes(queuedBytes, bytes) > M.BYTE_LIMIT);
    }

    /** One turn: the oldest delta goes, else the oldest event; an empty queue stays as it is. */
    method EvictOnce()
      modifies this`events, this`queuedBytes
      ensures View() == EvictOne(old(View()))
    {
      var index := FindLossy();
      if index == |events| { index := 0; }
      if index < |events| { RemoveAt(index); }
    }

    method Close()
      requires Valid()
      modifies this`closed
      ensures View() == old(View()).(closed := true) && Valid()
    {
      SameListing(View(), View().(closed := true), View(), View());
      closed := true;
    }

    /** The receiver takes the oldest event. */
    method TryRecv() returns (event: Option<M.ClientEvent>)
      requires Valid()
      modifies this
      ensures View() == M.Pop(old(View())) && Valid()
      ensures event == if old(events) == [] then None else Some(old(events)[0].event)
    {
      PopGood(size, View());
      if |events| == 0 { return None; }
      event := Some(events[0].event);
      queuedBytes := SatSub(queuedBytes, events[0].bytes);
      events := events[1..];
    }
  }
}
