/** What the attach protocol achieves: the attempt that is desired attaches, a lost connection is taken up
    again, and session events above the floor are delivered (crates/pacode-client/src/lib.rs). */
module LifecycleAnswers {
  import opened Common
  import opened LifecycleModel

  // --- Attempts that attach ---

  /** `a` is desired, in the current session and connection. */
  predicate Awaited(s: State, a: Attempt) {
    s.desired == Some(a) && a.sessionEpoch == s.sessionEpoch && a.connectionEpoch == s.connectionEpoch
  }

  /** The step neither starts over nor reconnects, and is no reply for `a`. */
  predicate Passes(op: Op, a: Attempt) {
    match op
    case DoRemember(b, _) => b.requestId != a.requestId
    case DoRememberReconnect(b, _, _) => b.requestId != a.requestId
    case DoClearFailed(b) => b.requestId != a.requestId
    case DoClearUnacknowledged(b) => b.requestId != a.requestId
    case DoEvent(_, _) => true
    case DoObserve(_) => true
    case _ => false
  }

  lemma {:induction false} StaysAwaited(w: World, ops: seq<Op>, a: Attempt)
    requires Awaited(w.state, a) && forall i | 0 <= i < |ops| :: Passes(ops[i], a)
    ensures Awaited(Exec(w, ops).state, a)
    ensures w.state.attached.None? ==> Exec(w, ops).state == w.state
    ensures Exec(w, ops).state.attached == w.state.attached
    decreases |ops|
  {
    if ops != [] { StaysAwaited(Step(w, ops[0]), ops[1..], a); }
  }

  /** The attempt a step issues, for a new attach, a retry of the same unattached target or a renewal. */
  predicate Issues(s: State, op: Op) {
    match op
    case DoBeginAttach(_, _, _) => true
    case DoRetry(target, _) => s.desired.Some? && s.desired.value.target == target && s.attached.None?
    case DoRenew(_) => s.desired.Some?
    case _ => false
  }

  /** Exactly these steps issue an attempt, and what they issue is awaited. A retry and a renewal keep the
      key, target and epoch of what was desired before; the session they attached to, if any, stays. */
  lemma {:induction false} IssuedIsAwaited(w: World, op: Op)
    requires Inv(w)
    ensures var t := Step(w, op); Issues(w.state, op) <==> |t.issued| == |w.issued| + 1
    ensures Issues(w.state, op) ==>
      var t := Step(w, op);
      var a := t.issued[|w.issued|];
      && Awaited(t.state, a) && a.requestId == op.id
      && (op.DoBeginAttach? ==>
            && a.target == op.target && a.key == op.key && a.sessionEpoch == w.state.sessionEpoch + 1
            && t.state.attached.None? && t.state.snapshotSeq == t.state.lastSessionSeq == 0)
      && (!op.DoBeginAttach? ==>
            && a == w.state.desired.value.(requestId := op.id, connectionEpoch := w.state.connectionEpoch)
            && t.state == w.state.(desired := Some(a)))
    ensures !Issues(w.state, op) ==> Step(w, op).issued == w.issued
  {
  }

  /** The reply to the awaited attempt attaches: the session it names is the one that is resumed from now
      on, and both floors are at least the snapshot's number. */
  lemma {:induction false} AwaitedAttaches(s: State, a: Attempt, snap: Snapshot)
    requires Awaited(s, a)
    ensures var t := RememberIfCurrent(s, a, snap);
      && t == RememberReconnect(s, a, s.connectionEpoch, snap)
      && t.attached == Some(snap.session) && Awaited(t, a.(target := Resume(snap.session)))
      && t.snapshotSeq >= snap.num && t.snapshotSeq >= s.snapshotSeq
      && t.lastSessionSeq >= snap.num && t.lastSessionSeq >= s.lastSessionSeq
      && (t.snapshotSeq == snap.num || t.snapshotSeq == s.snapshotSeq)
      && (t.lastSessionSeq == snap.num || t.lastSessionSeq == s.lastSessionSeq)
      && CommitValid(t, t.desired, t.attached)
  {
  }

  /** Exactly the replies to what is desired, in the current session epoch, attach; a reconnect brings the
      connection it was made on. */
  lemma {:induction false} AttachesIff(s: State, a: Attempt, epoch: nat, snap: Snapshot)
    requires Sound(s) && s.attached.None?
    ensures var desired := s.desired.Some? && s.desired.value == a.(connectionEpoch := s.desired.value.connectionEpoch);
      && (RememberIfCurrent(s, a, snap).attached.Some? <==> desired && a.connectionEpoch == s.connectionEpoch)
      && (RememberReconnect(s, a, epoch, snap).attached.Some? <==> desired && epoch == s.connectionEpoch)
  {
  }

  /** An attach completes: however many events, snapshots and replies to other attempts come first, the
      reply to it attaches the session and starts its event floor at the snapshot. */
  lemma {:induction false} AttachCompletes(w: World, target: Target, key: string, id: nat, ops: seq<Op>,
    snap: Snapshot)
    requires Inv(w) && id !in w.used
    requires forall i | 0 <= i < |ops| :: Passes(ops[i], AttachAttempt(w.state, target, id, key))
    ensures var a := AttachAttempt(w.state, target, id, key);
      var t := RememberIfCurrent(Exec(Step(w, DoBeginAttach(target, key, id)), ops).state, a, snap);
      && t.attached == Some(snap.session) && Awaited(t, a.(target := Resume(snap.session)))
      && t.snapshotSeq == t.lastSessionSeq == snap.num
      && forall num: nat :: AcceptsEvent(t, num, false) <==> num > snap.num
  {
    var begun := Step(w, DoBeginAttach(target, key, id));
    StaysAwaited(begun, ops, AttachAttempt(w.state, target, id, key));
  }

  /** A lost connection is taken up again: after the reconnect, the reply to the renewed attempt attaches
      the session again, and no event the client has seen is accepted a second time. */
  lemma {:induction false} ReattachCompletes(w: World, id: nat, ops: seq<Op>, snap: Snapshot)
    requires Inv(w) && w.state.attached.Some? && id !in w.used
    requires var advanced := Step(w, DoAdvance);
      forall i | 0 <= i < |ops| :: Passes(ops[i], RenewAttempt(advanced.state, id).value)
    ensures var advanced := Step(w, DoAdvance);
      var a := RenewAttempt(advanced.state, id).value;
      var before := Exec(Step(advanced, DoRenew(id)), ops).state;
      var t := RememberReconnect(before, a, w.state.connectionEpoch + 1, snap);
      && a.target == Resume(w.state.attached.value)
      && t.attached == Some(snap.session) && Awaited(t, a.(target := Resume(snap.session)))
      && t.lastSessionSeq >= w.state.lastSessionSeq
      && forall num: nat :: AcceptsEvent(t, num, false) <==> num > before.lastSessionSeq && num > snap.num
  {
    var advanced := Step(w, DoAdvance);
    StepInv(w, DoAdvance);
    var renewed := Step(advanced, DoRenew(id));
    StepInv(advanced, DoRenew(id));
    var a := RenewAttempt(advanced.state, id).value;
    StaysAwaited(renewed, ops, a);
    FloorStays(renewed, ops, a);
    PassingSound(renewed, ops, a);
  }

  lemma {:induction false} FloorStays(w: World, ops: seq<Op>, a: Attempt)
    requires Awaited(w.state, a) && forall i | 0 <= i < |ops| :: Passes(ops[i], a)
    ensures Exec(w, ops).state.lastSessionSeq >= w.state.lastSessionSeq
    decreases |ops|
  {
    if ops != [] {
      StaysAwaited(w, ops[..1], a);
      FloorStays(Step(w, ops[0]), ops[1..], a);
    }
  }

  lemma {:induction false} PassingSound(w: World, ops: seq<Op>, a: Attempt)
    requires Sound(w.state) && Awaited(w.state, a) && forall i | 0 <= i < |ops| :: Passes(ops[i], a)
    ensures Sound(Exec(w, ops).state)
    decreases |ops|
  {
    if ops != [] {
      StaysAwaited(w, ops[..1], a);
      PassingSound(Step(w, ops[0]), ops[1..], a);
    }
  }

  // --- Attempts that fail or are abandoned ---

  /** A failure of the awaited attempt leaves the client as a detach would. */
  lemma {:induction false} FailureDetaches(s: State, target: Target, id: nat, key: string)
    ensures ClearFailed(BeginAttach(s, target, id, key), AttachAttempt(s, target, id, key)) == BeginDetach(s)
  {
  }

  /** Exactly the failure of the attempt that is desired on this connection clears it. */
  lemma {:induction false} FailureClearsIff(s: State, a: Attempt)
    requires Sound(s) && s.desired.Some?
    ensures var t, asked := ClearFailed(s, a), s.desired.value;
      if a.connectionEpoch == s.connectionEpoch && asked == a.(connectionEpoch := asked.connectionEpoch)
      then t.desired.None? && t.attached.None? && t.snapshotSeq == t.lastSessionSeq == 0
      else t == s
  {
  }

  /** Exactly the attempt that is awaited, whether it was acknowledged or not, is rolled back. */
  lemma {:induction false} AbandonsIff(s: State, a: Attempt)
    requires Sound(s) && s.desired.Some?
    ensures var t := ClearUnacknowledged(s, a);
      if Awaited(s, a.(target := s.desired.value.target))
      then Awaited(t, a) && t.attached.None? && t.snapshotSeq == t.lastSessionSeq == 0
      else t == s
  {
  }

  /** Abandoning an attach undoes the reply to it: the state is the one before the reply, so a retry of
      the target as first asked is issued under the same key. */
  lemma {:induction false} AbandonUndoesReply(s: State, target: Target, id: nat, key: string, snap: Snapshot,
    again: nat)
    ensures var begun, a := BeginAttach(s, target, id, key), AttachAttempt(s, target, id, key);
      var undone := ClearUnacknowledged(RememberIfCurrent(begun, a, snap), a);
      && undone == begun && RetryAttempt(undone, target, again) == Some(a.(requestId := again))
  {
  }

  // --- Session events ---

  function SessionEvents(nums: seq<nat>): (ops: seq<Op>)
    ensures |ops| == |nums| && forall i | 0 <= i < |nums| :: ops[i] == DoEvent(nums[i], false)
  {
    seq(|nums|, i requires 0 <= i < |nums| => DoEvent(nums[i], false))
  }

  /** The numbers that exceed the floor and everything before them. */
  function Records(nums: seq<nat>, floor: nat): seq<nat> {
    if nums == [] then []
    else if nums[0] > floor then [nums[0]] + Records(nums[1..], nums[0])
    else Records(nums[1..], floor)
  }

  /** Of any session events, exactly those that exceed all earlier ones are accepted. */
  lemma {:induction false} AcceptsRecords(w: World, nums: seq<nat>)
    requires Sound(w.state) && w.state.attached.Some?
    ensures AcceptedSeqs(w, SessionEvents(nums)) == Records(nums, w.state.lastSessionSeq)
    decreases |nums|
  {
    var ops := SessionEvents(nums);
    if nums != [] {
      assert ops[1..] == SessionEvents(nums[1..]);
      AcceptsRecords(Step(w, ops[0]), nums[1..]);
    }
  }

  lemma {:induction false} RisingAreRecords(nums: seq<nat>, floor: nat)
    requires RisingAbove(nums, floor)
    ensures Records(nums, floor) == nums
    decreases |nums|
  {
    if nums != [] {
      var tail := nums[1..];
      assert forall i | 0 <= i < |tail| :: tail[i] == nums[i + 1];
      RisingAreRecords(tail, nums[0]);
    }
  }

  /** An attached client loses no event of a rising series above its floor. */
  lemma {:induction false} RisingDelivered(w: World, nums: seq<nat>)
    requires Sound(w.state) && w.state.attached.Some? && RisingAbove(nums, w.state.lastSessionSeq)
    ensures AcceptedSeqs(w, SessionEvents(nums)) == nums
  {
    AcceptsRecords(w, nums);
    RisingAreRecords(nums, w.state.lastSessionSeq);
  }

  /** Exactly when a session event, a resync or a snapshot is taken, and what a snapshot taken covers. */
  lemma {:induction false} AnswersWhileAttached(s: State, num: nat, snap: Snapshot)
    requires Sound(s)
    ensures AcceptsEvent(s, num, true) && AcceptEvent(s, num, true) == s
    ensures AcceptsEvent(s, num, false) <==> s.attached.Some? && num > s.lastSessionSeq
    ensures AcceptsResync(s, None) <==> s.attached.Some?
    ensures AcceptsResync(s, Some(num)) <==> AcceptsEvent(s, num, false)
    ensures Observes(s, snap) ==> (AcceptsEvent(Observe(s, snap), num, false) <==>
      num > snap.num && AcceptsEvent(s, num, false))
    ensures Observes(s, snap) ==> forall older :: Observes(Observe(s, snap), older) <==>
      older.session == snap.session && older.num >= snap.num
    ensures s.attached == Some(snap.session) && snap.num >= s.lastSessionSeq ==> Observes(s, snap)
    ensures !Observes(s, snap) ==> Observe(s, snap) == s
  {
  }

  /** A connection commits with what is attached, or with nothing when nothing is desired. */
  lemma {:induction false} CommitsIff(s: State, a: Option<Attempt>, session: Option<string>)
    requires Sound(s)
    ensures CommitValid(s, None, None) <==> s.desired.None?
    ensures CommitValid(s, s.desired, s.attached) <==> s.attached.Some? || s.desired.None?
    ensures CommitValid(s, a, session) ==> session == s.attached && (a.None? <==> s.desired.None?)
  {
  }
}
