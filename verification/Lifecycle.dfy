/** The attach protocol of crates/pacode-client/src/lib.rs and connection.rs: connection and session
    epochs, the desired attach attempt, and the replies that may still arrive for older ones. */
module LifecycleModel {
  import opened Common

  datatype Target = New(cwd: string) | Resume(session: string)

  datatype Attempt = Attempt(requestId: nat, key: string, target: Target, sessionEpoch: nat, connectionEpoch: nat)

  datatype State = State(
    connectionEpoch: nat,
    sessionEpoch: nat,
    desired: Option<Attempt>,
    attached: Option<string>,
    snapshotSeq: nat,
    lastSessionSeq: nat)

  /** The part of a session snapshot the protocol reads. */
  datatype Snapshot = Snapshot(session: string, num: nat)

  function Initial(connectionEpoch: nat): State {
    State(connectionEpoch, 0, None, None, 0, 0)
  }

  function ContextOf(s: State): Context {
    Context(s.connectionEpoch, s.sessionEpoch, s.attached)
  }

  function Unattached(s: State): State {
    s.(attached := None, snapshotSeq := 0, lastSessionSeq := 0)
  }

  function AttachAttempt(s: State, target: Target, requestId: nat, key: string): Attempt {
    Attempt(requestId, key, target, s.sessionEpoch + 1, s.connectionEpoch)
  }

  function BeginAttach(s: State, target: Target, requestId: nat, key: string): State {
    Unattached(s.(sessionEpoch := s.sessionEpoch + 1, desired := Some(AttachAttempt(s, target, requestId, key))))
  }

  function BeginDetach(s: State): State {
    Unattached(s.(sessionEpoch := s.sessionEpoch + 1, desired := None))
  }

  /** A retry of the same, still unacknowledged target. */
  function RetryAttempt(s: State, target: Target, requestId: nat): Option<Attempt> {
    if s.desired.None? || s.desired.value.target != target || s.attached.Some? then None
    else Some(s.desired.value.(requestId := requestId, connectionEpoch := s.connectionEpoch))
  }

  function RenewAttempt(s: State, requestId: nat): Option<Attempt> {
    if s.desired.None? then None
    else Some(s.desired.value.(requestId := requestId, connectionEpoch := s.connectionEpoch))
  }

  function Desire(s: State, a: Option<Attempt>): State {
    if a.None? then s else s.(desired := a)
  }

  predicate DesiredCurrent(s: State, a: Attempt) {
    && s.sessionEpoch == a.sessionEpoch && s.desired.Some?
    && s.desired.value.requestId == a.requestId && s.desired.value.key == a.key && s.desired.value.target == a.target
  }

  predicate OutgoingCurrent(s: State, a: Attempt) {
    s.connectionEpoch == a.connectionEpoch && DesiredCurrent(s, a)
  }

  predicate AttachCurrent(s: State, a: Attempt, session: string) {
    && s.connectionEpoch == a.connectionEpoch && s.sessionEpoch == a.sessionEpoch && s.desired.Some?
    && s.desired.value.requestId == a.requestId && s.desired.value.key == a.key && s.attached == Some(session)
  }

  function RememberAttached(s: State, a: Attempt, snap: Snapshot): State {
    if !DesiredCurrent(s, a) then s
    else s.(desired := Some(a.(target := Resume(snap.session), connectionEpoch := s.connectionEpoch)),
            attached := Some(snap.session),
            snapshotSeq := Max(s.snapshotSeq, snap.num),
            lastSessionSeq := Max(s.lastSessionSeq, snap.num))
  }

  function RememberIfCurrent(s: State, a: Attempt, snap: Snapshot): State {
    if s.connectionEpoch != a.connectionEpoch then s else RememberAttached(s, a, snap)
  }

  function RememberReconnect(s: State, a: Attempt, connectionEpoch: nat, snap: Snapshot): State {
    if s.connectionEpoch != connectionEpoch then s else RememberAttached(s, a, snap)
  }

  function ClearFailed(s: State, a: Attempt): State {
    if !OutgoingCurrent(s, a) then s else Unattached(s.(desired := None))
  }

  predicate Unacknowledged(s: State, a: Attempt) {
    && s.connectionEpoch == a.connectionEpoch && s.sessionEpoch == a.sessionEpoch && s.desired.Some?
    && s.desired.value.requestId == a.requestId && s.desired.value.key == a.key
    && s.desired.value.sessionEpoch == a.sessionEpoch && s.desired.value.connectionEpoch == a.connectionEpoch
  }

  function ClearUnacknowledged(s: State, a: Attempt): State {
    if !Unacknowledged(s, a) then s
    else Unattached(s.(desired := Some(s.desired.value.(target := a.target))))
  }

  predicate AcceptsEvent(s: State, num: nat, global: bool) {
    global || (s.attached.Some? && num > s.snapshotSeq && num > s.lastSessionSeq)
  }

  function AcceptEvent(s: State, num: nat, global: bool): State {
    if global || !AcceptsEvent(s, num, global) then s else s.(lastSessionSeq := num)
  }

  predicate AcceptsResync(s: State, current: Option<nat>) {
    s.attached.Some? && (current.Some? ==> current.value > Max(s.snapshotSeq, s.lastSessionSeq))
  }

  predicate Observes(s: State, snap: Snapshot) {
    s.attached == Some(snap.session) && snap.num >= s.snapshotSeq
  }

  function Observe(s: State, snap: Snapshot): State {
    if !Observes(s, snap) then s
    else s.(snapshotSeq := snap.num, lastSessionSeq := Max(s.lastSessionSeq, snap.num))
  }

  predicate CommitValid(s: State, a: Option<Attempt>, session: Option<string>) {
    match (a, session)
    case (Some(a), Some(id)) =>
      && s.desired.Some? && s.desired.value.requestId == a.requestId && s.desired.value.key == a.key
      && s.desired.value.sessionEpoch == a.sessionEpoch && s.desired.value.connectionEpoch == a.connectionEpoch
      && s.attached == Some(id)
    case (None, None) => s.desired.None? && s.attached.None?
    case _ => false
  }

  // --- Runs: any attempt may still be answered, in any copy, at any time ---

  /** The protocol, the request ids used so far, the attempts issued so far, and how many of them have
      been superseded by a later attach, detach, retry or renewal. */
  datatype World = World(state: State, used: set<nat>, issued: seq<Attempt>, superseded: nat)

  /** An id is drawn from the shared counter before the lock is taken, so ids may arrive in any order;
      each is used once. The replies carry whatever attempt their waiter kept: as issued, or as
      `desired_attach` handed it out later. */
  datatype Op =
    | DoBeginAttach(target: Target, key: string, id: nat)
    | DoBeginDetach
    | DoRetry(target: Target, id: nat)
    | DoRenew(id: nat)
    | DoRemember(attempt: Attempt, snap: Snapshot)
    | DoRememberReconnect(attempt: Attempt, epoch: nat, snap: Snapshot)
    | DoClearFailed(attempt: Attempt)
    | DoClearUnacknowledged(attempt: Attempt)
    | DoEvent(num: nat, global: bool)
    | DoObserve(snap: Snapshot)
    | DoAdvance

  function Issue(w: World, state: State, a: Attempt): World {
    World(state, w.used + {a.requestId}, w.issued + [a], |w.issued|)
  }

  /** A step that needs a request id brings one that no earlier step used. */
  predicate Fresh(w: World, op: Op) {
    op.DoBeginAttach? || op.DoRetry? || op.DoRenew? ==> op.id !in w.used
  }

  function Step(w: World, op: Op): World {
    var s := w.state;
    match op
    case DoBeginAttach(target, key, id) =>
      Issue(w, BeginAttach(s, target, id, key), AttachAttempt(s, target, id, key))
    case DoBeginDetach => w.(state := BeginDetach(s), superseded := |w.issued|)
    case DoRetry(target, id) =>
      var a := RetryAttempt(s, target, id);
      if a.None? then w.(used := w.used + {id}) else Issue(w, Desire(s, a), a.value)
    case DoRenew(id) =>
      var a := RenewAttempt(s, id);
      if a.None? then w.(used := w.used + {id}) else Issue(w, Desire(s, a), a.value)
    case DoRemember(a, snap) => w.(state := RememberIfCurrent(s, a, snap))
    case DoRememberReconnect(a, epoch, snap) => w.(state := RememberReconnect(s, a, epoch, snap))
    case DoClearFailed(a) => w.(state := ClearFailed(s, a))
    case DoClearUnacknowledged(a) => w.(state := ClearUnacknowledged(s, a))
    case DoEvent(num, global) => w.(state := AcceptEvent(s, num, global))
    case DoObserve(snap) => w.(state := Observe(s, snap))
    case DoAdvance => w.(state := s.(connectionEpoch := s.connectionEpoch + 1))
  }

  /** No check of the protocol can take `a` for the desired attempt. */
  ghost predicate Stale(s: State, a: Attempt) {
    a.sessionEpoch != s.sessionEpoch || s.desired.None? || s.desired.value.requestId != a.requestId
  }

  /** An attached session is the one the desired attempt resumes, in the current session epoch. */
  ghost predicate Sound(s: State) {
    && (s.desired.Some? ==> s.desired.value.sessionEpoch == s.sessionEpoch)
    && (s.attached.Some? ==> s.desired.Some? && s.desired.value.target == Resume(s.attached.value))
    && (s.attached.None? ==> s.lastSessionSeq == 0)
    && s.snapshotSeq <= s.lastSessionSeq
  }

  ghost predicate Inv(w: World) {
    var s := w.state;
    && Sound(s)
    && w.superseded <= |w.issued|
    && (forall i | 0 <= i < |w.issued| ::
      w.issued[i].requestId in w.used && w.issued[i].sessionEpoch <= s.sessionEpoch)
    && (forall i | 0 <= i < w.superseded :: Stale(s, w.issued[i]))
    && (s.desired.Some? ==> s.desired.value.requestId in w.used)
    && (forall i | 0 <= i < |w.issued| ::
          s.desired.Some? && w.issued[i].sessionEpoch == s.sessionEpoch ==> w.issued[i].key == s.desired.value.key)
    && (forall i, j | 0 <= i < j < |w.issued| ::
          w.issued[i].sessionEpoch == w.issued[j].sessionEpoch ==> w.issued[i].key == w.issued[j].key)
  }

  /** A new client; `used` are the ids other requests have taken. */
  function Begun(connectionEpoch: nat, used: set<nat>): World {
    World(Initial(connectionEpoch), used, [], 0)
  }

  lemma {:induction false} InitialInv(connectionEpoch: nat, used: set<nat>)
    ensures Inv(Begun(connectionEpoch, used))
  {
  }

  /** From `s` to `t` the desired attempt kept its id, key and epoch, or was dropped. */
  ghost predicate KeepsDesire(s: State, t: State) {
    && t.sessionEpoch == s.sessionEpoch
    && (t.desired.Some? ==>
          && s.desired.Some?
          && t.desired.value.requestId == s.desired.value.requestId && t.desired.value.key == s.desired.value.key)
  }

  lemma {:induction false} QuietInv(w: World, t: State)
    requires Inv(w) && Sound(t) && KeepsDesire(w.state, t)
    ensures Inv(w.(state := t))
  {
  }

  lemma {:induction false} ReplySound(s: State, a: Attempt, epoch: nat, snap: Snapshot)
    requires Sound(s)
    ensures var t := RememberIfCurrent(s, a, snap); Sound(t) && KeepsDesire(s, t)
    ensures var t := RememberReconnect(s, a, epoch, snap); Sound(t) && KeepsDesire(s, t)
    ensures var t := ClearFailed(s, a); Sound(t) && KeepsDesire(s, t)
    ensures var t := ClearUnacknowledged(s, a); Sound(t) && KeepsDesire(s, t)
  {
  }

  /** A new attempt under a fresh id: the whole past is superseded. */
  lemma {:induction false} IssueInv(w: World, t: State, a: Attempt)
    requires Inv(w) && Sound(t) && t.desired == Some(a) && a.requestId !in w.used
    requires t.sessionEpoch == w.state.sessionEpoch + 1
      || (t.sessionEpoch == w.state.sessionEpoch && w.state.desired.Some? && a.key == w.state.desired.value.key)
    ensures Inv(Issue(w, t, a))
  {
    var u := Issue(w, t, a);
    forall i | 0 <= i < |u.issued|
      ensures u.issued[i].requestId in u.used && u.issued[i].sessionEpoch <= t.sessionEpoch
      ensures i < u.superseded ==> Stale(t, u.issued[i])
      ensures u.issued[i].sessionEpoch == t.sessionEpoch ==> u.issued[i].key == a.key
    {
      if i < |w.issued| { assert u.issued[i] == w.issued[i]; }
    }
  }

  lemma {:induction false} IssueStepInv(w: World, op: Op)
    requires Inv(w) && Fresh(w, op) && (op.DoBeginAttach? || op.DoBeginDetach? || op.DoRetry? || op.DoRenew?)
    ensures Inv(Step(w, op)) && w.issued <= Step(w, op).issued && w.superseded <= Step(w, op).superseded
  {
    var s := w.state;
    match op
    case DoBeginAttach(target, key, id) =>
      IssueInv(w, BeginAttach(s, target, id, key), AttachAttempt(s, target, id, key));
    case DoBeginDetach =>
    case DoRetry(target, id) =>
      var a := RetryAttempt(s, target, id);
      if a.Some? { IssueInv(w, Desire(s, a), a.value); }
    case DoRenew(id) =>
      var a := RenewAttempt(s, id);
      if a.Some? { IssueInv(w, Desire(s, a), a.value); }
  }

  lemma {:induction false} StepInv(w: World, op: Op)
    requires Inv(w) && Fresh(w, op)
    ensures Inv(Step(w, op)) && w.issued <= Step(w, op).issued && w.superseded <= Step(w, op).superseded
  {
    var s := w.state;
    match op
    case DoBeginAttach(_, _, _) => IssueStepInv(w, op);
    case DoBeginDetach => IssueStepInv(w, op);
    case DoRetry(_, _) => IssueStepInv(w, op);
    case DoRenew(_) => IssueStepInv(w, op);
    case DoRemember(a, snap) => ReplyInv(w, a, 0, snap);
    case DoRememberReconnect(a, epoch, snap) => ReplyInv(w, a, epoch, snap);
    case DoClearFailed(a) => ReplyInv(w, a, 0, Snapshot("", 0));
    case DoClearUnacknowledged(a) => ReplyInv(w, a, 0, Snapshot("", 0));
    case DoEvent(num, global) => QuietInv(w, AcceptEvent(s, num, global));
    case DoObserve(snap) => QuietInv(w, Observe(s, snap));
    case DoAdvance => QuietInv(w, s.(connectionEpoch := s.connectionEpoch + 1));
  }

  lemma {:induction false} ReplyInv(w: World, a: Attempt, epoch: nat, snap: Snapshot)
    requires Inv(w)
    ensures Inv(w.(state := RememberIfCurrent(w.state, a, snap)))
    ensures Inv(w.(state := RememberReconnect(w.state, a, epoch, snap)))
    ensures Inv(w.(state := ClearFailed(w.state, a)))
    ensures Inv(w.(state := ClearUnacknowledged(w.state, a)))
  {
    ReplySound(w.state, a, epoch, snap);
    QuietInv(w, RememberIfCurrent(w.state, a, snap));
    QuietInv(w, RememberReconnect(w.state, a, epoch, snap));
    QuietInv(w, ClearFailed(w.state, a));
    QuietInv(w, ClearUnacknowledged(w.state, a));
  }

  /** A run uses each request id once, in whatever order. */
  predicate Runs(w: World, ops: seq<Op>)
    decreases |ops|
  {
    ops == [] || (Fresh(w, ops[0]) && Runs(Step(w, ops[0]), ops[1..]))
  }

  function Exec(w: World, ops: seq<Op>): World
    decreases |ops|
  {
    if ops == [] then w else Exec(Step(w, ops[0]), ops[1..])
  }

  lemma {:induction false} RunInv(w: World, ops: seq<Op>)
    requires Inv(w) && Runs(w, ops)
    ensures Inv(Exec(w, ops)) && Exec(w, ops).superseded >= w.superseded && w.issued <= Exec(w, ops).issued
    decreases |ops|
  {
    if ops != [] {
      StepInv(w, ops[0]);
      RunInv(Step(w, ops[0]), ops[1..]);
    }
  }

  /** `a` is a superseded attempt, or a copy of one that an acknowledgement or a reconnect has changed
      in target or connection. */
  ghost predicate Superseded(w: World, a: Attempt) {
    exists i :: 0 <= i < w.superseded <= |w.issued|
      && w.issued[i].requestId == a.requestId && w.issued[i].sessionEpoch == a.sessionEpoch
  }

  /** No reply for the attempt is remembered, no failure or abandonment of it clears anything, and it is
      never sent, taken as current or committed. */
  ghost predicate Inert(s: State, a: Attempt) {
    && (forall snap :: RememberIfCurrent(s, a, snap) == s)
    && (forall epoch: nat, snap :: RememberReconnect(s, a, epoch, snap) == s)
    && ClearFailed(s, a) == s && ClearUnacknowledged(s, a) == s
    && !OutgoingCurrent(s, a) && (forall session :: !AttachCurrent(s, a, session))
    && (forall session :: !CommitValid(s, Some(a), Some(session)))
  }

  lemma {:induction false} SupersededIsInert(w: World, a: Attempt)
    requires Inv(w) && Superseded(w, a)
    ensures Inert(w.state, a)
  {
    var i :| 0 <= i < w.superseded <= |w.issued|
      && w.issued[i].requestId == a.requestId && w.issued[i].sessionEpoch == a.sessionEpoch;
    assert Stale(w.state, w.issued[i]);
  }

  /** Once superseded, an attempt is inert in every later state, in every copy. */
  lemma {:induction false} StaleRepliesAreInert(w: World, ops: seq<Op>, a: Attempt)
    requires Inv(w) && Superseded(w, a) && Runs(w, ops)
    ensures Superseded(Exec(w, ops), a) && Inert(Exec(w, ops).state, a)
  {
    RunInv(w, ops);
    var end := Exec(w, ops);
    var i :| 0 <= i < w.superseded <= |w.issued|
      && w.issued[i].requestId == a.requestId && w.issued[i].sessionEpoch == a.sessionEpoch;
    assert end.issued[i] == w.issued[i];
    SupersededIsInert(end, a);
  }

  /** Starting over supersedes everything issued before it. */
  lemma {:induction false} StartingOverSupersedes(w: World, op: Op, a: Attempt)
    requires Inv(w) && a in w.issued
    requires op.DoBeginAttach? || op.DoBeginDetach?
      || (op.DoRetry? && RetryAttempt(w.state, op.target, op.id).Some?)
      || (op.DoRenew? && RenewAttempt(w.state, op.id).Some?)
    ensures Superseded(Step(w, op), a)
  {
    var i :| 0 <= i < |w.issued| && w.issued[i] == a;
    assert Step(w, op).issued[i] == a && Step(w, op).superseded == |w.issued|;
  }

  /** The race of a user attach with a reconnect: the attach draws its id first, the reconnect draws a
      later one and renews before it. The renewal is superseded, the attach is desired. */
  lemma {:induction false} ReconnectRace(w: World, target: Target, key: string, early: nat, late: nat)
    requires Inv(w) && w.state.desired.Some? && early < late && early !in w.used && late !in w.used
    ensures var ops := [DoRenew(late), DoBeginAttach(target, key, early)];
      && Runs(w, ops)
      && Superseded(Exec(w, ops), RenewAttempt(w.state, late).value)
      && Exec(w, ops).state.desired == Some(AttachAttempt(w.state, target, early, key))
  {
    var ops := [DoRenew(late), DoBeginAttach(target, key, early)];
    var renewed := Step(w, ops[0]);
    IssueStepInv(w, ops[0]);
    var rest := ops[1..];
    assert rest == [DoBeginAttach(target, key, early)] && rest[1..] == [];
    assert Exec(Step(renewed, rest[0]), rest[1..]) == Step(renewed, rest[0])
      && Exec(renewed, rest) == Step(renewed, rest[0]);
    var a := RenewAttempt(w.state, late).value;
    assert renewed.issued[|w.issued|] == a && a in renewed.issued;
    StartingOverSupersedes(renewed, rest[0], a);
  }

  /** In every reachable state an attached session is the one the desired attempt would resume, and
      attempts of one session epoch share their idempotency key. */
  lemma {:induction false} AttachedIsDesired(connectionEpoch: nat, used: set<nat>, ops: seq<Op>)
    requires Runs(Begun(connectionEpoch, used), ops)
    ensures var w := Exec(Begun(connectionEpoch, used), ops);
      && (w.state.attached.Some? ==>
            && w.state.desired.Some? && w.state.desired.value.target == Resume(w.state.attached.value)
            && w.state.desired.value.sessionEpoch == w.state.sessionEpoch)
      && (forall i, j | 0 <= i < j < |w.issued| ::
            w.issued[i].sessionEpoch == w.issued[j].sessionEpoch ==> w.issued[i].key == w.issued[j].key)
  {
    InitialInv(connectionEpoch, used);
    RunInv(Begun(connectionEpoch, used), ops);
  }

  // --- Session events are delivered in order ---

  /** The steps that forget the event floor. */
  predicate Resets(w: World, op: Op) {
    || op.DoBeginAttach? || op.DoBeginDetach?
    || (op.DoClearFailed? && OutgoingCurrent(w.state, op.attempt))
    || (op.DoClearUnacknowledged? && Unacknowledged(w.state, op.attempt))
  }

  ghost predicate NeverResets(w: World, ops: seq<Op>)
    decreases |ops|
  {
    ops == [] || (!Resets(w, ops[0]) && NeverResets(Step(w, ops[0]), ops[1..]))
  }

  /** The seqs of the session events a run accepts. */
  ghost function AcceptedSeqs(w: World, ops: seq<Op>): seq<nat>
    decreases |ops|
  {
    if ops == [] then []
    else
      (if ops[0].DoEvent? && !ops[0].global && AcceptsEvent(w.state, ops[0].num, false) then [ops[0].num] else [])
      + AcceptedSeqs(Step(w, ops[0]), ops[1..])
  }

  ghost predicate RisingAbove(seqs: seq<nat>, floor: nat) {
    && (forall i | 0 <= i < |seqs| :: seqs[i] > floor)
    && (forall i, j | 0 <= i < j < |seqs| :: seqs[i] < seqs[j])
  }

  lemma {:induction false} FloorRises(w: World, op: Op)
    requires Inv(w) && !Resets(w, op)
    ensures Step(w, op).state.lastSessionSeq >= w.state.lastSessionSeq
    ensures op.DoEvent? && !op.global && AcceptsEvent(w.state, op.num, false) ==>
      Step(w, op).state.lastSessionSeq == op.num > w.state.lastSessionSeq
  {
  }

  lemma {:induction false} RisingCons(num: nat, tail: seq<nat>, floor: nat)
    requires num > floor && RisingAbove(tail, num)
    ensures RisingAbove([num] + tail, floor)
  {
    var seqs := [num] + tail;
    assert forall i | 0 < i < |seqs| :: seqs[i] == tail[i - 1];
  }

  lemma {:induction false} RisingLower(tail: seq<nat>, high: nat, floor: nat)
    requires floor <= high && RisingAbove(tail, high)
    ensures RisingAbove(tail, floor)
  {
  }

  /** While the floor is not reset, accepted session events have strictly increasing seqs, all above
      the floor the run started from, across retries, reconnects and repeated snapshots. */
  lemma {:induction false} EventsIncrease(w: World, ops: seq<Op>)
    requires Inv(w) && Runs(w, ops) && NeverResets(w, ops)
    ensures Exec(w, ops).state.lastSessionSeq >= w.state.lastSessionSeq
    ensures RisingAbove(AcceptedSeqs(w, ops), w.state.lastSessionSeq)
    decreases |ops|
  {
    if ops != [] {
      StepInv(w, ops[0]);
      FloorRises(w, ops[0]);
      var next := Step(w, ops[0]);
      EventsIncrease(next, ops[1..]);
      var seqs, tail := AcceptedSeqs(w, ops), AcceptedSeqs(next, ops[1..]);
      if ops[0].DoEvent? && !ops[0].global && AcceptsEvent(w.state, ops[0].num, false) {
        assert seqs == [ops[0].num] + tail;
        RisingCons(ops[0].num, tail, w.state.lastSessionSeq);
      } else {
        assert seqs == tail;
        RisingLower(tail, next.state.lastSessionSeq, w.state.lastSessionSeq);
      }
    }
  }
}

/** The lifecycle object itself; each method runs under the transition lock and is one step of a run. */
module LifecycleObject {
  import opened Common
  import opened LifecycleModel

  class LifecycleState {
    var connectionEpoch: nat
    var sessionEpoch: nat
    var desiredAttach: Option<Attempt>
    var attachedSession: Option<string>
    var snapshotSeq: nat
    var lastSessionSeq: nat

    /** The contexts in which the commit callback ran. */
    var commits: seq<Context>

    /** The run so far. */
    ghost var world: World

    ghost function View(): State
      reads this
    {
      State(connectionEpoch, sessionEpoch, desiredAttach, attachedSession, snapshotSeq, lastSessionSeq)
    }

    ghost predicate Valid()
      reads this
    {
      world.state == View() && Inv(world)
    }

    constructor (connectionEpoch: nat, ghost used: set<nat>)
      ensures Valid() && world == Begun(connectionEpoch, used) && commits == []
    {
      this.connectionEpoch, sessionEpoch := connectionEpoch, 0;
      desiredAttach, attachedSession, snapshotSeq, lastSessionSeq, commits := None, None, 0, 0, [];
      world := Begun(connectionEpoch, used);
    }

    /** Adds a step to the run. */
    ghost method Note(op: Op)
      requires Inv(world) && Fresh(world, op) && View() == Step(world, op).state
      modifies this`world
      ensures Valid() && world == Step(old(world), op)
    {
      StepInv(world, op);
      world := Step(world, op);
    }

    method Reset()
      modifies this`attachedSession, this`snapshotSeq, this`lastSessionSeq
      ensures View() == Unattached(old(View()))
    {
      attachedSession, snapshotSeq, lastSessionSeq := None, 0, 0;
    }

    /** The request id is one that no earlier step used, whatever its order. Everything issued before is
        superseded. */
    method BeginAttach(target: Target, requestId: nat, key: string) returns (attempt: Attempt)
      requires Valid() && requestId !in world.used
      modifies this
      ensures commits == old(commits)
      ensures Valid() && world == Step(old(world), DoBeginAttach(target, key, requestId))
      ensures attempt == AttachAttempt(old(View()), target, requestId, key) && desiredAttach == Some(attempt)
      ensures forall a | a in old(world).issued :: Superseded(world, a)
    {
      ghost var before := world;
      sessionEpoch := sessionEpoch + 1;
      attempt := Attempt(requestId, key, target, sessionEpoch, connectionEpoch);
      desiredAttach := Some(attempt);
      Reset();
      ghost var op := DoBeginAttach(target, key, requestId);
      Note(op);
      forall a | a in before.issued ensures Superseded(world, a) { StartingOverSupersedes(before, op, a); }
    }

    method BeginDetach()
      requires Valid()
      modifies this
      ensures commits == old(commits)
      ensures Valid() && world == Step(old(world), DoBeginDetach)
      ensures forall a | a in old(world).issued :: Superseded(world, a)
    {
      ghost var before := world;
      sessionEpoch := sessionEpoch + 1;
      desiredAttach := None;
      Reset();
      Note(DoBeginDetach);
      forall a | a in before.issued ensures Superseded(world, a) { StartingOverSupersedes(before, DoBeginDetach, a); }
    }

    method RetryAttach(target: Target, requestId: nat) returns (attempt: Option<Attempt>)
      requires Valid() && requestId !in world.used
      modifies this
      ensures commits == old(commits)
      ensures Valid() && world == Step(old(world), DoRetry(target, requestId))
      ensures attempt == RetryAttempt(old(View()), target, requestId)
      ensures attempt.Some? ==> forall a | a in old(world).issued :: Superseded(world, a)
    {
      ghost var before, op := world, DoRetry(target, requestId);
      if desiredAttach.None? || desiredAttach.value.target != target || attachedSession.Some? {
        Note(op);
        return None;
      }
      var desired := desiredAttach.value;
      attempt := Some(Attempt(requestId, desired.key, desired.target, desired.sessionEpoch, connectionEpoch));
      desiredAttach := attempt;
      Note(op);
      forall a | a in before.issued ensures Superseded(world, a) { StartingOverSupersedes(before, op, a); }
    }

    method RenewAttachRequestId(requestId: nat) returns (attempt: Option<Attempt>)
      requires Valid() && requestId !in world.used
      modifies this
      ensures commits == old(commits)
      ensures Valid() && world == Step(old(world), DoRenew(requestId))
      ensures attempt == RenewAttempt(old(View()), requestId)
      ensures attempt.Some? ==> forall a | a in old(world).issued :: Superseded(world, a)
    {
      ghost var before, op := world, DoRenew(requestId);
      if desiredAttach.None? {
        Note(op);
        return None;
      }
      attempt := Some(desiredAttach.value.(requestId := requestId, connectionEpoch := connectionEpoch));
      desiredAttach := attempt;
      Note(op);
      forall a | a in before.issued ensures Superseded(world, a) { StartingOverSupersedes(before, op, a); }
    }

    /** `monotonic` is None when the reply is not for the desired attempt. */
    method RememberAttachedUnlocked(attempt: Attempt, snap: Snapshot) returns (monotonic: Option<bool>)
      modifies this`desiredAttach, this`attachedSession, this`snapshotSeq, this`lastSessionSeq
      ensures View() == RememberAttached(old(View()), attempt, snap)
      ensures monotonic == if DesiredCurrent(old(View()), attempt) then Some(snap.num >= old(snapshotSeq)) else None
    {
      if sessionEpoch != attempt.sessionEpoch || desiredAttach.None?
        || desiredAttach.value.requestId != attempt.requestId
         || desiredAttach.value.key != attempt.key || desiredAttach.value.target != attempt.target {
        return None;
      }
      monotonic := Some(snap.num >= snapshotSeq);
      snapshotSeq := Max(snapshotSeq, snap.num);
      desiredAttach := Some(attempt.(target := Resume(snap.session), connectionEpoch := connectionEpoch));
      attachedSession := Some(snap.session);
      lastSessionSeq := Max(lastSessionSeq, snap.num);
    }

    /** A reply to a superseded attempt changes nothing. */
    method RememberIfCurrent(attempt: Attempt, snap: Snapshot) returns (monotonic: Option<bool>)
      requires Valid()
      modifies this
      ensures commits == old(commits)
      ensures Valid() && world == Step(old(world), DoRemember(attempt, snap))
      ensures monotonic == if OutgoingCurrent(old(View()), attempt) then Some(snap.num >= old(snapshotSeq)) else None
      ensures Superseded(old(world), attempt) ==> monotonic.None? && View() == old(View())
    {
      if Superseded(world, attempt) { SupersededIsInert(world, attempt); }
      if connectionEpoch != attempt.connectionEpoch {
        monotonic := None;
      } else {
        monotonic := RememberAttachedUnlocked(attempt, snap);
      }
      Note(DoRemember(attempt, snap));
    }

    method RememberReconnect(attempt: Attempt, epoch: nat, snap: Snapshot) returns (monotonic: Option<bool>)
      requires Valid()
      modifies this
      ensures commits == old(commits)
      ensures Valid() && world == Step(old(world), DoRememberReconnect(attempt, epoch, snap))
      ensures monotonic == if old(connectionEpoch) == epoch && DesiredCurrent(old(View()), attempt)
        then Some(snap.num >= old(snapshotSeq)) else None
      ensures Superseded(old(world), attempt) ==> monotonic.None? && View() == old(View())
    {
      if Superseded(world, attempt) { SupersededIsInert(world, attempt); }
      if connectionEpoch != epoch {
        monotonic := None;
      } else {
        monotonic := RememberAttachedUnlocked(attempt, snap);
      }
      Note(DoRememberReconnect(attempt, epoch, snap));
    }

    method ClearFailedAttach(attempt: Attempt) returns (context: Option<Context>)
      requires Valid()
      modifies this
      ensures commits == old(commits)
      ensures Valid() && world == Step(old(world), DoClearFailed(attempt))
      ensures context == if OutgoingCurrent(old(View()), attempt) then Some(ContextOf(View())) else None
      ensures Superseded(old(world), attempt) ==> context.None? && View() == old(View())
    {
      if Superseded(world, attempt) { SupersededIsInert(world, attempt); }
      context := None;
      if connectionEpoch == attempt.connectionEpoch && sessionEpoch == attempt.sessionEpoch && desiredAttach.Some?
         && desiredAttach.value.requestId == attempt.requestId && desiredAttach.value.key == attempt.key
         && desiredAttach.value.target == attempt.target {
        desiredAttach := None;
        Reset();
        context := Some(Context(connectionEpoch, sessionEpoch, attachedSession));
      }
      Note(DoClearFailed(attempt));
    }

    /** Rolls back an attach whose waiter is gone, so that it can be retried as first asked. */
    method ClearUnacknowledgedAttachState(attempt: Attempt)
      requires Valid()
      modifies this
      ensures commits == old(commits)
      ensures Valid() && world == Step(old(world), DoClearUnacknowledged(attempt))
      ensures Superseded(old(world), attempt) ==> View() == old(View())
    {
      if Superseded(world, attempt) { SupersededIsInert(world, attempt); }
      if connectionEpoch == attempt.connectionEpoch && sessionEpoch == attempt.sessionEpoch && desiredAttach.Some? {
        var desired := desiredAttach.value;
        if desired.requestId == attempt.requestId && desired.key == attempt.key
           && desired.sessionEpoch == attempt.sessionEpoch && desired.connectionEpoch == attempt.connectionEpoch {
          desiredAttach := Some(desired.(target := attempt.target));
          Reset();
        }
      }
      Note(DoClearUnacknowledged(attempt));
    }

    method AcceptedEventContext(num: nat, global: bool) returns (context: Option<Context>)
      requires Valid()
      modifies this
      ensures commits == old(commits)
      ensures Valid() && world == Step(old(world), DoEvent(num, global))
      ensures context == if AcceptsEvent(old(View()), num, global) then Some(ContextOf(View())) else None
    {
      var accepted := global;
      if !global && attachedSession.Some? && num > snapshotSeq && num > lastSessionSeq {
        lastSessionSeq := num;
        accepted := true;
      }
      context := if accepted then Some(Context(connectionEpoch, sessionEpoch, attachedSession)) else None;
      Note(DoEvent(num, global));
    }

    method AcceptedResyncContext(current: Option<nat>) returns (context: Option<Context>)
      ensures context == if AcceptsResync(View(), current) then Some(ContextOf(View())) else None
    {
      var floor := Max(snapshotSeq, lastSessionSeq);
      if attachedSession.None? || (current.Some? && current.value <= floor) { return None; }
      context := Some(Context(connectionEpoch, sessionEpoch, attachedSession));
    }

    method ObserveSnapshot(snap: Snapshot) returns (observed: bool)
      requires Valid()
      modifies this
      ensures commits == old(commits)
      ensures Valid() && world == Step(old(world), DoObserve(snap)) && observed == Observes(old(View()), snap)
    {
      observed := attachedSession == Some(snap.session) && snap.num >= snapshotSeq;
      if observed {
        snapshotSeq := Max(snapshotSeq, snap.num);
        lastSessionSeq := Max(lastSessionSeq, snap.num);
      }
      Note(DoObserve(snap));
    }

    /** Publishes a reconnect with this attempt and snapshot. The commit runs once, and only if the
        attempt and the session still agree with the state; a superseded attempt is never committed. */
    method CommitConnection(attempt: Option<Attempt>, session: Option<string>) returns (context: Option<Context>)
      requires Valid()
      modifies this`commits
      ensures Valid() && View() == old(View()) && world == old(world)
      ensures context == if CommitValid(View(), attempt, session) then Some(ContextOf(View())) else None
      ensures commits == if context.Some? then old(commits) + [context.value] else old(commits)
      ensures attempt.Some? && Superseded(world, attempt.value) ==> commits == old(commits)
    {
      if attempt.Some? && Superseded(world, attempt.value) { SupersededIsInert(world, attempt.value); }
      var valid := false;
      if attempt.Some? && session.Some? {
        valid := desiredAttach.Some? && desiredAttach.value.requestId == attempt.value.requestId
          && desiredAttach.value.key == attempt.value.key
          && desiredAttach.value.sessionEpoch == attempt.value.sessionEpoch
          && desiredAttach.value.connectionEpoch == attempt.value.connectionEpoch && attachedSession == session;
      } else if attempt.None? && session.None? {
        valid := desiredAttach.None? && attachedSession.None?;
      }
      if !valid { return None; }
      var current := Context(connectionEpoch, sessionEpoch, attachedSession);
      commits := commits + [current];
      return Some(current);
    }

    method AdvanceConnection() returns (epoch: nat)
      requires Valid()
      modifies this
      ensures commits == old(commits)
      ensures Valid() && world == Step(old(world), DoAdvance)
      ensures epoch == old(connectionEpoch) + 1 == connectionEpoch
    {
      connectionEpoch := connectionEpoch + 1;
      Note(DoAdvance);
      return connectionEpoch;
    }
  }
}
