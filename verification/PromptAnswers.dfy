/** What a prompt answers to every event, and that a turn which ends ends its prompt
    (crates/pacode-acp/src/session.rs). */
module PromptAnswers {
  import opened Common
  import opened PromptModel

  // --- Snapshots ---

  /** The daemon does not show the own turn, and the admission may still be reissued. */
  predicate MustReissue(s: State, snap: Snapshot) {
    && s.submitted && !s.confirmed && s.request.Some? && s.fenceAttempts < 3
    && s.expectedTurn != if snap.turnActive then snap.activeTurn else snap.terminalTurn
  }

  /** How a snapshot that ends the prompt reports it: a failure above the prompt's floor, the snapshot's
      own or one it lists, else the state of the agent. */
  function EndReport(s: State, snap: Snapshot): Outcome {
    var listed := FirstFailure(snap.failures, s.transcriptFloor);
    if snap.num > s.floorSeq && snap.terminalError.Some? then TurnFailed(snap.terminalError.value)
    else if snap.num > s.floorSeq && listed.Some? then TurnFailed(listed.value)
    else Finished(if snap.mainStatus == Some(Stopped) then Cancelled else EndTurn)
  }

  /** What the prompt answers to a snapshot that it applies. */
  function SnapshotAnswer(s: State, snap: Snapshot, a: Answers): Outcome {
    if MustReissue(s, snap) then (if a.reissueOk then Continue else Broken)
    else if SnapshotEnds(s, snap) then EndReport(s, snap)
    else Continue
  }

  lemma {:induction false} AppliedAnswer(w: World, c: Context, snap: Snapshot, a: Answers)
    requires OwnTurn(w.state) && AcceptsSnapshot(w.state, c, snap)
    ensures var (t, o) := Decide(Next(w, SnapshotIn(c, snap)), snap, a);
      && o == SnapshotAnswer(w.state, snap, a)
      && t.reissues == w.reissues + (if MustReissue(w.state, snap) then 1 else 0)
  {
  }

  /** The prompt's session, in its epoch, on a connection that is not older than `connection`. */
  predicate Fits(s: State, c: Context, connection: nat) {
    c.session == Some(s.session) && c.sessionEpoch == s.expected.sessionEpoch && c.connectionEpoch >= connection
  }

  /** What the prompt answers to a snapshot in an event or in the reply to a resync, once it is accepted. */
  function DeliveredAnswer(s: State, snap: Snapshot, handled: bool, a: Answers): Outcome {
    if !handled then Broken else if !a.allowCompletion then Continue else SnapshotAnswer(s, snap, a)
  }

  /** The answer to a snapshot event, in every admission state. A snapshot is refused if it is not of the
      prompt's session and epoch, or older than the connection or than what was applied in its context. */
  lemma {:induction false} SnapshotEventAnswer(w: World, c: Context, snap: Snapshot, handled: bool, a: Answers)
    requires OwnTurn(w.state) && !a.cancelled
    ensures var o, s := Process(w, SnapshotEvent(c, snap, handled), a).1, w.state;
      if snap.session == s.session && Fits(s, c, s.expected.connectionEpoch)
         && (snap.num >= s.sessionSeq || c != s.expected || !s.ready || !s.applied)
      then o == DeliveredAnswer(s, snap, handled, a) else o == Continue
  {
    if AcceptsSnapshot(w.state, c, snap) { AppliedAnswer(w, c, snap, a); }
  }

  /** The answer to a resync, in every admission state: what the fetched snapshot asks for, unless that is
      of another session or epoch or of an older connection. */
  lemma {:induction false} ResyncAnswer(w: World, c: Context, a: Answers)
    requires OwnTurn(w.state) && !a.cancelled
    ensures var o := Process(w, ResyncNeeded(c), a).1;
      if !Fits(w.state, c, w.state.expected.connectionEpoch) || !a.connected then o == Continue
      else match FetchAt(a, 0)
        case Unavailable => o == Continue
        case FetchError => o == Broken
        case Got(c1, snap, handled) =>
          if snap.session == w.state.session && Fits(w.state, c1, c.connectionEpoch)
          then o == DeliveredAnswer(w.state, snap, handled, a) else o == Continue
  {
    if AcceptsContext(w.state, c) && a.connected && FetchAt(a, 0).Got? {
      var Got(c1, snap, handled) := FetchAt(a, 0);
      var t := Next(w, ResyncIn(c));
      if AcceptsSnapshot(t.state, c1, snap) {
        AppliedAnswer(t, c1, snap, a);
        assert SnapshotAnswer(t.state, snap, a) == SnapshotAnswer(w.state, snap, a);
      }
    }
  }

  /** A snapshot that is delivered ends the prompt if and only if it shows the end of its turn. */
  lemma {:induction false} DeliveredSnapshotEnds(w: World, e: ClientEvent, a: Answers)
    requires OwnTurn(w.state) && !a.cancelled && (e.SnapshotEvent? || (e.ResyncNeeded? && a.connected))
    ensures Reports(Process(w, e, a).1) <==>
      && a.allowCompletion && Applied(w, e, a).Some? && (e.ResyncNeeded? ==> AcceptsContext(w.state, e.context))
      && SnapshotEnds(w.state, Applied(w, e, a).value)
  {
    if e.SnapshotEvent? {
      SnapshotEventAnswer(w, e.context, e.snap, e.handled, a);
    } else {
      ResyncAnswer(w, e.context, a);
      if FetchAt(a, 0).Got? && AcceptsContext(w.state, e.context) {
        var f := FetchAt(a, 0);
        assert AcceptsSnapshot(Next(w, ResyncIn(e.context)).state, f.context, f.snap) <==>
          f.snap.session == w.state.session && Fits(w.state, f.context, e.context.connectionEpoch);
      }
    }
  }

  /** The answer of the recovery: what the first of three fetched snapshots that is accepted asks for. */
  function RecoveryAnswer(s: State, a: Answers, k: nat): Outcome
    decreases 3 - k
  {
    if k >= 3 || !FetchAt(a, k).Got? then Broken
    else
      var Got(c, snap, handled) := FetchAt(a, k);
      if AcceptsSnapshot(s, c, snap) then (if handled then SnapshotAnswer(s, snap, a) else Broken)
      else RecoveryAnswer(s, a, k + 1)
  }

  lemma {:induction false} RecoverAnswers(w: World, a: Answers, k: nat)
    requires OwnTurn(w.state) && w.state.admission.AwaitingNewTurn?
    ensures Recover(w, a, k).1 == RecoveryAnswer(w.state, a, k)
    decreases 3 - k
  {
    if k < 3 && FetchAt(a, k).Got? {
      var Got(c, snap, handled) := FetchAt(a, k);
      if AcceptsSnapshot(w.state, c, snap) {
        BoundaryAnswer(w, c, snap, a);
      } else {
        RecoverAnswers(Next(w, SnapshotIn(c, snap)), a, k + 1);
      }
    }
  }

  lemma {:induction false} BoundaryAnswer(w: World, c: Context, snap: Snapshot, a: Answers)
    requires OwnTurn(w.state) && w.state.admission.AwaitingNewTurn? && AcceptsSnapshot(w.state, c, snap)
    ensures var t := Next(Next(w, SnapshotIn(c, snap)), BoundaryIn(snap.turnActive));
      Decide(t, snap, a).1 == SnapshotAnswer(w.state, snap, a)
  {
  }

  /** While a new turn is awaited, the end of any turn of the main agent is answered by the recovery. */
  lemma {:induction false} AwaitedEndAnswer(w: World, c: Context, num: nat, turn: string, stop: Stop, a: Answers)
    requires OwnTurn(w.state) && w.state.admission.AwaitingNewTurn? && !a.cancelled && a.allowCompletion
    requires c == w.state.expected && w.state.ready && num > w.state.sessionSeq
    ensures Process(w, Wire(c, num, TurnEnded(true, turn, stop)), a).1 ==
      RecoveryAnswer(w.state.(sessionSeq := num), a, 0)
  {
    RecoverAnswers(Next(w, WireIn(c, num, TurnEnded(true, turn, stop))), a, 0);
  }

  /** The turn a snapshot shows: an own turn that runs is active, an own turn that is over is confirmed
      and leaves the prompt idle, another running turn leaves an active one alone and is waited out
      otherwise, and without any turn a prompt that waits goes on waiting. */
  lemma {:induction false} SnapshotAdmits(s: State, c: Context, snap: Snapshot)
    requires OwnTurn(s) && AcceptsSnapshot(s, c, snap)
    ensures var t, own := AcceptSnapshot(s, c, snap), s.expectedTurn.value;
      && t.expected == c && t.ready && t.sessionSeq == snap.num
      && (forall num: nat, e: Event :: !e.GlobalEvent? ==> (AcceptsEvent(t, c, num, e) <==> num > snap.num))
      && (snap.turnActive && snap.activeTurn == Some(own) ==> t.admission == Active(own) && t.confirmed)
      && (!snap.turnActive && snap.terminalTurn == Some(own) ==> t.admission == Idle && t.confirmed)
      && (snap.turnActive && snap.activeTurn != Some(own) ==>
            && t.confirmed == s.confirmed
            && t.admission == if s.admission.Active? then s.admission else AwaitingNewTurn)
      && (!snap.turnActive && snap.terminalTurn != Some(own) ==>
            && t.confirmed == s.confirmed
            && t.admission == if s.admission.AwaitingNewTurn? then AwaitingNewTurn else Idle)
  {
  }

  // --- Session events ---

  /** What an accepted session event does to the turns: only the start of the own turn and its end while it
      is active do anything. */
  lemma {:induction false} EventAdmits(w: World, c: Context, num: nat, e: Event, a: Answers)
    requires OwnTurn(w.state) && AcceptsEvent(w.state, c, num, e) && !e.GlobalEvent? && !e.PermissionRequested?
    requires !a.cancelled && !(e.TurnEnded? && e.main && w.state.admission.AwaitingNewTurn?)
    ensures var (t, o) := Process(w, Wire(c, num, e), a);
      var own := w.state.expectedTurn.value;
      && t.state.sessionSeq == num && t.state.expected == c && t.state.ready == w.state.ready
      && (if e == TurnStarted(true, own) then t.state.admission == Active(own) && t.state.confirmed
          else
            && t.state.confirmed == w.state.confirmed
            && t.state.admission ==
                 if e.TurnEnded? && e.main && e.turn == own && w.state.admission.Active? then Idle
                 else w.state.admission)
      && (!e.TurnEnded? ==> o == if a.sendOk then Continue else Broken)
  {
  }

  /** A permission request is answered. A session event is refused outside the current context, behind a
      gap and below the floor; a global one if it names another session or an older connection. */
  lemma {:induction false} OtherAnswers(w: World, c: Context, num: nat, e: Event, a: Answers)
    requires !a.cancelled
    ensures var o, s := Process(w, Wire(c, num, e), a).1, w.state;
      if !e.GlobalEvent? then
        && (c != s.expected || !s.ready || num <= s.sessionSeq ==> o == Continue)
        && (c == s.expected && s.ready && num > s.sessionSeq && e.PermissionRequested? ==>
              o == if a.permissionOk then Continue else Broken)
      else if (c.session.Some? && c.session != Some(s.session))
        || 0 < c.connectionEpoch < s.expected.connectionEpoch then o == Continue
      else
        && o == (if a.sendOk then Continue else Broken)
        && (Process(w, Wire(c, num, e), a).0.state.ready <==>
              s.ready && c.connectionEpoch <= s.expected.connectionEpoch)
  {
  }

  /** An attach that is not older failed to resume the prompt's session. */
  predicate LosesSession(s: State, c: Context, target: Option<string>) {
    target == Some(s.session) && c.session in {None, Some(s.session)} && NotOlder(c, s.expected)
  }

  /** A cancelled prompt breaks off; a failed attach of its session breaks it; the other connection events
      pass and close the gate. */
  lemma {:induction false} ConnectionAnswers(w: World, e: ClientEvent, a: Answers)
    ensures a.cancelled ==> Process(w, e, a) == (w, Broken)
    ensures !a.cancelled && (e.Disconnected? || e.Reconnecting?) ==>
      Process(w, e, a).1 == Continue && !Process(w, e, a).0.state.ready
    ensures !a.cancelled && e.Connected? ==>
      && Process(w, e, a).1 == Continue
      && (Fits(w.state, e.context, w.state.expected.connectionEpoch + 1) ==> !Process(w, e, a).0.state.ready)
    ensures !a.cancelled && e.AttachFailed? ==>
      if AcceptsAttachFailed(w.state, e.context, e.target)
      then Process(w, e, a).1 == Broken && !Process(w, e, a).0.state.ready
      else Process(w, e, a) == (w, Continue)
    ensures !a.cancelled && e.AttachFailed? && LosesSession(w.state, e.context, e.target) ==>
      Process(w, e, a).1 == Broken
  {
    if e.AttachFailed? { assert w.trace + [] == w.trace; }
  }

  // --- Whole prompts ---

  /** The prompt's turn runs and its events arrive. */
  ghost predicate Running(s: State, c: Context) {
    OwnTurn(s) && s.expected == c && s.ready && s.admission == Active(s.expectedTurn.value)
  }

  /** An event of the session in context `c` that does not end the own turn, handled without an error. */
  predicate Harmless(e: ClientEvent, a: Answers, c: Context, own: string) {
    && e.Wire? && e.context == c && !a.cancelled && a.sendOk && a.permissionOk
    && !e.event.GlobalEvent? && !(e.event.TurnEnded? && e.event.main && e.event.turn == own)
  }

  lemma {:induction false} StaysRunning(w: World, e: ClientEvent, a: Answers, c: Context)
    requires Running(w.state, c) && Harmless(e, a, c, w.state.expectedTurn.value)
    ensures var (t, o) := Process(w, e, a);
      && o == Continue && Running(t.state, c) && t.state.expectedTurn == w.state.expectedTurn
      && t.state.sessionSeq == Max(w.state.sessionSeq, e.num)
  {
  }

  lemma {:induction false} RunsOn(w: World, events: seq<(ClientEvent, Answers)>, c: Context, bound: nat)
    requires Running(w.state, c) && w.state.sessionSeq < bound
    requires forall i | 0 <= i < |events| ::
      Harmless(events[i].0, events[i].1, c, w.state.expectedTurn.value) && events[i].0.num < bound
    ensures var (t, o) := Loop(w, events);
      && o == Continue && Running(t.state, c) && t.state.expectedTurn == w.state.expectedTurn
      && t.state.sessionSeq < bound
    decreases |events|
  {
    if events != [] {
      StaysRunning(w, events[0].0, events[0].1, c);
      RunsOn(Process(w, events[0].0, events[0].1).0, events[1..], c, bound);
    }
  }

  lemma {:induction false} LoopConcat(w: World, first: seq<(ClientEvent, Answers)>, rest: seq<(ClientEvent, Answers)>)
    requires Loop(w, first).1 == Continue
    ensures Loop(w, first + rest) == Loop(Loop(w, first).0, rest)
    decreases |first|
  {
    if first == [] {
      assert first + rest == rest;
    } else {
      assert (first + rest)[0] == first[0] && (first + rest)[1..] == first[1..] + rest;
      LoopConcat(Process(w, first[0].0, first[0].1).0, first[1..], rest);
    }
  }

  lemma {:induction false} LoopOne(w: World, e: ClientEvent, a: Answers)
    ensures Loop(w, [(e, a)]) == Process(w, e, a)
  {
    assert [(e, a)][1..] == [];
  }

  /** The ordinary run of a prompt: its turn starts, events of the session follow, and the end of the turn
      ends the prompt with the turn's stop. */
  lemma {:induction false} OrdinaryRun(w: World, c: Context, num: nat, started: Answers,
    events: seq<(ClientEvent, Answers)>, last: nat, stop: Stop, ended: Answers)
    requires OwnTurn(w.state) && w.state.expected == c && w.state.ready && w.state.sessionSeq < num < last
    requires !started.cancelled && started.sendOk && !ended.cancelled && ended.allowCompletion
    requires forall i | 0 <= i < |events| ::
      Harmless(events[i].0, events[i].1, c, w.state.expectedTurn.value) && events[i].0.num < last
    ensures var own := w.state.expectedTurn.value;
      var o := Loop(w, [(Wire(c, num, TurnStarted(true, own)), started)] + events
                       + [(Wire(c, last, TurnEnded(true, own, stop)), ended)]).1;
      match stop
      case Completed => o == Finished(EndTurn)
      case Interrupted => o == Finished(Cancelled)
      case Failed(message) => o == TurnFailed(message)
  {
    var own := w.state.expectedTurn.value;
    var start, end := Wire(c, num, TurnStarted(true, own)), Wire(c, last, TurnEnded(true, own, stop));
    LoopOne(w, start, started);
    EventAdmits(w, c, num, TurnStarted(true, own), started);
    var running := Process(w, start, started).0;
    RunsOn(running, events, c, last);
    LoopConcat(w, [(start, started)], events);
    LoopConcat(w, [(start, started)] + events, [(end, ended)]);
    LoopOne(Loop(running, events).0, end, ended);
  }

  /** A prompt that loses its connection learns from the snapshot of the next one that its turn is over. */
  lemma {:induction false} ReconnectFinishes(w: World, c: Context, snap: Snapshot, lost: Answers, back: Answers,
    shown: Answers)
    requires OwnTurn(w.state) && w.state.submitted && snap.session == w.state.session
    requires Fits(w.state, c, w.state.expected.connectionEpoch)
    requires !lost.cancelled && !back.cancelled && !shown.cancelled && shown.allowCompletion
    requires !snap.turnActive && snap.terminalTurn == w.state.expectedTurn && snap.terminalError.None?
    ensures var o := Loop(w, [(Disconnected, lost), (Connected(c), back), (SnapshotEvent(c, snap, true), shown)]).1;
      Reports(o) && (FirstFailure(snap.failures, w.state.transcriptFloor).None? ==>
        o == Finished(if snap.mainStatus == Some(Stopped) then Cancelled else EndTurn))
  {
    var events := [(Disconnected, lost), (Connected(c), back), (SnapshotEvent(c, snap, true), shown)];
    var gone := Process(w, Disconnected, lost).0;
    var again := Process(gone, Connected(c), back).0;
    assert events[1..] == [(Connected(c), back), (SnapshotEvent(c, snap, true), shown)];
    assert events[1..][1..] == [(SnapshotEvent(c, snap, true), shown)];
    LoopOne(again, SnapshotEvent(c, snap, true), shown);
    SnapshotEventAnswer(again, c, snap, true, shown);
    assert Loop(w, events) == Loop(gone, events[1..]);
    assert Loop(gone, events[1..]) == Loop(again, events[1..][1..]);
  }
}
