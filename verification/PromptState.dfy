/** The mutable `PromptEventState` and the event step of crates/pacode-acp/src/session.rs, proved
    against the functions of module `PromptModel`. */
module PromptObject {
  import opened Common
  import opened PromptModel

  class PromptEventState {
    const session: string
    const expectedTurn: Option<string>
    const admissionRequest: Option<string>
    var expected: Context
    var sessionSeq: nat
    var sessionSnapshotReady: bool
    var snapshotApplied: bool
    var admission: Admission
    var promptSubmitted: bool
    var turnStartedConfirmed: bool
    var fenceAttempts: nat
    var promptFloorSeq: nat
    var promptTranscriptFloor: nat

    ghost const start: nat
    ghost var trace: seq<Record>
    ghost var evidence: bool
    ghost var reissues: nat

    function View(): State
      reads this
    {
      State(session, expected, sessionSeq, sessionSnapshotReady, snapshotApplied, admission, promptSubmitted,
            turnStartedConfirmed, expectedTurn, admissionRequest, fenceAttempts, promptFloorSeq, promptTranscriptFloor)
    }

    ghost function Observed(): World
      reads this
    {
      World(View(), start, trace, evidence, reissues)
    }

    constructor NewCorrelated(session: string, context: Context, num: nat, turnActive: bool, turn: string,
      request: Option<string>)
      ensures Observed() == Opened(Correlated(session, context, num, turnActive, turn, request)) && Inv(Observed())
    {
      this.session, expected, sessionSeq, start := session, context, num, num;
      sessionSnapshotReady, snapshotApplied := true, false;
      admission := if turnActive then AwaitingNewTurn else Idle;
      promptSubmitted, turnStartedConfirmed := false, false;
      expectedTurn, admissionRequest, fenceAttempts := Some(turn), request, 0;
      promptFloorSeq, promptTranscriptFloor := num, 0;
      trace, evidence, reissues := [], false, 0;
    }

    /** Brings the observer's notes up to date with an input. */
    ghost method Note(before: World, input: Input)
      requires start == before.start && View() == Apply(before.state, input)
      modifies this`trace, this`evidence, this`reissues
      ensures Observed() == Next(before, input)
    {
      var next := Next(before, input);
      trace, evidence, reissues := next.trace, next.evidence, next.reissues;
    }

    method AcceptContext(context: Context) returns (accepted: bool)
      modifies this`expected
      ensures accepted == AcceptsContext(old(View()), context)
      ensures View() == if accepted then old(View()).(expected := context) else old(View())
    {
      if context.session != Some(session) || context.sessionEpoch != expected.sessionEpoch
         || context.connectionEpoch < expected.connectionEpoch {
        return false;
      }
      expected := context;
      return true;
    }

    method LoseSnapshot()
      modifies this
      ensures View() == Gapped(old(View())) && Observed() == Next(old(Observed()), LostIn)
    {
      ghost var before := Observed();
      sessionSnapshotReady, snapshotApplied := false, false;
      Note(before, LostIn);
    }

    method AcceptConnected(context: Context) returns (accepted: bool)
      modifies this
      ensures accepted == AcceptsContext(old(View()), context)
        && Observed() == Next(old(Observed()), ConnectedIn(context))
    {
      ghost var before := Observed();
      var reconnected := context.connectionEpoch > expected.connectionEpoch;
      accepted := AcceptContext(context);
      if accepted && reconnected {
        sessionSnapshotReady, snapshotApplied := false, false;
      }
      Note(before, ConnectedIn(context));
    }

    method AcceptResync(context: Context) returns (accepted: bool)
      modifies this
      ensures accepted == AcceptsContext(old(View()), context) && Observed() == Next(old(Observed()), ResyncIn(context))
    {
      ghost var before := Observed();
      accepted := AcceptContext(context);
      if accepted {
        sessionSnapshotReady, snapshotApplied := false, false;
      }
      Note(before, ResyncIn(context));
    }

    method AcceptAttachFailed(context: Context, target: Option<string>) returns (accepted: bool)
      modifies this
      ensures accepted == AcceptsAttachFailed(old(View()), context, target)
      ensures Observed() == Next(old(Observed()), AttachFailedIn(context, target))
    {
      ghost var before := Observed();
      accepted := !(target != Some(session) || (context.session.Some? && context.session != Some(session))
        || context.connectionEpoch < expected.connectionEpoch
        || (context.connectionEpoch == expected.connectionEpoch && context.sessionEpoch < expected.sessionEpoch));
      if accepted {
        expected := expected.(connectionEpoch := context.connectionEpoch);
        if context.sessionEpoch != 0 {
          expected := expected.(sessionEpoch := context.sessionEpoch);
        }
        sessionSnapshotReady, snapshotApplied := false, false;
      }
      Note(before, AttachFailedIn(context, target));
    }

    method ApplySnapshotTurns(snap: Snapshot)
      modifies this`admission, this`turnStartedConfirmed
      ensures View() == AdmitTurns(old(View()), snap)
    {
      if snap.turnActive {
        if expectedTurn.Some? && snap.activeTurn == expectedTurn {
          admission, turnStartedConfirmed := Active(expectedTurn.value), true;
        } else if !admission.Active? {
          admission := AwaitingNewTurn;
        }
      } else if expectedTurn.Some? && snap.terminalTurn == expectedTurn {
        admission, turnStartedConfirmed := Idle, true;
      } else if !admission.AwaitingNewTurn? {
        admission := Idle;
      }
    }

    method TakeSnapshot(context: Context, snap: Snapshot) returns (accepted: bool)
      modifies this`expected, this`sessionSeq, this`sessionSnapshotReady, this`snapshotApplied, this`admission,
               this`turnStartedConfirmed
      ensures accepted == AcceptsSnapshot(old(View()), context, snap)
      ensures View() == PromptModel.AcceptSnapshot(old(View()), context, snap)
    {
      if snap.session != session { return false; }
      if context == expected && sessionSnapshotReady && snapshotApplied && snap.num < sessionSeq { return false; }
      accepted := AcceptContext(context);
      if !accepted { return; }
      sessionSeq := snap.num;
      sessionSnapshotReady, snapshotApplied := true, true;
      ApplySnapshotTurns(snap);
    }

    method AcceptSnapshot(context: Context, snap: Snapshot) returns (accepted: bool)
      modifies this
      ensures accepted == AcceptsSnapshot(old(View()), context, snap)
      ensures Observed() == Next(old(Observed()), SnapshotIn(context, snap))
    {
      ghost var before := Observed();
      accepted := TakeSnapshot(context, snap);
      Note(before, SnapshotIn(context, snap));
    }

    method AcceptEvent(context: Context, num: nat, event: Event) returns (accepted: bool)
      modifies this
      ensures accepted == AcceptsEvent(old(View()), context, num, event)
      ensures Observed() == Next(old(Observed()), WireIn(context, num, event))
    {
      ghost var before := Observed();
      if event.GlobalEvent? {
        accepted := !(context.session.Some? && context.session != Some(session))
          && (context.connectionEpoch == 0 || context.connectionEpoch >= expected.connectionEpoch);
        if accepted && context.connectionEpoch > expected.connectionEpoch {
          expected := expected.(connectionEpoch := context.connectionEpoch);
          sessionSnapshotReady, snapshotApplied := false, false;
        }
      } else {
        accepted := context == expected && sessionSnapshotReady && num > sessionSeq;
        if accepted {
          sessionSeq := num;
          if event.TurnStarted? && event.main && (expectedTurn.None? || expectedTurn == Some(event.turn)) {
            admission, turnStartedConfirmed := Active(event.turn), true;
          }
        }
      }
      Note(before, WireIn(context, num, event));
    }

    method CompleteTurn(main: bool, turn: string) returns (completed: bool)
      modifies this
      ensures completed == EndsActiveTurn(old(View()), main, turn)
      ensures Observed() == Next(old(Observed()), CompleteIn(main, turn))
    {
      ghost var before := Observed();
      completed := main && admission == Active(turn);
      if completed { admission := Idle; }
      Note(before, CompleteIn(main, turn));
    }

    method RecordSnapshotBoundary(turnActive: bool)
      modifies this
      ensures Observed() == Next(old(Observed()), BoundaryIn(turnActive))
    {
      ghost var before := Observed();
      if !(admission.AwaitingNewTurn? && !turnActive) {
        admission := if turnActive then AwaitingNewTurn else Idle;
      }
      Note(before, BoundaryIn(turnActive));
    }

    method TakeAdmissionFence() returns (request: Option<string>)
      modifies this
      ensures request == if Reissues(old(View())) then admissionRequest else None
      ensures Observed() == Next(old(Observed()), FenceIn)
    {
      ghost var before := Observed();
      request := None;
      if promptSubmitted && !turnStartedConfirmed && fenceAttempts < MAX_ATTEMPTS {
        fenceAttempts := fenceAttempts + 1;
        request := admissionRequest;
      }
      Note(before, FenceIn);
    }

    method MarkPromptSubmitted()
      modifies this
      ensures Observed() == Next(old(Observed()), SubmitIn)
    {
      ghost var before := Observed();
      promptSubmitted := true;
      Note(before, SubmitIn);
    }

    method SetPromptFloor(num: nat, transcriptFloor: nat)
      modifies this
      ensures Observed() == Next(old(Observed()), FloorIn(num, transcriptFloor))
    {
      ghost var before := Observed();
      promptFloorSeq, promptTranscriptFloor := num, transcriptFloor;
      Note(before, FloorIn(num, transcriptFloor));
    }

    method DecideAfterSnapshot(snap: Snapshot, answers: Answers) returns (outcome: Outcome)
      modifies this
      ensures (Observed(), outcome) == Decide(old(Observed()), snap, answers)
    {
      var request := TakeAdmissionFence();
      if request.Some? {
        return if answers.reissueOk then Continue else Broken;
      }
      var error := TerminalError(View(), snap);
      if error.Some? { return TurnFailed(error.value); }
      var stop := IdleStop(View(), snap);
      if stop.Some? { return Finished(stop.value); }
      return Continue;
    }

    /** A turn ended while a new one is awaited: ask for snapshots until one applies. */
    method RecoverBoundary(answers: Answers) returns (outcome: Outcome)
      modifies this
      ensures (Observed(), outcome) == Recover(old(Observed()), answers, 0)
    {
      var k := 0;
      while k < MAX_ATTEMPTS
        invariant k <= MAX_ATTEMPTS
        invariant Recover(Observed(), answers, k) == Recover(old(Observed()), answers, 0)
      {
        var fetch := FetchAt(answers, k);
        if !fetch.Got? { return Broken; }
        var applied := AcceptSnapshot(fetch.context, fetch.snap);
        if applied {
          if !fetch.handled { return Broken; }
          RecordSnapshotBoundary(fetch.snap.turnActive);
          outcome := DecideAfterSnapshot(fetch.snap, answers);
          return;
        }
        k := k + 1;
      }
      return Broken;
    }

    /** One step of the prompt loop. An end of turn is reported only with evidence of the prompt's
        own turn. */
    method ProcessPromptEvent(event: ClientEvent, answers: Answers) returns (outcome: Outcome)
      requires Inv(Observed())
      modifies this
      ensures (Observed(), outcome) == Process(old(Observed()), event, answers)
      ensures Inv(Observed()) && (Reports(outcome) ==> evidence)
    {
      ProcessReports(Observed(), event, answers);
      if answers.cancelled { return Broken; }
      match event
      case Wire(context, num, e) =>
        outcome := ProcessWireEvent(context, num, e, answers);
      case SnapshotEvent(context, snap, handled) =>
        var applied := AcceptSnapshot(context, snap);
        if !applied { return Continue; }
        if !handled { return Broken; }
        if !answers.allowCompletion { return Continue; }
        outcome := DecideAfterSnapshot(snap, answers);
      case ResyncNeeded(context) =>
        outcome := ProcessResyncNeeded(context, answers);
      case Connected(context) =>
        var _ := AcceptConnected(context);
        outcome := Continue;
      case AttachFailed(context, target) =>
        var accepted := AcceptAttachFailed(context, target);
        outcome := if accepted then Broken else Continue;
      case Disconnected => LoseSnapshot(); outcome := Continue;
      case Reconnecting => LoseSnapshot(); outcome := Continue;
    }

    method ProcessWireEvent(context: Context, num: nat, event: Event, answers: Answers) returns (outcome: Outcome)
      modifies this
      ensures (Observed(), outcome) == ProcessWire(old(Observed()), context, num, event, answers)
    {
      var accepted := AcceptEvent(context, num, event);
      if !accepted { return Continue; }
      if event.PermissionRequested? { return if answers.permissionOk then Continue else Broken; }
      if event.TurnEnded? {
        if answers.allowCompletion && event.main && admission.AwaitingNewTurn? {
          outcome := RecoverBoundary(answers);
          return;
        }
        if !EndsActiveTurn(View(), event.main, event.turn) { CompleteOther(Observed(), event.main, event.turn); }
        var completed := CompleteTurn(event.main, event.turn);
        if completed && answers.allowCompletion { return StopOutcome(event.stop); }
      }
      return if answers.sendOk then Continue else Broken;
    }

    method ProcessResyncNeeded(context: Context, answers: Answers) returns (outcome: Outcome)
      modifies this
      ensures (Observed(), outcome) == ProcessResync(old(Observed()), context, answers)
    {
      var accepted := AcceptResync(context);
      if !accepted || !answers.connected { return Continue; }
      var fetch := FetchAt(answers, 0);
      if fetch.Unavailable? { return Continue; }
      if fetch.FetchError? { return Broken; }
      var applied := AcceptSnapshot(fetch.context, fetch.snap);
      if !applied { return Continue; }
      if !fetch.handled { return Broken; }
      if !answers.allowCompletion { return Continue; }
      outcome := DecideAfterSnapshot(fetch.snap, answers);
    }
  }
}
