/** One prompt of an ACP session (crates/pacode-acp/src/session.rs): which events and snapshots it
    accepts, and when it may report that its turn ended. */
module PromptModel {
  import opened Common

  const MAX_ATTEMPTS: nat := 3

  datatype Admission = Idle | AwaitingNewTurn | Active(turn: string)

  datatype Stop = Completed | Interrupted | Failed(message: string)

  datatype StopReason = EndTurn | Cancelled

  datatype Event =
    | TurnStarted(main: bool, turn: string)
    | TurnEnded(main: bool, turn: string, stop: Stop)
    | PermissionRequested
    | GlobalEvent
    | OtherEvent

  datatype AgentStatus = Stopped | FailedStatus | OtherStatus

  /** What a session snapshot says about its turns. `failures` lists the main agent's error notices
      that report a failed turn, by item seq. */
  datatype Snapshot = Snapshot(
    session: string, num: nat, turnActive: bool, activeTurn: Option<string>, terminalTurn: Option<string>,
    terminalError: Option<string>, mainStatus: Option<AgentStatus>, mainError: Option<string>,
    failures: seq<(nat, string)>)

  datatype State = State(
    session: string,
    expected: Context,
    sessionSeq: nat,
    ready: bool,
    applied: bool,
    admission: Admission,
    submitted: bool,
    confirmed: bool,
    expectedTurn: Option<string>,
    request: Option<string>,
    fenceAttempts: nat,
    floorSeq: nat,
    transcriptFloor: nat)

  function Correlated(session: string, context: Context, num: nat, turnActive: bool, turn: string,
    request: Option<string>): State {
    State(session, context, num, true, false, if turnActive then AwaitingNewTurn else Idle, false, false, Some(turn),
          request, 0, num, 0)
  }

  predicate AcceptsContext(s: State, c: Context) {
    c.session == Some(s.session) && c.sessionEpoch == s.expected.sessionEpoch
    && c.connectionEpoch >= s.expected.connectionEpoch
  }

  function Gapped(s: State): State {
    s.(ready := false, applied := false)
  }

  function AcceptConnected(s: State, c: Context): State {
    if !AcceptsContext(s, c) then s
    else if c.connectionEpoch > s.expected.connectionEpoch then Gapped(s.(expected := c))
    else s.(expected := c)
  }

  function AcceptResync(s: State, c: Context): State {
    if AcceptsContext(s, c) then Gapped(s.(expected := c)) else s
  }

  /** `target` is the session a failed attach wanted to resume. */
  predicate AcceptsAttachFailed(s: State, c: Context, target: Option<string>) {
    && target == Some(s.session)
    && (c.session.Some? ==> c.session == Some(s.session))
    && c.connectionEpoch >= s.expected.connectionEpoch
    && (c.connectionEpoch == s.expected.connectionEpoch ==> c.sessionEpoch >= s.expected.sessionEpoch)
  }

  function AcceptAttachFailed(s: State, c: Context, target: Option<string>): State {
    if !AcceptsAttachFailed(s, c, target) then s
    else
      var epoch := if c.sessionEpoch != 0 then c.sessionEpoch else s.expected.sessionEpoch;
      Gapped(s.(expected := s.expected.(connectionEpoch := c.connectionEpoch, sessionEpoch := epoch)))
  }

  predicate AcceptsSnapshot(s: State, c: Context, snap: Snapshot) {
    && snap.session == s.session
    && !(c == s.expected && s.ready && s.applied && snap.num < s.sessionSeq)
    && AcceptsContext(s, c)
  }

  /** What an accepted snapshot says about the awaited and the active turn. */
  function AdmitTurns(s: State, snap: Snapshot): State {
    if snap.turnActive then
      if s.expectedTurn.Some? && snap.activeTurn == s.expectedTurn then
        s.(admission := Active(s.expectedTurn.value), confirmed := true)
      else if !s.admission.Active? then s.(admission := AwaitingNewTurn)
      else s
    else if s.expectedTurn.Some? && snap.terminalTurn == s.expectedTurn then
      s.(admission := Idle, confirmed := true)
    else if !s.admission.AwaitingNewTurn? then s.(admission := Idle)
    else s
  }

  function AcceptSnapshot(s: State, c: Context, snap: Snapshot): State {
    if !AcceptsSnapshot(s, c, snap) then s
    else AdmitTurns(s.(expected := c, sessionSeq := snap.num, ready := true, applied := true), snap)
  }

  predicate AcceptsGlobal(s: State, c: Context) {
    (c.session.Some? ==> c.session == Some(s.session))
    && (c.connectionEpoch == 0 || c.connectionEpoch >= s.expected.connectionEpoch)
  }

  predicate AcceptsEvent(s: State, c: Context, num: nat, e: Event) {
    if e.GlobalEvent? then AcceptsGlobal(s, c) else c == s.expected && s.ready && num > s.sessionSeq
  }

  function AcceptEvent(s: State, c: Context, num: nat, e: Event): State {
    if !AcceptsEvent(s, c, num, e) then s
    else if e.GlobalEvent? then
      if c.connectionEpoch > s.expected.connectionEpoch
      then Gapped(s.(expected := s.expected.(connectionEpoch := c.connectionEpoch))) else s
    else
      var t := s.(sessionSeq := num);
      if e.TurnStarted? && e.main && (s.expectedTurn.None? || s.expectedTurn == Some(e.turn))
      then t.(admission := Active(e.turn), confirmed := true) else t
  }

  predicate EndsActiveTurn(s: State, main: bool, turn: string) {
    main && s.admission == Active(turn)
  }

  function CompleteTurn(s: State, main: bool, turn: string): State {
    if EndsActiveTurn(s, main, turn) then s.(admission := Idle) else s
  }

  function RecordBoundary(s: State, turnActive: bool): State {
    if s.admission.AwaitingNewTurn? && !turnActive then s
    else s.(admission := if turnActive then AwaitingNewTurn else Idle)
  }

  predicate NeedsFence(s: State) {
    s.submitted && !s.confirmed
  }

  /** Counts an attempt to reissue the admission. */
  function TakeFence(s: State): State {
    if NeedsFence(s) && s.fenceAttempts < MAX_ATTEMPTS then s.(fenceAttempts := s.fenceAttempts + 1) else s
  }

  predicate Reissues(s: State) {
    NeedsFence(s) && s.fenceAttempts < MAX_ATTEMPTS && s.request.Some?
  }

  function IdleStop(s: State, snap: Snapshot): Option<StopReason> {
    if !s.submitted || !s.confirmed || snap.turnActive then None
    else if s.expectedTurn.Some? && snap.terminalTurn.Some? && snap.terminalTurn != s.expectedTurn then None
    else if s.expectedTurn.None? && (snap.mainStatus == Some(FailedStatus) || snap.mainError.Some?) then None
    else if snap.terminalError.Some? then None
    else if s.admission.AwaitingNewTurn? && snap.mainStatus != Some(Stopped) then None
    else Some(if snap.mainStatus == Some(Stopped) then Cancelled else EndTurn)
  }

  function FirstFailure(failures: seq<(nat, string)>, floor: nat): Option<string> {
    if failures == [] then None
    else if failures[0].0 > floor then Some(failures[0].1)
    else FirstFailure(failures[1..], floor)
  }

  function TerminalError(s: State, snap: Snapshot): Option<string> {
    if !s.submitted || !s.confirmed || snap.turnActive || snap.num <= s.floorSeq then None
    else if s.expectedTurn.Some? && snap.terminalTurn.Some? && snap.terminalTurn != s.expectedTurn then None
    else if s.expectedTurn.None? && snap.terminalTurn.None? && snap.terminalError.None?
      && (snap.mainStatus == Some(FailedStatus) || snap.mainError.Some?) then
      Some(if snap.mainError.Some? then snap.mainError.value else "main turn failed")
    else if snap.terminalError.Some? then snap.terminalError
    else FirstFailure(snap.failures, s.transcriptFloor)
  }

  // --- Single steps, with what an observer sees of them ---

  datatype Input =
    | WireIn(context: Context, num: nat, event: Event)
    | SnapshotIn(context: Context, snap: Snapshot)
    | ResyncIn(context: Context)
    | ConnectedIn(context: Context)
    | AttachFailedIn(context: Context, target: Option<string>)
    | LostIn
    | CompleteIn(main: bool, turn: string)
    | BoundaryIn(turnActive: bool)
    | FenceIn
    | SubmitIn
    | FloorIn(num: nat, transcriptFloor: nat)

  /** What an observer notes: an accepted session event, an accepted snapshot, or a gap in the stream. */
  datatype Record = Ev(num: nat) | Snap(num: nat) | Gap

  /** The prompt state, the observer's notes, whether it saw evidence of the prompt's own turn, and
      how often the admission was reissued. */
  datatype World = World(state: State, start: nat, trace: seq<Record>, evidence: bool, reissues: nat)

  function Apply(s: State, i: Input): State {
    match i
    case WireIn(c, num, e) => AcceptEvent(s, c, num, e)
    case SnapshotIn(c, snap) => AcceptSnapshot(s, c, snap)
    case ResyncIn(c) => AcceptResync(s, c)
    case ConnectedIn(c) => AcceptConnected(s, c)
    case AttachFailedIn(c, target) => AcceptAttachFailed(s, c, target)
    case LostIn => Gapped(s)
    case CompleteIn(main, turn) => CompleteTurn(s, main, turn)
    case BoundaryIn(turnActive) => RecordBoundary(s, turnActive)
    case FenceIn => TakeFence(s)
    case SubmitIn => s.(submitted := true)
    case FloorIn(num, transcriptFloor) => s.(floorSeq := num, transcriptFloor := transcriptFloor)
  }

  function Notes(s: State, i: Input): seq<Record> {
    match i
    case WireIn(c, num, e) =>
      if !AcceptsEvent(s, c, num, e) then []
      else if !e.GlobalEvent? then [Ev(num)]
      else if c.connectionEpoch > s.expected.connectionEpoch then [Gap] else []
    case SnapshotIn(c, snap) => if AcceptsSnapshot(s, c, snap) then [Snap(snap.num)] else []
    case ResyncIn(c) => if AcceptsContext(s, c) then [Gap] else []
    case ConnectedIn(c) => if AcceptsContext(s, c) && c.connectionEpoch > s.expected.connectionEpoch then [Gap] else []
    case AttachFailedIn(c, target) => if AcceptsAttachFailed(s, c, target) then [Gap] else []
    case LostIn => [Gap]
    case _ => []
  }

  /** The accepted input shows that the daemon runs or ran turn `turn`. */
  predicate Shows(s: State, i: Input, turn: string) {
    || (i.WireIn? && AcceptsEvent(s, i.context, i.num, i.event) && i.event == TurnStarted(true, turn))
    || (i.SnapshotIn? && AcceptsSnapshot(s, i.context, i.snap)
        && (if i.snap.turnActive then i.snap.activeTurn == Some(turn) else i.snap.terminalTurn == Some(turn)))
  }

  function Next(w: World, i: Input): World {
    World(Apply(w.state, i), w.start, w.trace + Notes(w.state, i),
          w.evidence || (w.state.expectedTurn.Some? && Shows(w.state, i, w.state.expectedTurn.value)),
          w.reissues + if i.FenceIn? && Reissues(w.state) then 1 else 0)
  }

  function Opened(s: State): World {
    World(s, s.sessionSeq, [], false, 0)
  }

  /** A gap was noted and no snapshot since. */
  predicate GapOpen(trace: seq<Record>) {
    trace != [] &&
    var last := trace[|trace| - 1];
    last.Gap? || (last.Ev? && GapOpen(trace[..|trace| - 1]))
  }

  /** The seq of the last accepted event or snapshot. */
  function LastNum(trace: seq<Record>, start: nat): nat {
    if trace == [] then start
    else
      var last := trace[|trace| - 1];
      if last.Gap? then LastNum(trace[..|trace| - 1], start) else last.num
  }

  ghost predicate Inv(w: World) {
    var s := w.state;
    && OwnTurn(s)
    && (s.confirmed ==> w.evidence)
    && GateAgrees(s, w.trace, w.start)
    && w.reissues <= s.fenceAttempts <= MAX_ATTEMPTS
  }

  lemma {:induction false} CorrelatedInv(session: string, c: Context, num: nat, active: bool, turn: string,
    request: Option<string>)
    ensures Inv(Opened(Correlated(session, c, num, active, turn, request)))
  {
  }

  lemma {:induction false} NotesAppend(trace: seq<Record>, r: Record, start: nat)
    ensures GapOpen(trace + [r]) <==> r.Gap? || (r.Ev? && GapOpen(trace))
    ensures LastNum(trace + [r], start) == if r.Gap? then LastNum(trace, start) else r.num
  {
    assert (trace + [r])[..|trace|] == trace;
  }

  ghost predicate OwnTurn(s: State) {
    s.expectedTurn.Some? && (s.admission.Active? ==> s.admission.turn == s.expectedTurn.value && s.confirmed)
  }

  lemma {:induction false} AdmitKept(s: State, snap: Snapshot)
    requires OwnTurn(s)
    ensures var t := AdmitTurns(s, snap);
      && OwnTurn(t) && t.expectedTurn == s.expectedTurn
      && (t.confirmed && !s.confirmed ==>
        s.expectedTurn == if snap.turnActive then snap.activeTurn else snap.terminalTurn)
  {
  }

  /** The part of the invariant about turns: only what shows the prompt's own turn confirms it. */
  lemma {:induction false} AdmissionKept(s: State, i: Input)
    requires OwnTurn(s)
    ensures var t := Apply(s, i);
      && OwnTurn(t) && t.expectedTurn == s.expectedTurn
      && (t.confirmed ==> s.confirmed || Shows(s, i, s.expectedTurn.value))
  {
    if i.SnapshotIn? {
      AdmitKept(s.(expected := i.context, sessionSeq := i.snap.num, ready := true, applied := true), i.snap);
    }
  }

  lemma {:induction false} FenceKept(s: State, i: Input)
    ensures var counts := i.FenceIn? && NeedsFence(s) && s.fenceAttempts < MAX_ATTEMPTS;
      Apply(s, i).fenceAttempts == s.fenceAttempts + if counts then 1 else 0
  {
  }

  /** The gate is open, and the floor is where it is, as the notes say. */
  ghost predicate GateAgrees(s: State, trace: seq<Record>, start: nat) {
    (s.ready <==> !GapOpen(trace)) && s.sessionSeq == LastNum(trace, start)
  }

  /** A step that notes nothing moves neither; a gap closes the gate, an event raises the floor, a
      snapshot does both anew. */
  lemma {:induction false} NotesExplain(s: State, i: Input)
    ensures var t, notes := Apply(s, i), Notes(s, i);
      && |notes| <= 1
      && (notes == [] ==> t.ready == s.ready && t.sessionSeq == s.sessionSeq)
      && (notes != [] && notes[0].Gap? ==> !t.ready && t.sessionSeq == s.sessionSeq)
      && (notes != [] && notes[0].Ev? ==> t.ready == s.ready && t.sessionSeq == notes[0].num)
      && (notes != [] && notes[0].Snap? ==> t.ready && t.sessionSeq == notes[0].num)
  {
  }

  lemma {:induction false} GateKept(s: State, i: Input, trace: seq<Record>, start: nat)
    requires GateAgrees(s, trace, start)
    ensures GateAgrees(Apply(s, i), trace + Notes(s, i), start)
  {
    NotesExplain(s, i);
    var notes := Notes(s, i);
    if notes != [] {
      assert notes == [notes[0]];
      NotesAppend(trace, notes[0], start);
    } else {
      assert trace + notes == trace;
    }
  }

  lemma {:induction false} NextInv(w: World, i: Input)
    requires Inv(w)
    ensures Inv(Next(w, i)) && Next(w, i).state.expectedTurn == w.state.expectedTurn && Next(w, i).start == w.start
    ensures w.evidence ==> Next(w, i).evidence
  {
    AdmissionKept(w.state, i);
    FenceKept(w.state, i);
    GateKept(w.state, i, w.trace, w.start);
  }

  /** Completing a turn that is not the active one changes nothing. */
  lemma {:induction false} CompleteOther(w: World, main: bool, turn: string)
    requires !EndsActiveTurn(w.state, main, turn)
    ensures Next(w, CompleteIn(main, turn)) == w
  {
    assert w.trace + [] == w.trace;
  }

  ghost function Exec(w: World, inputs: seq<Input>): World
    decreases |inputs|
  {
    if inputs == [] then w else Exec(Next(w, inputs[0]), inputs[1..])
  }

  lemma {:induction false} ExecInv(w: World, inputs: seq<Input>)
    requires Inv(w)
    ensures Inv(Exec(w, inputs)) && Exec(w, inputs).state.expectedTurn == w.state.expectedTurn
    decreases |inputs|
  {
    if inputs != [] {
      NextInv(w, inputs[0]);
      ExecInv(Next(w, inputs[0]), inputs[1..]);
    }
  }

  // --- Snapshot gating and epochs ---

  predicate NotOlder(a: Context, b: Context) {
    a.connectionEpoch > b.connectionEpoch
      || (a.connectionEpoch == b.connectionEpoch && a.sessionEpoch >= b.sessionEpoch)
  }

  /** In every reachable state a session event is accepted exactly in the current context, with no
      gap since the last snapshot, and above the last accepted event or snapshot. */
  lemma {:induction false} GatedEvents(s: State, inputs: seq<Input>, c: Context, num: nat, e: Event)
    requires Inv(Opened(s)) && !e.GlobalEvent?
    ensures var w := Exec(Opened(s), inputs);
      AcceptsEvent(w.state, c, num, e) <==>
        c == w.state.expected && !GapOpen(w.trace) && num > LastNum(w.trace, w.start)
  {
    ExecInv(Opened(s), inputs);
  }

  /** Epochs never go back, and whatever raises the connection epoch without a snapshot closes the
      gate. */
  lemma {:induction false} EpochsRise(s: State, i: Input)
    ensures NotOlder(Apply(s, i).expected, s.expected)
    ensures Apply(s, i).expected.connectionEpoch > s.expected.connectionEpoch && !i.SnapshotIn? ==> !Apply(s, i).ready
  {
  }

  lemma {:induction false} EpochsRiseInRuns(w: World, inputs: seq<Input>)
    ensures NotOlder(Exec(w, inputs).state.expected, w.state.expected)
    decreases |inputs|
  {
    if inputs != [] {
      EpochsRise(w.state, inputs[0]);
      EpochsRiseInRuns(Next(w, inputs[0]), inputs[1..]);
    }
  }

  // --- The event loop of a prompt ---

  /** The reply to a snapshot request; `handled` is whether replaying it to the client succeeded. */
  datatype Fetch = Got(context: Context, snap: Snapshot, handled: bool) | Unavailable | FetchError

  datatype ClientEvent =
    | Wire(context: Context, num: nat, event: Event)
    | SnapshotEvent(context: Context, snap: Snapshot, handled: bool)
    | ResyncNeeded(context: Context)
    | Connected(context: Context)
    | AttachFailed(context: Context, target: Option<string>)
    | Disconnected
    | Reconnecting

  /** What the world answers while one event is processed, and whether the caller lets the prompt
      complete. */
  datatype Answers = Answers(
    allowCompletion: bool, cancelled: bool, connected: bool, permissionOk: bool, reissueOk: bool, sendOk: bool,
    fetches: seq<Fetch>)

  /** `Finished` and `TurnFailed` report the prompt's turn; `Broken` is any other error. */
  datatype Outcome = Continue | Finished(reason: StopReason) | TurnFailed(message: string) | Broken

  function FetchAt(a: Answers, k: nat): Fetch {
    if k < |a.fetches| then a.fetches[k] else FetchError
  }

  /** The decisions after an applied snapshot: reissue the admission, or report its turn, or go on. */
  function Decide(w: World, snap: Snapshot, a: Answers): (World, Outcome) {
    var reissue := Reissues(w.state);
    var t := Next(w, FenceIn);
    if reissue then (t, if a.reissueOk then Continue else Broken)
    else if TerminalError(t.state, snap).Some? then (t, TurnFailed(TerminalError(t.state, snap).value))
    else if IdleStop(t.state, snap).Some? then (t, Finished(IdleStop(t.state, snap).value))
    else (t, Continue)
  }

  function StopOutcome(stop: Stop): Outcome {
    match stop
    case Completed => Finished(EndTurn)
    case Interrupted => Finished(Cancelled)
    case Failed(message) => TurnFailed(message)
  }

  /** After a turn ended while a new one is awaited: fetch snapshots until one applies. */
  function Recover(w: World, a: Answers, k: nat): (World, Outcome)
    decreases MAX_ATTEMPTS - k
  {
    if k >= MAX_ATTEMPTS then (w, Broken)
    else match FetchAt(a, k)
      case Got(c, snap, handled) =>
        var t := Next(w, SnapshotIn(c, snap));
        if !AcceptsSnapshot(w.state, c, snap) then Recover(t, a, k + 1)
        else if !handled then (t, Broken)
        else Decide(Next(t, BoundaryIn(snap.turnActive)), snap, a)
      case _ => (w, Broken)
  }

  function ProcessWire(w: World, c: Context, num: nat, e: Event, a: Answers): (World, Outcome) {
    var t := Next(w, WireIn(c, num, e));
    if !AcceptsEvent(w.state, c, num, e) then (t, Continue)
    else if e.PermissionRequested? then (t, if a.permissionOk then Continue else Broken)
    else if e.TurnEnded? && a.allowCompletion && e.main && t.state.admission.AwaitingNewTurn? then Recover(t, a, 0)
    else
      var ends := e.TurnEnded? && EndsActiveTurn(t.state, e.main, e.turn);
      var u := if ends then Next(t, CompleteIn(e.main, e.turn)) else t;
      (u, if ends && a.allowCompletion then StopOutcome(e.stop) else if a.sendOk then Continue else Broken)
  }

  function ProcessResync(w: World, c: Context, a: Answers): (World, Outcome) {
    var t := Next(w, ResyncIn(c));
    if !AcceptsContext(w.state, c) || !a.connected then (t, Continue)
    else match FetchAt(a, 0)
      case Unavailable => (t, Continue)
      case FetchError => (t, Broken)
      case Got(c1, snap, handled) =>
        var u := Next(t, SnapshotIn(c1, snap));
        if !AcceptsSnapshot(t.state, c1, snap) then (u, Continue)
        else if !handled then (u, Broken)
        else if a.allowCompletion then Decide(u, snap, a)
        else (u, Continue)
  }

  function Process(w: World, e: ClientEvent, a: Answers): (World, Outcome) {
    if a.cancelled then (w, Broken)
    else match e
      case Wire(c, num, ev) => ProcessWire(w, c, num, ev, a)
      case SnapshotEvent(c, snap, handled) =>
        var t := Next(w, SnapshotIn(c, snap));
        if !AcceptsSnapshot(w.state, c, snap) then (t, Continue)
        else if !handled then (t, Broken)
        else if a.allowCompletion then Decide(t, snap, a)
        else (t, Continue)
      case ResyncNeeded(c) => ProcessResync(w, c, a)
      case Connected(c) => (Next(w, ConnectedIn(c)), Continue)
      case AttachFailed(c, target) =>
        (Next(w, AttachFailedIn(c, target)), if AcceptsAttachFailed(w.state, c, target) then Broken else Continue)
      case Disconnected => (Next(w, LostIn), Continue)
      case Reconnecting => (Next(w, LostIn), Continue)
  }

  predicate Reports(o: Outcome) {
    o.Finished? || o.TurnFailed?
  }

  lemma {:induction false} DecideReports(w: World, snap: Snapshot, a: Answers)
    requires Inv(w)
    ensures var (t, o) := Decide(w, snap, a);
      Inv(t) && t.state.expectedTurn == w.state.expectedTurn && (Reports(o) ==> t.evidence)
  {
    NextInv(w, FenceIn);
  }

  lemma {:induction false} RecoverReports(w: World, a: Answers, k: nat)
    requires Inv(w)
    ensures var (t, o) := Recover(w, a, k);
      Inv(t) && t.state.expectedTurn == w.state.expectedTurn && (Reports(o) ==> t.evidence)
    decreases MAX_ATTEMPTS - k
  {
    if k < MAX_ATTEMPTS {
      match FetchAt(a, k)
      case Got(c, snap, handled) =>
        var t := Next(w, SnapshotIn(c, snap));
        NextInv(w, SnapshotIn(c, snap));
        if !AcceptsSnapshot(w.state, c, snap) {
          RecoverReports(t, a, k + 1);
        } else {
          NextInv(t, BoundaryIn(snap.turnActive));
          DecideReports(Next(t, BoundaryIn(snap.turnActive)), snap, a);
        }
      case _ =>
    }
  }

  lemma {:induction false} WireReports(w: World, c: Context, num: nat, ev: Event, a: Answers)
    requires Inv(w)
    ensures var (t, o) := ProcessWire(w, c, num, ev, a);
      Inv(t) && t.state.expectedTurn == w.state.expectedTurn && (Reports(o) ==> t.evidence)
  {
    var i := WireIn(c, num, ev);
    NextInv(w, i);
    RecoverReports(Next(w, i), a, 0);
    if ev.TurnEnded? { NextInv(Next(w, i), CompleteIn(ev.main, ev.turn)); }
  }

  lemma {:induction false} ResyncReports(w: World, c: Context, a: Answers)
    requires Inv(w)
    ensures var (t, o) := ProcessResync(w, c, a);
      Inv(t) && t.state.expectedTurn == w.state.expectedTurn && (Reports(o) ==> t.evidence)
  {
    NextInv(w, ResyncIn(c));
    var t := Next(w, ResyncIn(c));
    if FetchAt(a, 0).Got? {
      var Got(c1, snap, handled) := FetchAt(a, 0);
      NextInv(t, SnapshotIn(c1, snap));
      DecideReports(Next(t, SnapshotIn(c1, snap)), snap, a);
    }
  }

  /** Processing one event keeps the invariant, and reports an end of turn only with evidence of the
      prompt's own turn. */
  lemma {:induction false} ProcessReports(w: World, e: ClientEvent, a: Answers)
    requires Inv(w)
    ensures var (t, o) := Process(w, e, a);
      Inv(t) && t.state.expectedTurn == w.state.expectedTurn && (Reports(o) ==> t.evidence)
  {
    if !a.cancelled {
      match e
      case Wire(c, num, ev) => WireReports(w, c, num, ev, a);
      case SnapshotEvent(c, snap, handled) =>
        NextInv(w, SnapshotIn(c, snap));
        DecideReports(Next(w, SnapshotIn(c, snap)), snap, a);
      case ResyncNeeded(c) => ResyncReports(w, c, a);
      case Connected(c) => NextInv(w, ConnectedIn(c));
      case AttachFailed(c, target) => NextInv(w, AttachFailedIn(c, target));
      case Disconnected => NextInv(w, LostIn);
      case Reconnecting => NextInv(w, LostIn);
    }
  }

  /** The prompt loop: processes events until one of them ends it. */
  function Loop(w: World, events: seq<(ClientEvent, Answers)>): (World, Outcome)
    decreases |events|
  {
    if events == [] then (w, Continue)
    else
      var (t, o) := Process(w, events[0].0, events[0].1);
      if o != Continue then (t, o) else Loop(t, events[1..])
  }

  lemma {:induction false} LoopReports(w: World, events: seq<(ClientEvent, Answers)>)
    requires Inv(w)
    ensures var (t, o) := Loop(w, events);
      Inv(t) && t.state.expectedTurn == w.state.expectedTurn && (Reports(o) ==> t.evidence)
    decreases |events|
  {
    if events != [] {
      ProcessReports(w, events[0].0, events[0].1);
      var (t, o) := Process(w, events[0].0, events[0].1);
      if o == Continue { LoopReports(t, events[1..]); }
    }
  }

  // --- What a report is about ---

  /** The snapshot that recovery applies. */
  function RecoveredBy(w: World, a: Answers, k: nat): Option<Snapshot>
    decreases MAX_ATTEMPTS - k
  {
    if k >= MAX_ATTEMPTS || !FetchAt(a, k).Got? then None
    else
      var Got(c, snap, handled) := FetchAt(a, k);
      if !AcceptsSnapshot(w.state, c, snap) then RecoveredBy(Next(w, SnapshotIn(c, snap)), a, k + 1)
      else if handled then Some(snap) else None
  }

  /** The snapshot, if any, that processing the event applies and decides on. */
  function Applied(w: World, e: ClientEvent, a: Answers): Option<Snapshot> {
    match e
    case Wire(c, num, ev) => RecoveredBy(Next(w, WireIn(c, num, ev)), a, 0)
    case SnapshotEvent(c, snap, handled) => if AcceptsSnapshot(w.state, c, snap) && handled then Some(snap) else None
    case ResyncNeeded(c) =>
      var f := FetchAt(a, 0);
      if f.Got? && AcceptsSnapshot(Next(w, ResyncIn(c)).state, f.context, f.snap) && f.handled then Some(f.snap)
        else None
    case _ => None
  }

  /** The snapshot says that no turn runs and that the last one, if it names one, was `turn`. */
  predicate ShowsEnd(snap: Snapshot, turn: string) {
    !snap.turnActive && (snap.terminalTurn.None? || snap.terminalTurn == Some(turn))
  }

  /** How the turn that a snapshot names as the last one ended. */
  function TurnOutcome(snap: Snapshot): Outcome {
    if snap.terminalError.Some? then TurnFailed(snap.terminalError.value)
    else Finished(if snap.mainStatus == Some(Stopped) then Cancelled else EndTurn)
  }

  /** A failure notice above the prompt's floor, from whichever turn, that the snapshot's own verdict on
      the last turn does not cover. */
  predicate StrayFailure(s: State, snap: Snapshot) {
    snap.terminalError.None? && snap.num > s.floorSeq && FirstFailure(snap.failures, s.transcriptFloor).Some?
  }

  /** A snapshot that names the turn is reported with that turn's outcome, if and only if no stray failure
      notice is above the floor; then it is reported with that notice instead. */
  predicate OutcomeFits(s: State, snap: Snapshot, o: Outcome) {
    snap.terminalTurn.Some? ==>
      && (o == TurnOutcome(snap) <==> !StrayFailure(s, snap))
      && (StrayFailure(s, snap) ==> o == TurnFailed(FirstFailure(snap.failures, s.transcriptFloor).value))
  }

  /** What a report says: the stop of the prompt's own active turn, or a snapshot that shows its end. */
  predicate Explains(w: World, e: ClientEvent, a: Answers, turn: string, o: Outcome) {
    || (e.Wire? && e.event.TurnEnded? && e.event.main && e.event.turn == turn && o == StopOutcome(e.event.stop))
    || (var snap := Applied(w, e, a); snap.Some? && ShowsEnd(snap.value, turn) && OutcomeFits(w.state, snap.value, o))
  }

  /** The floors of a prompt move only when it sets them. */
  predicate SameFloors(s: State, t: State) {
    t.floorSeq == s.floorSeq && t.transcriptFloor == s.transcriptFloor && t.expectedTurn == s.expectedTurn
  }

  lemma {:induction false} FloorsKept(s: State, i: Input)
    requires !i.FloorIn?
    ensures SameFloors(s, Apply(s, i))
  {
  }

  lemma {:induction false} DecideExplained(w: World, snap: Snapshot, a: Answers)
    requires OwnTurn(w.state) && Reports(Decide(w, snap, a).1)
    ensures ShowsEnd(snap, w.state.expectedTurn.value) && OutcomeFits(w.state, snap, Decide(w, snap, a).1)
  {
    AdmissionKept(w.state, FenceIn);
    FloorsKept(w.state, FenceIn);
  }

  lemma {:induction false} RecoverExplained(w: World, a: Answers, k: nat)
    requires Inv(w) && Reports(Recover(w, a, k).1)
    ensures var snap := RecoveredBy(w, a, k);
      && snap.Some? && ShowsEnd(snap.value, w.state.expectedTurn.value)
      && OutcomeFits(w.state, snap.value, Recover(w, a, k).1)
    decreases MAX_ATTEMPTS - k
  {
    var Got(c, snap, handled) := FetchAt(a, k);
    var t := Next(w, SnapshotIn(c, snap));
    NextInv(w, SnapshotIn(c, snap));
    FloorsKept(w.state, SnapshotIn(c, snap));
    if AcceptsSnapshot(w.state, c, snap) {
      NextInv(t, BoundaryIn(snap.turnActive));
      FloorsKept(t.state, BoundaryIn(snap.turnActive));
      DecideExplained(Next(t, BoundaryIn(snap.turnActive)), snap, a);
    } else {
      RecoverExplained(t, a, k + 1);
    }
  }

  lemma {:induction false} ReportExplained(w: World, e: ClientEvent, a: Answers)
    requires Inv(w) && Reports(Process(w, e, a).1)
    ensures Explains(w, e, a, w.state.expectedTurn.value, Process(w, e, a).1)
  {
    match e
    case Wire(c, num, ev) => WireExplained(w, c, num, ev, a);
    case SnapshotEvent(c, snap, _) =>
      NextInv(w, SnapshotIn(c, snap));
      FloorsKept(w.state, SnapshotIn(c, snap));
      DecideExplained(Next(w, SnapshotIn(c, snap)), snap, a);
    case ResyncNeeded(c) => ResyncExplained(w, c, a);
  }

  lemma {:induction false} WireExplained(w: World, c: Context, num: nat, ev: Event, a: Answers)
    requires Inv(w) && Reports(ProcessWire(w, c, num, ev, a).1)
    ensures Explains(w, Wire(c, num, ev), a, w.state.expectedTurn.value, ProcessWire(w, c, num, ev, a).1)
  {
    NextInv(w, WireIn(c, num, ev));
    FloorsKept(w.state, WireIn(c, num, ev));
    var t := Next(w, WireIn(c, num, ev));
    if ev.main && t.state.admission.AwaitingNewTurn? { RecoverExplained(t, a, 0); }
  }

  lemma {:induction false} ResyncExplained(w: World, c: Context, a: Answers)
    requires Inv(w) && Reports(ProcessResync(w, c, a).1)
    ensures Explains(w, ResyncNeeded(c), a, w.state.expectedTurn.value, ProcessResync(w, c, a).1)
  {
    NextInv(w, ResyncIn(c));
    FloorsKept(w.state, ResyncIn(c));
    var t := Next(w, ResyncIn(c));
    var Got(c1, snap, _) := FetchAt(a, 0);
    NextInv(t, SnapshotIn(c1, snap));
    FloorsKept(t.state, SnapshotIn(c1, snap));
    DecideExplained(Next(t, SnapshotIn(c1, snap)), snap, a);
  }

  /** Event `last` is where the loop ends, in the world the earlier ones left, and explains its report. */
  ghost predicate ReportedAt(w: World, events: seq<(ClientEvent, Answers)>, last: nat, turn: string) {
    && last < |events|
    && var (before, none) := Loop(w, events[..last]);
      && none == Continue && Loop(w, events) == Process(before, events[last].0, events[last].1)
      && Explains(before, events[last].0, events[last].1, turn, Loop(w, events).1)
  }

  lemma {:induction false} LoopExplained(w: World, events: seq<(ClientEvent, Answers)>) returns (last: nat)
    requires Inv(w) && Reports(Loop(w, events).1)
    ensures ReportedAt(w, events, last, w.state.expectedTurn.value)
    decreases |events|
  {
    ProcessReports(w, events[0].0, events[0].1);
    var (t, o) := Process(w, events[0].0, events[0].1);
    if o == Continue {
      var later := LoopExplained(t, events[1..]);
      last := later + 1;
      var earlier := events[..last];
      assert earlier[0] == events[0] && earlier[1..] == events[1..][..later] && events[1..][later] == events[last];
    } else {
      last := 0;
      ReportExplained(w, events[0].0, events[0].1);
      assert events[..0] == [];
    }
  }

  /** Foreign turns never finish a prompt: whatever the daemon sends, an end of turn is reported only
      after an accepted TurnStarted or snapshot named the prompt's own turn, and by a last event that ends
      that turn or applies a snapshot that shows its end; the active turn is never a foreign one; and the
      admission is reissued at most three times. */
  lemma {:induction false} ForeignTurnsNeverFinish(
    session: string, c: Context, num: nat, active: bool, turn: string, request: Option<string>,
    preflight: seq<Input>, events: seq<(ClientEvent, Answers)>)
    ensures var w := Exec(Opened(Correlated(session, c, num, active, turn, request)), preflight);
      var (t, o) := Loop(w, events);
      && (Reports(o) ==> t.evidence && exists last: nat :: ReportedAt(w, events, last, turn))
      && (t.state.admission.Active? ==> t.state.admission.turn == turn && t.evidence)
      && t.reissues <= MAX_ATTEMPTS
  {
    CorrelatedInv(session, c, num, active, turn, request);
    var w := Opened(Correlated(session, c, num, active, turn, request));
    ExecInv(w, preflight);
    LoopReports(Exec(w, preflight), events);
    if Reports(Loop(Exec(w, preflight), events).1) { var last := LoopExplained(Exec(w, preflight), events); }
  }

  /** A stray failure: the own turn completed, but a foreign turn's failure notice lies above the floor
      of the transcript, and the prompt reports that failure as its own. */
  lemma {:induction false} StrayFailureExample(c: Context)
    requires c.session == Some("s")
    ensures var snap := Snapshot("s", 2, false, None, Some("own"), None, None, None, [(5, "foreign")]);
      var w := Next(Opened(Correlated("s", c, 0, false, "own", None)), SubmitIn);
      var (t, o) := Process(w, SnapshotEvent(c, snap, true), Fine(c, snap));
      && t.evidence && TurnOutcome(snap) == Finished(EndTurn) && StrayFailure(w.state, snap)
      && o == TurnFailed("foreign")
  {
    var snap := Snapshot("s", 2, false, None, Some("own"), None, None, None, [(5, "foreign")]);
    var w := Next(Opened(Correlated("s", c, 0, false, "own", None)), SubmitIn);
    assert Next(w, SnapshotIn(c, snap)).state.confirmed;
  }

  // --- The end of a turn, own or foreign ---

  /** The world after an accepted TurnEnded: nothing but the event floor moved. */
  function AfterEnd(w: World, num: nat): World {
    w.(state := w.state.(sessionSeq := num), trace := w.trace + [Ev(num)])
  }

  /** The end of a foreign turn changes nothing but the event floor, unless a new turn is awaited: then
      a snapshot decides. */
  lemma {:induction false} ForeignTurnEnded(w: World, c: Context, num: nat, main: bool, turn: string, stop: Stop,
    a: Answers)
    requires Inv(w) && Some(turn) != w.state.expectedTurn && !a.cancelled
    requires AcceptsEvent(w.state, c, num, TurnEnded(main, turn, stop))
    ensures Process(w, Wire(c, num, TurnEnded(main, turn, stop)), a) ==
      if a.allowCompletion && main && w.state.admission.AwaitingNewTurn? then Recover(AfterEnd(w, num), a, 0)
      else (AfterEnd(w, num), if a.sendOk then Continue else Broken)
  {
  }

  /** When an applied snapshot ends the prompt: it must show the own turn ended, or name no turn, the own
      turn having been seen, and report a failure, or an idle agent, which has to be a stopped one while a
      new turn is awaited. */
  predicate SnapshotEnds(s: State, snap: Snapshot) {
    && s.submitted && !snap.turnActive
    && if snap.terminalTurn.Some? && snap.terminalTurn == s.expectedTurn then
         snap.terminalError.None? || snap.num > s.floorSeq
       else
         && snap.terminalTurn.None? && s.confirmed
         && ((&& snap.num > s.floorSeq
              && (snap.terminalError.Some? || FirstFailure(snap.failures, s.transcriptFloor).Some?))
             || (snap.terminalError.None? && (!s.admission.AwaitingNewTurn? || snap.mainStatus == Some(Stopped))))
  }

  /** The first of the three fetched snapshots that applies ends the prompt. */
  predicate RecoveryEnds(s: State, a: Answers, k: nat)
    decreases MAX_ATTEMPTS - k
  {
    && k < MAX_ATTEMPTS && FetchAt(a, k).Got?
    && var Got(c, snap, handled) := FetchAt(a, k);
      if AcceptsSnapshot(s, c, snap) then handled && SnapshotEnds(s, snap) else RecoveryEnds(s, a, k + 1)
  }

  lemma {:induction false} AppliedEnds(w: World, c: Context, snap: Snapshot, a: Answers)
    requires Inv(w) && w.state.admission.AwaitingNewTurn? && AcceptsSnapshot(w.state, c, snap)
    ensures var t := Next(Next(w, SnapshotIn(c, snap)), BoundaryIn(snap.turnActive));
      Reports(Decide(t, snap, a).1) <==> SnapshotEnds(w.state, snap)
  {
  }

  lemma {:induction false} RecoverEnds(w: World, a: Answers, k: nat)
    requires Inv(w) && w.state.admission.AwaitingNewTurn?
    ensures Reports(Recover(w, a, k).1) <==> RecoveryEnds(w.state, a, k)
    decreases MAX_ATTEMPTS - k
  {
    if k < MAX_ATTEMPTS && FetchAt(a, k).Got? {
      var Got(c, snap, handled) := FetchAt(a, k);
      if AcceptsSnapshot(w.state, c, snap) {
        AppliedEnds(w, c, snap, a);
      } else {
        NextInv(w, SnapshotIn(c, snap));
        RecoverEnds(Next(w, SnapshotIn(c, snap)), a, k + 1);
      }
    }
  }

  /** Exactly when the accepted end of the prompt's own turn ends the prompt: if the turn is the active
      one, with its stop; while a new turn is awaited, if the recovery snapshot ends it; otherwise
      not. */
  lemma {:induction false} OwnTurnEnded(w: World, c: Context, num: nat, stop: Stop, a: Answers)
    requires Inv(w) && !a.cancelled && a.allowCompletion
    requires AcceptsEvent(w.state, c, num, TurnEnded(true, w.state.expectedTurn.value, stop))
    ensures var o := Process(w, Wire(c, num, TurnEnded(true, w.state.expectedTurn.value, stop)), a).1;
      && (Reports(o) <==>
            w.state.admission.Active?
            || (w.state.admission.AwaitingNewTurn? && RecoveryEnds(w.state.(sessionSeq := num), a, 0)))
      && (w.state.admission.Active? ==>
            match stop
            case Completed => o == Finished(EndTurn)
            case Interrupted => o == Finished(Cancelled)
            case Failed(message) => o == TurnFailed(message))
  {
    var e := TurnEnded(true, w.state.expectedTurn.value, stop);
    NextInv(w, WireIn(c, num, e));
    if w.state.admission.AwaitingNewTurn? { RecoverEnds(Next(w, WireIn(c, num, e)), a, 0); }
  }

  /** All is well, and a request for a snapshot is answered by `snap`. */
  function Fine(c: Context, snap: Snapshot): Answers {
    Answers(true, false, true, true, true, true, [Got(c, snap, true)])
  }

  /** A submitted prompt that waits behind a foreign turn. */
  function Waiting(c: Context): World {
    Next(Opened(Correlated("s", c, 0, true, "own", None)), SubmitIn)
  }

  /** The foreign turn ends, and the recovery snapshot shows the own turn active: the boundary recorded
      behind it turns that into waiting for a new turn. */
  lemma {:induction false} OwnTurnForgotten(c: Context)
    requires c.session == Some("s")
    ensures var running := Snapshot("s", 1, true, Some("own"), None, None, None, None, []);
      var (t, o) := Process(Waiting(c), Wire(c, 1, TurnEnded(true, "other", Completed)), Fine(c, running));
      && o == Continue && t.evidence
      && t.state == State("s", c, 1, true, true, AwaitingNewTurn, true, true, Some("own"), None, 0, 0, 0)
  {
    var running := Snapshot("s", 1, true, Some("own"), None, None, None, None, []);
    var e := Next(Waiting(c), WireIn(c, 1, TurnEnded(true, "other", Completed)));
    assert FetchAt(Fine(c, running), 0) == Got(c, running, true);
    var shown := Next(e, SnapshotIn(c, running));
    assert shown.state.admission == Active("own") && shown.evidence;
    assert Recover(e, Fine(c, running), 0) == Decide(Next(shown, BoundaryIn(true)), running, Fine(c, running));
  }

  /** Why the condition: the end of the own turn then meets a snapshot that names no turn, and the
      prompt goes on waiting although its turn is over. */
  lemma {:induction false} LostEndExample(c: Context)
    requires c.session == Some("s")
    ensures var running := Snapshot("s", 1, true, Some("own"), None, None, None, None, []);
      var idle := Snapshot("s", 2, false, None, None, None, None, None, []);
      var end := TurnEnded(true, "own", Completed);
      var t := Process(Waiting(c), Wire(c, 1, TurnEnded(true, "other", Completed)), Fine(c, running)).0;
      var (u, o) := Process(t, Wire(c, 2, end), Fine(c, idle));
      && t.evidence && AcceptsEvent(t.state, c, 2, end)
      && o == Continue && u.state.admission == AwaitingNewTurn
  {
    OwnTurnForgotten(c);
    var running := Snapshot("s", 1, true, Some("own"), None, None, None, None, []);
    var idle := Snapshot("s", 2, false, None, None, None, None, None, []);
    var t := Process(Waiting(c), Wire(c, 1, TurnEnded(true, "other", Completed)), Fine(c, running)).0;
    UnnamedEnd(t, c, idle);
  }

  lemma {:induction false} UnnamedEnd(t: World, c: Context, idle: Snapshot)
    requires t.state == State("s", c, 1, true, true, AwaitingNewTurn, true, true, Some("own"), None, 0, 0, 0)
    requires c.session == Some("s") && idle == Snapshot("s", 2, false, None, None, None, None, None, [])
    ensures var (u, o) := Process(t, Wire(c, 2, TurnEnded(true, "own", Completed)), Fine(c, idle));
      o == Continue && u.state.admission == AwaitingNewTurn
  {
    var f := Next(t, WireIn(c, 2, TurnEnded(true, "own", Completed)));
    assert FetchAt(Fine(c, idle), 0) == Got(c, idle, true);
    assert Recover(f, Fine(c, idle), 0) ==
      Decide(Next(Next(f, SnapshotIn(c, idle)), BoundaryIn(false)), idle, Fine(c, idle));
  }
}
