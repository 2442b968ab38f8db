/** The cancellation fence of an ACP session (crates/pacode-acp/src/session.rs): prompts, permission
    replies, admission reissues, interrupts and closes interleave on one submission lock. Each step
    below is what a task does between two points where it may be suspended, and a task may be dropped
    at any of them. */
module CancelFence {
  import opened Common

  datatype Kind = UserMessage | PermissionReply | ReissuedAdmission

  datatype Outcome = Pending | Acknowledged | Failed

  datatype Status = Status(generation: nat, outcome: Outcome)

  /** Where a task stands. The generation of a sender is the one it captured when it started; the
      generation of a canceller is the one it signalled; `heard` is whether the daemon took its request. */
  datatype Task =
    | WaitingToSend(kind: Kind, generation: nat)
    | Checking(kind: Kind, generation: nat)
    | Sending(kind: Kind, generation: nat)
    | WaitingToInterrupt
    | AboutToInterrupt
    | WaitingToClose
    | AboutToClose
    | Signalling(closes: bool, generation: nat)
    | Delivering(closes: bool, generation: nat, heard: bool)
  {
    predicate Waits() { WaitingToSend? || WaitingToInterrupt? || WaitingToClose? }

    /** Past the lock acquisition. */
    predicate Holds() { !Waits() }
  }

  /** What reaches the daemon or the watchers, in order. */
  datatype Entry =
    | Sent(kind: Kind, generation: nat)
    | Signalled(generation: nat)
    | ClosedMark
    | Delivered(closes: bool, generation: nat)
    | Published(status: Status)

  datatype State = State(
    lock: Option<nat>,
    closed: bool,
    generation: nat,
    active: bool,
    status: Status,
    tasks: map<nat, Task>,
    log: seq<Entry>)

  const INITIAL := State(None, false, 0, false, Status(0, Pending), map[], [])

  datatype Step =
    | Start(id: nat, task: Task)
    | Acquire(id: nat)
    | Check(id: nat)
    | Send(id: nat)
    | EndSend(id: nat)
    | Bump(id: nat)
    | Publish(id: nat)
    | Deliver(id: nat)
    | Finish(id: nat, ok: bool)
    | Drop(id: nat)

  predicate Enabled(s: State, step: Step) {
    match step
    case Start(id, task) => id !in s.tasks && task.Waits()
    case Acquire(id) => id in s.tasks && s.tasks[id].Waits() && s.lock.None?
    case Check(id) => id in s.tasks && s.tasks[id].Checking?
    case Send(id) => id in s.tasks && s.tasks[id].Sending?
    case EndSend(id) => id in s.tasks && s.tasks[id].Sending?
    case Bump(id) => id in s.tasks && (s.tasks[id].AboutToInterrupt? || s.tasks[id].AboutToClose?)
    case Publish(id) => id in s.tasks && s.tasks[id].Signalling?
    case Deliver(id) => id in s.tasks && s.tasks[id].Delivering?
    case Finish(id, ok) => id in s.tasks && s.tasks[id].Delivering? && (ok ==> s.tasks[id].heard)
    case Drop(id) => id in s.tasks
  }

  /** The task ends; its guard, if it has one, releases the lock. */
  function Leave(s: State, id: nat): State
    requires id in s.tasks
  {
    s.(tasks := s.tasks - {id}, lock := if s.tasks[id].Holds() then None else s.lock)
  }

  function Goto(s: State, id: nat, task: Task): State {
    s.(tasks := s.tasks[id := task])
  }

  function Acquired(task: Task): Task
    requires task.Waits()
  {
    match task
    case WaitingToSend(kind, g) => Checking(kind, g)
    case WaitingToInterrupt => AboutToInterrupt
    case WaitingToClose => AboutToClose
  }

  /** The first half of signalling: an interrupt of a closed session is refused; a second close joins
      the generation of the first. */
  function Bumped(s: State, id: nat): State
    requires Enabled(s, Bump(id))
  {
    var closes := s.tasks[id].AboutToClose?;
    if s.closed then
      if closes then Goto(s, id, Delivering(true, s.generation, false)) else Leave(s, id)
    else
      var g := s.generation + 1;
      Goto(s, id, Signalling(closes, g)).(
        generation := g, closed := closes,
        log := s.log + (if closes then [ClosedMark] else []) + [Signalled(g)])
  }

  function Announce(s: State, status: Status): State {
    s.(status := status, log := s.log + [Published(status)])
  }

  function Next(s: State, step: Step): State
    requires Enabled(s, step)
  {
    match step
    case Start(id, task) => Goto(s, id, task)
    case Acquire(id) => Goto(s, id, Acquired(s.tasks[id])).(lock := Some(id))
    case Check(id) =>
      var t := s.tasks[id];
      if s.closed || s.generation != t.generation then Leave(s, id) else Goto(s, id, Sending(t.kind, t.generation))
    case Send(id) => s.(log := s.log + [Sent(s.tasks[id].kind, s.tasks[id].generation)])
    case EndSend(id) => Leave(s, id)
    case Bump(id) => Bumped(s, id)
    case Publish(id) =>
      var t := s.tasks[id];
      Announce(Goto(s, id, Delivering(t.closes, t.generation, false)), Status(t.generation, Pending)).(active := true)
    case Deliver(id) =>
      var t := s.tasks[id];
      Goto(s, id, t.(heard := true)).(log := s.log + [Delivered(t.closes, t.generation)])
    case Finish(id, ok) =>
      var g := s.tasks[id].generation;
      Announce(Leave(s, id), Status(g, if ok then Acknowledged else Failed)).(active := false)
    case Drop(id) => Leave(s, id)
  }

  // --- What the log must satisfy ---

  /** Nothing of an older generation, and nothing at all after a close, is sent past a signal. */
  ghost predicate Fenced(log: seq<Entry>) {
    forall i, j | 0 <= i < j < |log| && log[j].Sent? ::
      && (log[i].Signalled? ==> log[j].generation >= log[i].generation)
      && !log[i].ClosedMark?
  }

  /** Watchers never see a generation fall. */
  ghost predicate PublishedRise(log: seq<Entry>) {
    forall i, j | 0 <= i < j < |log| && log[i].Published? && log[j].Published? ::
      log[i].status.generation <= log[j].status.generation
  }

  /** The daemon hears an interrupt or close only of the generation signalled last. */
  ghost predicate DeliveredLatest(log: seq<Entry>) {
    forall i, j | 0 <= i < j < |log| && log[i].Signalled? && log[j].Delivered? :: log[j].generation >= log[i].generation
  }

  /** The daemon took an interrupt or close of this generation. */
  ghost predicate Heard(log: seq<Entry>, generation: nat) {
    HeardBefore(log, |log|, generation)
  }

  ghost predicate HeardBefore(log: seq<Entry>, end: nat, generation: nat) {
    exists i :: 0 <= i < end <= |log| && log[i].Delivered? && log[i].generation == generation
  }

  /** An acknowledgement is published only after the daemon heard. */
  ghost predicate AcknowledgedHeard(log: seq<Entry>) {
    forall j: nat | AcknowledgedAt(log, j) :: HeardAt(log, j)
  }

  predicate AcknowledgedAt(log: seq<Entry>, j: nat) {
    j < |log| && log[j].Published? && log[j].status.outcome.Acknowledged?
  }

  ghost predicate HeardAt(log: seq<Entry>, j: nat) {
    j < |log| && log[j].Published? && HeardBefore(log, j, log[j].status.generation)
  }

  ghost predicate Excludes(s: State) {
    && (s.lock.Some? ==> s.lock.value in s.tasks && s.tasks[s.lock.value].Holds())
    && (forall id | id in s.tasks :: s.tasks[id].Holds() ==> s.lock == Some(id))
  }

  ghost predicate TaskFits(s: State, task: Task) {
    match task
    case Sending(_, g) => g == s.generation && !s.closed
    case Signalling(closes, g) => g == s.generation && (closes ==> s.closed)
    case Delivering(closes, g, heard) => g == s.generation && (closes ==> s.closed) && (heard ==> Heard(s.log, g))
    case _ => true
  }

  ghost predicate LogFits(s: State) {
    && s.status.generation <= s.generation
    && forall e | e in s.log ::
      && (e.Signalled? ==> e.generation <= s.generation)
      && (e.ClosedMark? ==> s.closed)
      && (e.Published? ==> e.status.generation <= s.generation)
  }

  ghost predicate Inv(s: State) {
    && Excludes(s)
    && (forall id | id in s.tasks :: TaskFits(s, s.tasks[id]))
    && LogFits(s)
    && Fenced(s.log) && PublishedRise(s.log) && DeliveredLatest(s.log) && AcknowledgedHeard(s.log)
  }

  lemma {:induction false} InitialInv()
    ensures Inv(INITIAL)
  {
  }

  lemma {:induction false} LeaveInv(s: State, id: nat)
    requires Inv(s) && id in s.tasks
    ensures Inv(Leave(s, id))
  {
  }

  lemma {:induction false} GotoInv(s: State, id: nat, task: Task)
    requires Inv(s) && id in s.tasks && s.tasks[id].Holds() == task.Holds() && TaskFits(s, task)
    ensures Inv(Goto(s, id, task))
  {
  }

  /** Appending an entry that fits the present state keeps the log's properties. */
  lemma {:induction false} AppendInv(s: State, e: Entry)
    requires Inv(s)
    requires e.Sent? ==> e.generation == s.generation && !s.closed
    requires e.Delivered? || e.Signalled? ==> e.generation == s.generation
    requires e.Published? ==> e.status.generation == s.generation
    requires e.ClosedMark? ==> s.closed
    requires e.Published? && e.status.outcome.Acknowledged? ==> Heard(s.log, e.status.generation)
    ensures Inv(s.(log := s.log + [e]))
  {
    var t := s.(log := s.log + [e]);
    FencedAppend(s, e);
    RiseAppend(s, e);
    HeardAppend(s.log, e);
    forall id | id in s.tasks ensures TaskFits(t, s.tasks[id]) {
      var task := s.tasks[id];
      assert TaskFits(s, task);
      if task.Delivering? && task.heard { HeardLonger(s.log, e, |s.log|, task.generation); }
    }
    assert forall x | x in t.log :: x in s.log || x == e;
  }

  lemma {:induction false} HeardAppend(log: seq<Entry>, e: Entry)
    requires AcknowledgedHeard(log)
    requires e.Published? && e.status.outcome.Acknowledged? ==> Heard(log, e.status.generation)
    ensures AcknowledgedHeard(log + [e])
  {
    var longer := log + [e];
    forall j: nat | AcknowledgedAt(longer, j) ensures HeardAt(longer, j) {
      if j < |log| { assert AcknowledgedAt(log, j) && HeardAt(log, j); }
      HeardLonger(log, e, j, longer[j].status.generation);
    }
  }

  /** What was heard stays heard. */
  lemma {:induction false} HeardLonger(log: seq<Entry>, e: Entry, end: nat, g: nat)
    requires HeardBefore(log, end, g)
    ensures HeardBefore(log + [e], end, g) && Heard(log + [e], g)
  {
    var i :| 0 <= i < end <= |log| && log[i].Delivered? && log[i].generation == g;
    assert (log + [e])[i] == log[i];
  }

  lemma {:induction false} FencedAppend(s: State, e: Entry)
    requires LogFits(s) && Fenced(s.log) && (e.Sent? ==> e.generation == s.generation && !s.closed)
    ensures Fenced(s.log + [e])
  {
    forall i | 0 <= i < |s.log| ensures s.log[i] in s.log && (s.log + [e])[i] == s.log[i] {}
  }

  lemma {:induction false} RiseAppend(s: State, e: Entry)
    requires LogFits(s) && PublishedRise(s.log) && DeliveredLatest(s.log)
    requires e.Delivered? ==> e.generation == s.generation
    requires e.Published? ==> e.status.generation == s.generation
    ensures PublishedRise(s.log + [e]) && DeliveredLatest(s.log + [e])
  {
    forall i | 0 <= i < |s.log| ensures s.log[i] in s.log && (s.log + [e])[i] == s.log[i] {}
  }

  /** Signalling happens under the lock, so no other task is past its check. */
  lemma {:induction false} BumpInv(s: State, id: nat)
    requires Inv(s) && Enabled(s, Bump(id))
    ensures Inv(Bumped(s, id))
  {
    if s.closed {
      if s.tasks[id].AboutToClose? { GotoInv(s, id, Delivering(true, s.generation, false)); } else { LeaveInv(s, id); }
    } else {
      var closes, g := s.tasks[id].AboutToClose?, s.generation + 1;
      var raised := Goto(s, id, Signalling(closes, g)).(generation := g, closed := closes);
      forall other | other in raised.tasks ensures TaskFits(raised, raised.tasks[other]) {
        if other != id { assert !s.tasks[other].Holds(); }
      }
      assert Inv(raised);
      var marked := raised;
      if closes {
        AppendInv(raised, ClosedMark);
        marked := raised.(log := raised.log + [ClosedMark]);
      }
      AppendInv(marked, Signalled(g));
      assert Bumped(s, id) == marked.(log := marked.log + [Signalled(g)]);
    }
  }

  lemma {:induction false} AnnounceInv(s: State, status: Status, active: bool)
    requires Inv(s) && status.generation == s.generation
    requires status.outcome.Acknowledged? ==> Heard(s.log, status.generation)
    ensures Inv(Announce(s, status).(active := active))
  {
    AppendInv(s, Published(status));
    var t := s.(log := s.log + [Published(status)]);
    var u := Announce(s, status).(active := active);
    assert u == t.(status := status, active := active);
    assert forall id | id in u.tasks :: TaskFits(t, u.tasks[id]) ==> TaskFits(u, u.tasks[id]);
  }

  lemma {:induction false} DeliverInv(s: State, id: nat)
    requires Inv(s) && Enabled(s, Deliver(id))
    ensures Inv(Next(s, Deliver(id)))
  {
    var task := s.tasks[id];
    assert TaskFits(s, task);
    var e := Delivered(task.closes, task.generation);
    AppendInv(s, e);
    var t := s.(log := s.log + [e]);
    assert t.log[|s.log|] == e && Heard(t.log, e.generation);
    GotoInv(t, id, task.(heard := true));
    assert Next(s, Deliver(id)) == Goto(t, id, task.(heard := true));
  }

  lemma {:induction false} NextInv(s: State, step: Step)
    requires Inv(s) && Enabled(s, step)
    ensures Inv(Next(s, step))
  {
    match step
    case Start(id, task) =>
    case Acquire(id) =>
    case Check(id) =>
      var t := s.tasks[id];
      if s.closed || s.generation != t.generation {
        LeaveInv(s, id);
      } else {
        GotoInv(s, id, Sending(t.kind, t.generation));
      }
    case Send(id) => AppendInv(s, Sent(s.tasks[id].kind, s.tasks[id].generation));
    case EndSend(id) => LeaveInv(s, id);
    case Bump(id) => BumpInv(s, id);
    case Publish(id) =>
      var t := s.tasks[id];
      GotoInv(s, id, Delivering(t.closes, t.generation, false));
      AnnounceInv(Goto(s, id, Delivering(t.closes, t.generation, false)), Status(t.generation, Pending), true);
    case Deliver(id) => DeliverInv(s, id);
    case Finish(id, ok) =>
      LeaveInv(s, id);
      AnnounceInv(Leave(s, id), Status(s.tasks[id].generation, if ok then Acknowledged else Failed), false);
    case Drop(id) => LeaveInv(s, id);
  }

  ghost predicate Runs(s: State, steps: seq<Step>)
    decreases |steps|
  {
    steps == [] || (Enabled(s, steps[0]) && Runs(Next(s, steps[0]), steps[1..]))
  }

  ghost function Exec(s: State, steps: seq<Step>): State
    requires Runs(s, steps)
    decreases |steps|
  {
    if steps == [] then s else Exec(Next(s, steps[0]), steps[1..])
  }

  lemma {:induction false} RunInv(s: State, steps: seq<Step>)
    requires Inv(s) && Runs(s, steps)
    ensures Inv(Exec(s, steps)) && s.log <= Exec(s, steps).log
    decreases |steps|
  {
    if steps != [] {
      NextInv(s, steps[0]);
      assert s.log <= Next(s, steps[0]).log;
      RunInv(Next(s, steps[0]), steps[1..]);
    }
  }

  /** The fence, over every interleaving, with any number of tasks started, retried or dropped at any
      point: after a signal nothing of an older generation is sent, after a close nothing at all, the
      published generations never fall, and an acknowledgement is published only after the daemon heard
      that generation. */
  lemma {:induction false} FenceHolds(steps: seq<Step>)
    requires Runs(INITIAL, steps)
    ensures var log := Exec(INITIAL, steps).log;
      Fenced(log) && PublishedRise(log) && DeliveredLatest(log) && AcknowledgedHeard(log)
  {
    InitialInv();
    RunInv(INITIAL, steps);
  }

  lemma {:induction false} TwoSteps(s: State, x: Step, y: Step)
    requires Enabled(s, x) && Enabled(Next(s, x), y)
    ensures Runs(s, [x, y]) && Exec(s, [x, y]) == Next(Next(s, x), y)
  {
    var steps, t := [x, y], Next(s, x);
    var rest := steps[1..];
    assert rest == [y] && rest[1..] == [];
    assert Runs(Next(t, y), rest[1..]) && Exec(Next(t, y), rest[1..]) == Next(t, y);
    assert Runs(t, rest) && Exec(t, rest) == Next(t, y);
  }

  lemma {:induction false} RunsConcat(s: State, a: seq<Step>, b: seq<Step>)
    requires Runs(s, a) && Runs(Exec(s, a), b)
    ensures Runs(s, a + b) && Exec(s, a + b) == Exec(Exec(s, a), b)
    decreases |a|
  {
    if a == [] {
      assert a + b == b;
    } else {
      assert (a + b)[1..] == a[1..] + b && (a + b)[0] == a[0];
      RunsConcat(Next(s, a[0]), a[1..], b);
    }
  }

  /** A prompt that captured generation 0 and waits for the lock behind an interrupt. */
  const QUEUED := State(None, false, 0, false, Status(0, Pending),
    map[1 := WaitingToSend(UserMessage, 0), 2 := WaitingToInterrupt], [])

  /** The interrupt has signalled. */
  const SIGNALLED := State(Some(2), false, 1, false, Status(0, Pending),
    map[1 := WaitingToSend(UserMessage, 0), 2 := Signalling(false, 1)], [Signalled(1)])

  /** The daemon has heard it. */
  const DELIVERED := State(Some(2), false, 1, true, Status(1, Pending),
    map[1 := WaitingToSend(UserMessage, 0), 2 := Delivering(false, 1, true)],
    [Signalled(1), Published(Status(1, Pending)), Delivered(false, 1)])

  /** It is acknowledged, and the prompt holds the lock. */
  const RELEASED := State(Some(1), false, 1, false, Status(1, Acknowledged),
    map[1 := Checking(UserMessage, 0)],
    [Signalled(1), Published(Status(1, Pending)), Delivered(false, 1), Published(Status(1, Acknowledged))])

  lemma {:induction false} OvertakenStart()
    ensures Runs(INITIAL, [Start(1, WaitingToSend(UserMessage, 0)), Start(2, WaitingToInterrupt)])
    ensures Exec(INITIAL, [Start(1, WaitingToSend(UserMessage, 0)), Start(2, WaitingToInterrupt)]) == QUEUED
  {
    TwoSteps(INITIAL, Start(1, WaitingToSend(UserMessage, 0)), Start(2, WaitingToInterrupt));
  }

  lemma {:induction false} OvertakenSignal()
    ensures Runs(QUEUED, [Acquire(2), Bump(2)]) && Exec(QUEUED, [Acquire(2), Bump(2)]) == SIGNALLED
  {
    TwoSteps(QUEUED, Acquire(2), Bump(2));
  }

  lemma {:induction false} OvertakenDelivery()
    ensures Runs(SIGNALLED, [Publish(2), Deliver(2)]) && Exec(SIGNALLED, [Publish(2), Deliver(2)]) == DELIVERED
  {
    TwoSteps(SIGNALLED, Publish(2), Deliver(2));
  }

  lemma {:induction false} OvertakenRelease()
    ensures Runs(DELIVERED, [Finish(2, true), Acquire(1)]) && Exec(DELIVERED, [Finish(2, true), Acquire(1)]) == RELEASED
  {
    TwoSteps(DELIVERED, Finish(2, true), Acquire(1));
  }

  /** An interrupt overtakes a prompt: the daemon hears it, it is acknowledged, and the prompt is refused
      without having sent anything. */
  lemma {:induction false} OvertakenPrompt()
    ensures var steps := [Start(1, WaitingToSend(UserMessage, 0)), Start(2, WaitingToInterrupt)]
        + [Acquire(2), Bump(2)] + [Publish(2), Deliver(2)] + [Finish(2, true), Acquire(1)];
      && Runs(INITIAL, steps) && Exec(INITIAL, steps) == RELEASED
      && Enabled(RELEASED, Check(1)) && Next(RELEASED, Check(1)) == RELEASED.(lock := None, tasks := map[])
  {
    var start := [Start(1, WaitingToSend(UserMessage, 0)), Start(2, WaitingToInterrupt)];
    OvertakenStart();
    OvertakenSignal();
    OvertakenDelivery();
    OvertakenRelease();
    RunsConcat(INITIAL, start, [Acquire(2), Bump(2)]);
    RunsConcat(INITIAL, start + [Acquire(2), Bump(2)], [Publish(2), Deliver(2)]);
    RunsConcat(INITIAL, start + [Acquire(2), Bump(2)] + [Publish(2), Deliver(2)], [Finish(2, true), Acquire(1)]);
  }

  // --- Who waits for the outcome ---

  /** The watcher of `wait_for_interrupt_result`: it follows the newest generation it has seen. */
  datatype Watch = Watch(target: nat, result: Option<bool>)

  function Look(w: Watch, seen: Status): Watch {
    if w.result.Some? then w
    else
      var target := if seen.generation > w.target then seen.generation else w.target;
      var decided := seen.generation == target && !seen.outcome.Pending?;
      Watch(target, if decided then Some(seen.outcome.Acknowledged?) else None)
  }

  function LookAll(w: Watch, seen: seq<Status>): Watch
    decreases |seen|
  {
    if seen == [] then w else LookAll(Look(w, seen[0]), seen[1..])
  }

  /** A watcher of generation `g` reports success only on an acknowledged status of a generation at
      or above `g`, whichever published statuses it happened to see. */
  lemma {:induction false} WatcherNeedsAcknowledgement(g: nat, seen: seq<Status>)
    ensures LookAll(Watch(g, None), seen).result == Some(true) ==>
      exists st :: st in seen && st.outcome.Acknowledged? && st.generation >= g
  {
    WatcherFollows(Watch(g, None), seen);
  }

  /** What a watcher can see during a run: the initial status and the published ones. */
  ghost predicate Observable(log: seq<Entry>, seen: seq<Status>) {
    forall st | st in seen :: st == INITIAL.status || Published(st) in log
  }

  /** A waiter that reports success was told the truth: over every run, the daemon heard an interrupt or
      close of the waiter's generation or of a later one. */
  lemma {:induction false} SuccessMeansHeard(steps: seq<Step>, g: nat, seen: seq<Status>)
    requires Runs(INITIAL, steps) && Observable(Exec(INITIAL, steps).log, seen)
    requires LookAll(Watch(g, None), seen).result == Some(true)
    ensures exists generation: nat :: generation >= g && Heard(Exec(INITIAL, steps).log, generation)
  {
    FenceHolds(steps);
    WatcherNeedsAcknowledgement(g, seen);
    var log := Exec(INITIAL, steps).log;
    var st :| st in seen && st.outcome.Acknowledged? && st.generation >= g;
    var j :| 0 <= j < |log| && log[j] == Published(st);
    assert AcknowledgedAt(log, j) && HeardAt(log, j);
    assert Heard(log, st.generation);
  }

  // --- Who waits for a cancellation ---

  /** The waiter of `wait_for_cancellation`: armed by a cancellation of its own generation in progress. */
  datatype Waiter = Waiter(generation: nat, armed: bool, done: bool)

  /** One look at the status and at whether a cancellation is in progress. */
  function Notice(w: Waiter, seen: (Status, bool)): Waiter {
    if w.done then w
    else if seen.0.generation > w.generation then w.(done := true)
    else
      var armed := w.armed || (seen.0 == Status(w.generation, Pending) && seen.1);
      Waiter(w.generation, armed, armed && !seen.0.outcome.Pending?)
  }

  function NoticeAll(w: Waiter, seen: seq<(Status, bool)>): Waiter
    decreases |seen|
  {
    if seen == [] then w else NoticeAll(Notice(w, seen[0]), seen[1..])
  }

  /** A newer generation was seen, or the own one in progress and then an outcome. */
  ghost predicate Cancelled(g: nat, armed: bool, seen: seq<(Status, bool)>) {
    || (exists k :: 0 <= k < |seen| && seen[k].0.generation > g)
    || (armed && exists k :: 0 <= k < |seen| && !seen[k].0.outcome.Pending?)
    || (exists j, k :: 0 <= j < k < |seen| && seen[j] == (Status(g, Pending), true) && !seen[k].0.outcome.Pending?)
  }

  /** A prompt of generation `g` stops waiting exactly if it saw a cancellation newer than `g`, or one of
      `g` itself in progress and then its outcome. */
  lemma {:induction false} WaitEndsIffCancelled(g: nat, seen: seq<(Status, bool)>)
    ensures NoticeAll(Waiter(g, false, false), seen).done <==> Cancelled(g, false, seen)
  {
    NoticeFollows(Waiter(g, false, false), seen);
  }

  lemma {:induction false} NoticeFollows(w: Waiter, seen: seq<(Status, bool)>)
    requires !w.done
    ensures NoticeAll(w, seen).done <==> Cancelled(w.generation, w.armed, seen)
    decreases |seen|
  {
    if seen != [] {
      var next, rest := Notice(w, seen[0]), seen[1..];
      assert forall k | 0 < k < |seen| :: seen[k] == rest[k - 1];
      if next.done {
        NoticeDone(next, rest);
      } else {
        NoticeFollows(next, rest);
        CancelledLater(w, seen);
      }
    }
  }

  /** A look that does not end the waiting shifts the condition to what follows. */
  lemma {:induction false} CancelledLater(w: Waiter, seen: seq<(Status, bool)>)
    requires seen != [] && !w.done && !Notice(w, seen[0]).done
    ensures Cancelled(w.generation, w.armed, seen) <==>
      Cancelled(w.generation, Notice(w, seen[0]).armed, seen[1..])
  {
    var next, rest := Notice(w, seen[0]), seen[1..];
    assert forall k | 0 < k < |seen| :: seen[k] == rest[k - 1];
    if Cancelled(w.generation, next.armed, rest) {
      if k :| 0 <= k < |rest| && rest[k].0.generation > w.generation {
        assert seen[k + 1].0.generation > w.generation;
      } else if next.armed && exists k :: 0 <= k < |rest| && !rest[k].0.outcome.Pending? {
        var k :| 0 <= k < |rest| && !rest[k].0.outcome.Pending?;
        assert !seen[k + 1].0.outcome.Pending?;
        if !w.armed { assert seen[0] == (Status(w.generation, Pending), true); }
      } else {
        var j, k :| 0 <= j < k < |rest| && rest[j] == (Status(w.generation, Pending), true)
          && !rest[k].0.outcome.Pending?;
        assert seen[j + 1] == rest[j] && seen[k + 1] == rest[k];
      }
    }
    if Cancelled(w.generation, w.armed, seen) {
      if k :| 0 <= k < |seen| && seen[k].0.generation > w.generation {
        assert rest[k - 1] == seen[k];
      } else if w.armed && exists k :: 0 <= k < |seen| && !seen[k].0.outcome.Pending? {
        var k :| 0 <= k < |seen| && !seen[k].0.outcome.Pending?;
        assert rest[k - 1] == seen[k];
      } else {
        var j, k :| 0 <= j < k < |seen| && seen[j] == (Status(w.generation, Pending), true)
          && !seen[k].0.outcome.Pending?;
        assert rest[k - 1] == seen[k];
        if j > 0 { assert rest[j - 1] == seen[j]; }
      }
    }
  }

  lemma {:induction false} NoticeDone(w: Waiter, seen: seq<(Status, bool)>)
    requires w.done
    ensures NoticeAll(w, seen) == w
    decreases |seen|
  {
    if seen != [] { NoticeDone(w, seen[1..]); }
  }

  lemma {:induction false} WatcherFollows(w: Watch, seen: seq<Status>)
    requires w.result.None?
    ensures LookAll(w, seen).result == Some(true) ==>
      exists st :: st in seen && st.outcome.Acknowledged? && st.generation >= w.target
    decreases |seen|
  {
    if seen != [] {
      var next := Look(w, seen[0]);
      if next.result.None? {
        WatcherFollows(next, seen[1..]);
        if LookAll(w, seen).result == Some(true) {
          var st :| st in seen[1..] && st.outcome.Acknowledged? && st.generation >= next.target;
          assert st in seen && st.generation >= w.target;
        }
      } else {
        DecidedStays(next, seen[1..]);
        assert next.result == Some(true) ==>
          seen[0] in seen && seen[0].outcome.Acknowledged? && seen[0].generation >= w.target;
      }
    }
  }

  lemma {:induction false} DecidedStays(w: Watch, seen: seq<Status>)
    requires w.result.Some?
    ensures LookAll(w, seen) == w
    decreases |seen|
  {
    if seen != [] { DecidedStays(w, seen[1..]); }
  }
}
