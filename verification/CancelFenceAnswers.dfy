/** What the cancellation fence lets through: who passes, that what nobody cancels is sent, that interrupts
    and closes are delivered, and what their waiters answer (crates/pacode-acp/src/session.rs). */
module CancelFenceAnswers {
  import opened Common
  import opened CancelFence

  // --- Senders ---

  /** Exactly who passes the check, in every reachable state: a sender of the current generation of a
      session that is not closed. It then sends what it came for; anyone else leaves and frees the lock. */
  lemma {:induction false} PassesIffCurrent(s: State, id: nat)
    requires Inv(s) && Enabled(s, Check(id))
    ensures var t, task := Next(s, Check(id)), s.tasks[id];
      && (Enabled(t, Send(id)) <==> !s.closed && task.generation == s.generation)
      && (Enabled(t, Send(id)) ==> Next(t, Send(id)).log == s.log + [Sent(task.kind, task.generation)])
      && (!Enabled(t, Send(id)) ==> id !in t.tasks && t.lock.None? && t.log == s.log)
  {
  }

  /** A waiting task gets the lock exactly when nobody holds it, and nobody else does then. */
  lemma {:induction false} AcquiresIffFree(s: State, id: nat)
    requires Inv(s) && id in s.tasks && s.tasks[id].Waits()
    ensures Enabled(s, Acquire(id)) <==> forall other | other in s.tasks :: !s.tasks[other].Holds()
    ensures Enabled(s, Acquire(id)) ==>
      var t := Next(s, Acquire(id));
      && id in t.tasks && t.tasks[id].Holds()
      && (forall other | other in s.tasks && other != id :: other in t.tasks && t.tasks[other] == s.tasks[other])
      && t.generation == s.generation && t.closed == s.closed && t.log == s.log
  {
  }

  /** The step of one task, or of the one that is started. */
  function Of(step: Step): nat {
    match step
    case Start(id, _) => id
    case Acquire(id) => id
    case Check(id) => id
    case Send(id) => id
    case EndSend(id) => id
    case Bump(id) => id
    case Publish(id) => id
    case Deliver(id) => id
    case Finish(id, _) => id
    case Drop(id) => id
  }

  /** Steps of other tasks, without a signal. */
  predicate Uncancelled(steps: seq<Step>, id: nat) {
    forall i | 0 <= i < |steps| :: Of(steps[i]) != id && !steps[i].Bump?
  }

  lemma {:induction false} OthersKeep(s: State, steps: seq<Step>, id: nat)
    requires Runs(s, steps) && Uncancelled(steps, id) && id in s.tasks
    ensures var t := Exec(s, steps);
      id in t.tasks && t.tasks[id] == s.tasks[id] && t.generation == s.generation && t.closed == s.closed
    decreases |steps|
  {
    if steps != [] { OthersKeep(Next(s, steps[0]), steps[1..], id); }
  }

  lemma {:induction false} ThreeSteps(s: State, x: Step, y: Step, z: Step)
    requires Enabled(s, x) && Enabled(Next(s, x), y) && Enabled(Next(Next(s, x), y), z)
    ensures Runs(s, [x, y, z]) && Exec(s, [x, y, z]) == Next(Next(Next(s, x), y), z)
  {
    TwoSteps(Next(s, x), y, z);
    assert [x, y, z][1..] == [y, z];
  }

  /** What nobody cancels is sent: a sender of the current generation of an open session that waits through
      any steps of other tasks sends what it came for as soon as the lock is free. */
  lemma {:induction false} UncancelledIsSent(s: State, id: nat, kind: Kind, steps: seq<Step>)
    requires Inv(s) && !s.closed && id in s.tasks && s.tasks[id] == WaitingToSend(kind, s.generation)
    requires Runs(s, steps) && Uncancelled(steps, id) && Exec(s, steps).lock.None?
    ensures var t, sending := Exec(s, steps), [Acquire(id), Check(id), Send(id)];
      && Runs(t, sending) && Runs(s, steps + sending)
      && Exec(s, steps + sending).log == t.log + [Sent(kind, s.generation)]
  {
    OthersKeep(s, steps, id);
    var t := Exec(s, steps);
    var acquired := Next(t, Acquire(id));
    assert Enabled(acquired, Check(id)) && Enabled(Next(acquired, Check(id)), Send(id));
    ThreeSteps(t, Acquire(id), Check(id), Send(id));
    RunsConcat(s, steps, [Acquire(id), Check(id), Send(id)]);
  }

  /** The first prompt of a session is sent. */
  lemma {:induction false} FirstPromptSent()
    ensures var steps := [Start(1, WaitingToSend(UserMessage, 0))] + [Acquire(1), Check(1), Send(1)];
      && Runs(INITIAL, steps) && Exec(INITIAL, steps).log == [Sent(UserMessage, 0)]
  {
    var first := [Start(1, WaitingToSend(UserMessage, 0))];
    var started := Next(INITIAL, first[0]);
    assert first[1..] == [] && Runs(started, first[1..]) && Exec(started, first[1..]) == started;
    assert Runs(INITIAL, first) && Exec(INITIAL, first) == started;
    InitialInv();
    NextInv(INITIAL, first[0]);
    UncancelledIsSent(started, 1, UserMessage, []);
    assert [] + [Acquire(1), Check(1), Send(1)] == [Acquire(1), Check(1), Send(1)];
    RunsConcat(INITIAL, first, [Acquire(1), Check(1), Send(1)]);
  }

  // --- Interrupts and closes ---

  /** What signalling does: on an open session the generation moves on, so that every sender that started
      before is refused, and a close closes the session; a closed session is not interrupted again, and a
      second close takes the generation of the first. */
  lemma {:induction false} SignalEffect(s: State, id: nat)
    requires Inv(s) && Enabled(s, Bump(id))
    ensures var t, closes := Next(s, Bump(id)), s.tasks[id].AboutToClose?;
      if !s.closed then
        && t.generation == s.generation + 1 && t.closed == closes && id in t.tasks
        && t.tasks[id] == Signalling(closes, t.generation)
        && t.log == s.log + (if closes then [ClosedMark, Signalled(t.generation)] else [Signalled(t.generation)])
      else
        && t.generation == s.generation && t.closed && t.log == s.log
        && (if closes then id in t.tasks && t.tasks[id] == Delivering(true, s.generation, false)
            else id !in t.tasks && t.lock.None?)
  {
    assert [ClosedMark] + [Signalled(s.generation + 1)] == [ClosedMark, Signalled(s.generation + 1)];
  }

  /** An interrupt or a close of an open session, once it has the lock, is signalled, delivered and
      acknowledged in that order, and the lock is free again. */
  lemma {:induction false} CancellationDelivered(s: State, id: nat)
    requires Inv(s) && !s.closed && Enabled(s, Bump(id))
    ensures var steps := [Bump(id), Publish(id)] + [Deliver(id), Finish(id, true)];
      var g, closes := s.generation + 1, s.tasks[id].AboutToClose?;
      && Runs(s, steps)
      && Exec(s, steps) == State(
           None, closes, g, false, Status(g, Acknowledged), s.tasks - {id},
           s.log + (if closes then [ClosedMark] else []) + [Signalled(g)]
           + [Published(Status(g, Pending)), Delivered(closes, g), Published(Status(g, Acknowledged))])
  {
    SignalEffect(s, id);
    var bumped := Next(s, Bump(id));
    var published := Next(bumped, Publish(id));
    TwoSteps(s, Bump(id), Publish(id));
    var delivered := Next(published, Deliver(id));
    TwoSteps(published, Deliver(id), Finish(id, true));
    RunsConcat(s, [Bump(id), Publish(id)], [Deliver(id), Finish(id, true)]);
    var end := Next(delivered, Finish(id, true));
    assert end.tasks == s.tasks - {id};
  }

  /** Whoever holds the lock can go on and release it, without being dropped. */
  lemma {:induction false} HolderFinishes(s: State) returns (steps: seq<Step>)
    requires Inv(s) && s.lock.Some?
    ensures Runs(s, steps) && Exec(s, steps).lock.None?
    ensures forall i | 0 <= i < |steps| :: Of(steps[i]) == s.lock.value && !steps[i].Drop?
    decreases match s.tasks[s.lock.value]
              case Checking(_, _) => 1
              case AboutToInterrupt => 3
              case AboutToClose => 3
              case Signalling(_, _) => 2
              case _ => 0
  {
    var id := s.lock.value;
    var step := match s.tasks[id]
      case Checking(_, _) => Check(id)
      case Sending(_, _) => EndSend(id)
      case Signalling(_, _) => Publish(id)
      case Delivering(_, _, _) => Finish(id, false)
      case _ => Bump(id);
    var t := Next(s, step);
    NextInv(s, step);
    var rest := [];
    if t.lock.Some? { rest := HolderFinishes(t); }
    steps := [step] + rest;
    assert steps[1..] == rest;
  }

  // --- Waiters ---

  /** The status settles the outcome: no pending one, not older than what the waiter asked for or has seen. */
  ghost predicate Settles(g: nat, seen: seq<Status>, k: nat) {
    && k < |seen| && !seen[k].outcome.Pending? && seen[k].generation >= g
    && forall j | 0 <= j < k :: seen[j].generation <= seen[k].generation
  }

  ghost predicate SettledBy(g: nat, seen: seq<Status>, k: nat) {
    Settles(g, seen, k) && forall j: nat | j < k :: !Settles(g, seen, j)
  }

  /** A waiter answers exactly when it sees a status that settles its outcome, and the first such status is
      its answer. */
  lemma {:induction false} WaiterAnswers(g: nat, seen: seq<Status>, ok: bool)
    ensures LookAll(Watch(g, None), seen).result == Some(ok) <==>
      exists k: nat :: SettledBy(g, seen, k) && ok == seen[k].outcome.Acknowledged?
    decreases |seen|
  {
    if seen != [] {
      var next, rest := Look(Watch(g, None), seen[0]), seen[1..];
      assert Settles(g, seen, 0) <==> next.result.Some?;
      if next.result.Some? {
        DecidedStays(next, rest);
        assert SettledBy(g, seen, 0);
      } else {
        WaiterAnswers(next.target, rest, ok);
        forall k: nat ensures SettledBy(g, seen, k + 1) <==> SettledBy(next.target, rest, k) {
          SettledLater(g, seen, k);
        }
        assert forall k: nat | SettledBy(g, seen, k) :: k > 0 && SettledBy(next.target, rest, k - 1);
      }
    }
  }

  lemma {:induction false} SettlesLater(g: nat, seen: seq<Status>, k: nat)
    requires seen != []
    ensures Settles(g, seen, k + 1) <==> Settles(Look(Watch(g, None), seen[0]).target, seen[1..], k)
  {
    var target, rest := Look(Watch(g, None), seen[0]).target, seen[1..];
    assert forall j | 0 <= j < |rest| :: rest[j] == seen[j + 1];
    if k < |rest| {
      assert rest[k] == seen[k + 1];
      if Settles(g, seen, k + 1) {
        forall j | 0 <= j < k ensures rest[j].generation <= rest[k].generation {
          assert seen[j + 1].generation <= seen[k + 1].generation;
        }
        assert seen[0].generation <= seen[k + 1].generation;
      }
      if Settles(target, rest, k) {
        forall j | 0 <= j < k + 1 ensures seen[j].generation <= seen[k + 1].generation {
          if j > 0 { assert rest[j - 1].generation <= rest[k].generation; }
        }
      }
    }
  }

  lemma {:induction false} SettledLater(g: nat, seen: seq<Status>, k: nat)
    requires seen != [] && !Settles(g, seen, 0)
    ensures SettledBy(g, seen, k + 1) <==> SettledBy(Look(Watch(g, None), seen[0]).target, seen[1..], k)
  {
    var target, rest := Look(Watch(g, None), seen[0]).target, seen[1..];
    forall j: nat ensures Settles(g, seen, j + 1) <==> Settles(target, rest, j) { SettlesLater(g, seen, j); }
    if SettledBy(g, seen, k + 1) {
      forall j: nat | j < k ensures !Settles(target, rest, j) { assert !Settles(g, seen, j + 1); }
    }
    if SettledBy(target, rest, k) {
      forall j: nat | j < k + 1 ensures !Settles(g, seen, j) {
        if j > 0 { assert !Settles(target, rest, j - 1); }
      }
    }
  }
}
