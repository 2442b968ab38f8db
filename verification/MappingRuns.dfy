/** Whole runs of the ACP mapping: exactly-once text, permanent retirement, replay idempotence. */
module MappingRuns {
  import opened Common
  import opened Mapping

  datatype Step =
    | TextDelta(main: bool, itemSeq: nat, text: string, reasoning: bool)
    | LiveUpdate(item: Item, added: bool)
    | ReplayOne(item: Item)
    | TurnFinished

  /** The mapping and, per item, all text the ACP client holds: seeded or sent. */
  datatype World = World(state: State, sent: map<nat, string>)

  function Apply(s: State, step: Step): Outcome {
    match step
    case TextDelta(main, q, text, reasoning) => Delta(s, main, q, text, reasoning)
    case LiveUpdate(item, added) => LiveItem(s, item, added)
    case ReplayOne(item) => ReplayItem(s, item)
    case TurnFinished => Outcome(FinishTurn(s), [], true)
  }

  /** The assistant or reasoning item a step speaks about. */
  function TextItem(step: Step): Option<nat> {
    match step
    case TextDelta(_, q, _, _) => Some(q)
    case LiveUpdate(item, _) => if item.kind.IsText() then Some(item.itemSeq) else None
    case ReplayOne(item) => if item.kind.IsText() then Some(item.itemSeq) else None
    case TurnFinished => None
  }

  function TextOf(updates: seq<Update>): string {
    if updates == [] then ""
    else
      (if updates[0].MessageChunk? || updates[0].ThoughtChunk? then updates[0].text else "") + TextOf(updates[1..])
  }

  function Sent(w: World, q: nat): string {
    if q in w.sent then w.sent[q] else ""
  }

  function Next(w: World, step: Step): World {
    var o := Apply(w.state, step);
    World(o.state,
          if TextItem(step).Some?
          then w.sent[TextItem(step).value := Sent(w, TextItem(step).value) + TextOf(o.updates)] else w.sent)
  }

  function Exec(w: World, steps: seq<Step>): World
    decreases |steps|
  {
    if steps == [] then w else Exec(Next(w, steps[0]), steps[1..])
  }

  /** For every item that is neither retired nor complete, the client holds exactly the text the
      mapping remembers. */
  ghost predicate Faithful(w: World) {
    forall q :: !RefusesText(w.state, q) ==> Sent(w, q) == Streamed(w.state, q)
  }

  // --- How one step affects the remembered text of an item ---

  ghost predicate SameText(s: State, t: State, q: nat) {
    (q in s.completed <==> q in t.completed) && Streamed(s, q) == Streamed(t, q)
  }

  /** Items other than `q` that are not retired in `t` kept their text from `s` to `t`. */
  ghost predicate OthersKept(s: State, t: State, q: nat) {
    s.floor <= t.floor && forall r :: r > t.floor && r != q ==> SameText(s, t, r)
  }

  lemma {:induction false} TrackText(s: State, q: nat)
    requires Valid(s)
    ensures OthersKept(s, Track(s, q), q)
    ensures !Retired(s, q) ==> SameText(s, Track(s, q), q)
  {
    TrackAdvances(s, q);
    var t := Track(s, q);
    forall r | r > t.floor && r != q ensures SameText(s, t, r) {
      if r in t.retained { TrackKeepsRecords(s, q, r); }
    }
    if !Retired(s, q) { TrackKeepsRecords(s, q, q); }
  }

  lemma {:induction false} MarkOnlyText(s: State, q: nat)
    requires Valid(s)
    ensures OthersKept(s, MarkReplayed(s, q), q)
    ensures !Retired(s, q) ==> SameText(s, MarkReplayed(s, q), q) && q in MarkReplayed(s, q).retained
  {
    TrackText(s, q);
    TrackAdvances(s, q);
  }

  /** Remembering a tool call that is already tracked touches no text. */
  lemma {:induction false} ToolKeepsText(s: State, item: Item)
    requires item.itemSeq in s.retained || Retired(s, item.itemSeq)
    ensures var t := RememberTool(s, item);
      t.streamed == s.streamed && t.completed == s.completed && t.floor == s.floor && t.retained == s.retained
  {
  }

  lemma {:induction false} MarkText(s: State, item: Item)
    requires Valid(s)
    ensures var t := RememberTool(MarkReplayed(s, item.itemSeq), item);
      OthersKept(s, t, item.itemSeq) && (!Retired(s, item.itemSeq) ==> SameText(s, t, item.itemSeq))
  {
    MarkOnlyText(s, item.itemSeq);
    var marked := MarkReplayed(s, item.itemSeq);
    ToolKeepsText(marked, item);
    var t := RememberTool(marked, item);
    forall r | r > t.floor && r != item.itemSeq ensures SameText(s, t, r) {
      assert SameText(s, marked, r);
    }
  }

  lemma {:induction false} DeltaText(s: State, q: nat, text: string)
    requires Valid(s) && !RefusesText(s, q)
    ensures var t := RecordDelta(s, q, text);
      OthersKept(s, t, q) && q !in t.completed && Streamed(t, q) == Streamed(s, q) + text
  {
    TrackText(s, q);
  }

  lemma {:induction false} TakeFinalText(s: State, q: nat, text: string)
    requires Valid(s) && !RefusesText(s, q)
    ensures var (t, suffix) := TakeFinal(s, q, text);
      && OthersKept(s, t, q) && q in t.completed
      && (if Streamed(s, q) <= text
          then Streamed(s, q) + (if suffix.Some? then suffix.value else "") == text
          else suffix.None?)
  {
    TrackText(s, q);
  }

  lemma {:induction false} PartialText(s: State, q: nat, text: string, reasoning: bool)
    requires Valid(s) && !RefusesText(s, q)
    ensures var o := ReplayPartial(s, q, text, reasoning);
      && OthersKept(s, o.state, q) && q !in o.state.completed
      && (o.ok <==> Streamed(s, q) <= text)
      && (o.ok ==> Streamed(o.state, q) == text == Streamed(s, q) + TextOf(o.updates))
      && (!o.ok ==> SameText(s, o.state, q) && o.updates == [])
  {
    TrackText(s, q);
    TrackAdvances(s, q);
    TrackKeepsRecords(s, q, q);
  }

  /** Marking and remembering a replayed item only records what the replay just established. */
  lemma {:induction false} RememberText(s: State, item: Item)
    requires Valid(s)
    ensures var t := Remember(MarkReplayed(s, item.itemSeq), item);
      && OthersKept(s, t, item.itemSeq)
      && (item.main && item.kind.IsText() && !Retired(t, item.itemSeq) ==>
            if item.kind.complete then item.itemSeq in t.completed
            else item.itemSeq !in t.completed && Streamed(t, item.itemSeq) == item.kind.text)
  {
    var q, marked := item.itemSeq, MarkReplayed(s, item.itemSeq);
    MarkOnlyText(s, q);
    if item.main && !Retired(marked, q) {
      TrackedRemember(marked, item);
      var t := Remember(marked, item);
      forall r | r > t.floor && r != q ensures SameText(s, t, r) {
        assert SameText(s, marked, r) && SameText(marked, t, r);
      }
    }
  }

  /** Remembering an item that is already tracked changes only that item's records. */
  lemma {:induction false} TrackedRemember(s: State, item: Item)
    requires item.main && item.itemSeq in s.retained && !Retired(s, item.itemSeq)
    ensures var t, q := Remember(s, item), item.itemSeq;
      && t.floor == s.floor && t.retained == s.retained
      && (forall r :: r != q ==> SameText(s, t, r))
      && (if !item.kind.IsText() then SameText(s, t, q)
          else if item.kind.complete then q in t.completed
          else q !in t.completed && Streamed(t, q) == item.kind.text)
  {
    ToolKeepsText(s, item);
    var t := RememberTool(s, item);
    assert Track(t, item.itemSeq) == t;
  }

  lemma {:induction false} OthersKeptTransitive(s: State, t: State, u: State, q: nat)
    requires OthersKept(s, t, q) && OthersKept(t, u, q)
    ensures OthersKept(s, u, q)
  {
    forall r | r > u.floor && r != q ensures SameText(s, u, r) {
      assert SameText(s, t, r) && SameText(t, u, r);
    }
  }

  lemma {:induction false} ReplayBodyText(s: State, item: Item)
    requires Valid(s) && item.main && !Retired(s, item.itemSeq)
    ensures OthersKept(s, ReplayBody(s, item).state, item.itemSeq)
  {
    var q, k := item.itemSeq, item.kind;
    if k.IsText() && !RefusesText(s, q) {
      if k.complete { TakeFinalText(s, q, k.text); } else { PartialText(s, q, k.text, k.Reasoning?); }
    } else if k.ToolCall? {
      ToolBodyText(s, item, q !in s.replayed);
    }
  }

  lemma {:induction false} ToolBodyText(s: State, item: Item, isNew: bool)
    requires Valid(s) && item.kind.ToolCall?
    ensures OthersKept(s, ReplayTool(s, item, isNew).state, item.itemSeq)
  {
    TrackText(s, item.itemSeq);
    var t, u := Track(s, item.itemSeq), ReplayTool(s, item, isNew).state;
    forall r | r > u.floor && r != item.itemSeq ensures SameText(s, u, r) {
      assert SameText(s, t, r);
    }
  }

  lemma {:induction false} StepKeepsOthers(s: State, step: Step, q: nat)
    requires Valid(s)
    requires step.TurnFinished? || q == (if step.TextDelta? then step.itemSeq else step.item.itemSeq)
    ensures step.TurnFinished? || OthersKept(s, Apply(s, step).state, q)
  {
    match step
    case TextDelta(main, _, text, _) =>
      if main && !RefusesText(s, q) { DeltaText(s, q, text); }
    case LiveUpdate(item, _) =>
      if item.main {
        MarkText(s, item);
        LiveItemAdvances(s, item, true);
        MarkAdvances(s, q);
        var marked := MarkReplayed(s, q);
        RememberToolAdvances(marked, item);
        var t := RememberTool(marked, item);
        if item.kind.IsText() && item.kind.complete && !RefusesText(t, q) {
          TakeFinalText(t, q, item.kind.text);
          OthersKeptTransitive(s, t, TakeFinal(t, q, item.kind.text).0, q);
        }
      }
    case ReplayOne(item) =>
      if item.main && !Retired(s, q) {
        ReplayBodyText(s, item);
        var body := ReplayBody(s, item);
        ReplayBodyAdvances(s, item);
        RememberText(body.state, item);
        OthersKeptTransitive(s, body.state, Remember(MarkReplayed(body.state, q), item), q);
      }
    case TurnFinished =>
  }

  lemma {:induction false} StepAdvances(s: State, step: Step)
    requires Valid(s)
    ensures Advances(s, Apply(s, step).state)
  {
    match step
    case TextDelta(_, q, text, r) => TextAdvances(s, q, text, r);
    case LiveUpdate(item, added) => LiveItemAdvances(s, item, added);
    case ReplayOne(item) => ReplayItemAdvances(s, item);
    case TurnFinished =>
  }

  // --- Exactly-once text ---

  /** A snapshot shows as unfinished an item that was already completed. */
  predicate Unfinishes(s: State, step: Step) {
    step.ReplayOne? && step.item.main && step.item.kind.IsText() && !step.item.kind.complete
    && !Retired(s, step.item.itemSeq) && step.item.itemSeq in s.completed
  }

  lemma {:induction false} TextOfOne(u: Update)
    ensures TextOf([u]) == if u.MessageChunk? || u.ThoughtChunk? then u.text else ""
  {
    assert TextOf([u][1..]) == "";
  }

  /** The text a step sends on its own item, and what is remembered of it afterwards. */
  lemma {:induction false} StepText(w: World, step: Step, q: nat)
    requires Valid(w.state) && Faithful(w) && TextItem(step) == Some(q)
    requires !RefusesText(w.state, q)
    ensures var t := Apply(w.state, step).state;
      RefusesText(t, q) || Sent(Next(w, step), q) == Streamed(t, q)
  {
    var s := w.state;
    match step
    case TextDelta(main, _, text, reasoning) =>
      DeltaText(s, q, text);
      TextOfOne(Chunk(text, reasoning));
    case LiveUpdate(item, added) =>
      if item.main { LiveText(s, item, added); }
    case ReplayOne(item) =>
      if item.main { ReplayText(s, item); }
  }

  /** A live text item that does not complete sends nothing and keeps its text. */
  lemma {:induction false} LiveText(s: State, item: Item, added: bool)
    requires Valid(s) && item.main && item.kind.IsText() && !RefusesText(s, item.itemSeq)
    ensures var o := LiveItem(s, item, added);
      RefusesText(o.state, item.itemSeq)
        || (Streamed(o.state, item.itemSeq) == Streamed(s, item.itemSeq) && TextOf(o.updates) == "")
  {
    MarkText(s, item);
  }

  /** Replaying an open text item sends what is missing of it. */
  lemma {:induction false} ReplayText(s: State, item: Item)
    requires Valid(s) && item.main && item.kind.IsText() && !RefusesText(s, item.itemSeq)
    ensures var o := ReplayItem(s, item);
      RefusesText(o.state, item.itemSeq)
        || Streamed(o.state, item.itemSeq) == Streamed(s, item.itemSeq) + TextOf(o.updates)
  {
    var q, body := item.itemSeq, ReplayBody(s, item);
    ReplayBodyAdvances(s, item);
    if item.kind.complete {
      TakeFinalText(s, q, item.kind.text);
    } else {
      PartialText(s, q, item.kind.text, item.kind.Reasoning?);
    }
    RememberText(body.state, item);
  }

  /** Whether the step's text belongs to a reasoning item. */
  predicate ReasoningStep(step: Step)
    requires TextItem(step).Some?
  {
    if step.TextDelta? then step.reasoning else step.item.kind.Reasoning?
  }

  /** All text of an item goes out on its own channel: thoughts for reasoning, messages otherwise; and
      only the main agent's items send anything. */
  lemma {:induction false} ChannelKept(s: State, step: Step, u: Update)
    requires TextItem(step).Some? && u in Apply(s, step).updates
    ensures if ReasoningStep(step) then u.ThoughtChunk? else u.MessageChunk?
    ensures if step.TextDelta? then step.main else step.item.main
  {
    if step.ReplayOne? {
      var body := ReplayBody(s, step.item);
      assert ReplayItem(s, step.item).updates == body.updates;
    }
  }

  /** A refused item is sent nothing, by any step. */
  lemma {:induction false} RefusedIsSilent(w: World, step: Step, q: nat)
    requires Valid(w.state) && RefusesText(w.state, q)
    ensures Sent(Next(w, step), q) == Sent(w, q)
  {
    if TextItem(step) == Some(q) {
      var s := w.state;
      match step
      case TextDelta(_, _, _, _) =>
      case LiveUpdate(item, _) =>
        MarkText(s, item);
        MarkAdvances(s, q);
        RememberToolAdvances(MarkReplayed(s, q), item);
      case ReplayOne(item) =>
    }
  }

  /** Exactly when a step keeps the client's text equal to what is remembered: always, except that
      an item shown unfinished after its completion must show the text already sent. */
  lemma {:induction false} StepFaithful(w: World, step: Step)
    requires Valid(w.state) && Faithful(w)
    ensures Faithful(Next(w, step)) <==>
      !(Unfinishes(w.state, step) && step.item.kind.text != Sent(w, step.item.itemSeq))
  {
    var s, t := w.state, Apply(w.state, step).state;
    StepAdvances(s, step);
    if step.TurnFinished? {
      assert forall q :: !RefusesText(t, q) ==> Streamed(t, q) == Streamed(s, q);
    } else {
      var q := if step.TextDelta? then step.itemSeq else step.item.itemSeq;
      StepKeepsOthers(s, step, q);
      forall r | r != q && !RefusesText(t, r) ensures Sent(Next(w, step), r) == Streamed(t, r) {
        assert SameText(s, t, r);
      }
      OwnItemFaithful(w, step, q);
    }
  }

  lemma {:induction false} OwnItemFaithful(w: World, step: Step, q: nat)
    requires Valid(w.state) && Faithful(w) && !step.TurnFinished?
    requires q == if step.TextDelta? then step.itemSeq else step.item.itemSeq
    ensures (RefusesText(Next(w, step).state, q) || Sent(Next(w, step), q) == Streamed(Next(w, step).state, q)) <==>
      !(Unfinishes(w.state, step) && step.item.kind.text != Sent(w, q))
  {
    var s, t := w.state, Apply(w.state, step).state;
    StepAdvances(s, step);
    if Unfinishes(s, step) {
      UnfinishedReplay(s, step.item);
      RefusedIsSilent(w, step, q);
    } else if RefusesText(s, q) {
      RefusedStays(s, step, q);
      RefusedIsSilent(w, step, q);
    } else if TextItem(step) == Some(q) {
      StepText(w, step, q);
    } else {
      NonTextKeeps(s, step, q);
    }
  }

  /** The un-completing branch of `remember_item`. */
  lemma {:induction false} UnfinishedReplay(s: State, item: Item)
    requires Valid(s) && Unfinishes(s, ReplayOne(item))
    ensures var t := ReplayItem(s, item).state;
      !RefusesText(t, item.itemSeq) && Streamed(t, item.itemSeq) == item.kind.text
  {
    assert ReplayBody(s, item).state == s;
    TrackAdvances(s, item.itemSeq);
    assert MarkReplayed(s, item.itemSeq).floor == s.floor;
    TrackAdvances(MarkReplayed(s, item.itemSeq), item.itemSeq);
  }

  /** A step about `q` that carries no text leaves its text alone. */
  lemma {:induction false} NonTextKeeps(s: State, step: Step, q: nat)
    requires Valid(s) && !step.TurnFinished? && TextItem(step).None? && !RefusesText(s, q)
    requires q == step.item.itemSeq
    ensures SameText(s, Apply(s, step).state, q)
  {
    var item := step.item;
    if item.main {
      if step.LiveUpdate? {
        MarkText(s, item);
      } else {
        TrackText(s, q);
        var body := ReplayBody(s, item).state;
        ReplayBodyAdvances(s, item);
        MarkOnlyText(body, q);
        var marked := MarkReplayed(body, q);
        if !Retired(marked, q) { TrackedRemember(marked, item); }
      }
    }
  }

  /** Once retired or complete, an item stays so under every step that does not un-complete it. */
  lemma {:induction false} RefusedStays(s: State, step: Step, q: nat)
    requires Valid(s) && RefusesText(s, q)
    requires !(Unfinishes(s, step) && step.item.itemSeq == q)
    ensures RefusesText(Apply(s, step).state, q)
  {
    var t := Apply(s, step).state;
    StepAdvances(s, step);
    if q > t.floor && !step.TurnFinished? {
      var r := if step.TextDelta? then step.itemSeq else step.item.itemSeq;
      StepKeepsOthers(s, step, r);
      if r != q {
        assert SameText(s, t, q);
      } else if !step.TextDelta? && step.item.main {
        CompletedKept(s, step, q);
      }
    }
  }

  lemma {:induction false} CompletedKept(s: State, step: Step, q: nat)
    requires Valid(s) && (step.LiveUpdate? || step.ReplayOne?) && step.item.main && step.item.itemSeq == q
    requires !Retired(s, q) && q in s.completed && !Unfinishes(s, step)
    ensures q in Apply(s, step).state.completed
  {
    var item := step.item;
    assert Track(s, q) == s;
    if step.LiveUpdate? {
      ToolKeepsText(MarkReplayed(s, q), item);
    } else {
      var body := ReplayBody(s, item).state;
      assert q in body.completed && q in body.retained && body.floor == s.floor;
      TrackedRemember(MarkReplayed(body, q), item);
    }
  }

  /** The step re-opens a completed item with another text than the client holds. */
  predicate Rewrites(w: World, step: Step) {
    Unfinishes(w.state, step) && step.item.kind.text != Sent(w, step.item.itemSeq)
  }

  /** No step of the run rewrites what the client holds. */
  ghost predicate NeverRewrites(w: World, steps: seq<Step>)
    decreases |steps|
  {
    steps == [] || (!Rewrites(w, steps[0]) && NeverRewrites(Next(w, steps[0]), steps[1..]))
  }

  ghost predicate AlwaysFaithful(w: World, steps: seq<Step>)
    decreases |steps|
  {
    Faithful(w) && (steps == [] || AlwaysFaithful(Next(w, steps[0]), steps[1..]))
  }

  /** Exactly which runs keep the client's text equal to what is remembered all along: those in which
      no snapshot re-opens a completed item with a text other than the one sent. */
  lemma {:induction false} FaithfulRuns(w: World, steps: seq<Step>)
    requires Valid(w.state) && Faithful(w)
    ensures AlwaysFaithful(w, steps) <==> NeverRewrites(w, steps)
    decreases |steps|
  {
    if steps != [] {
      StepAdvances(w.state, steps[0]);
      StepFaithful(w, steps[0]);
      var next := Next(w, steps[0]);
      if Faithful(next) {
        FaithfulRuns(next, steps[1..]);
      } else {
        assert !AlwaysFaithful(next, steps[1..]);
      }
    }
  }

  /** A snapshot that shows item 1 unfinished after its text "ab" was sent: the mapping now believes
      that the client holds "a". */
  lemma {:induction false} ReopenedExample()
    ensures var live := LiveUpdate(Item(true, 1, Assistant("ab", true)), true);
      var reopen := ReplayOne(Item(true, 1, Assistant("a", false)));
      var w := Next(World(EMPTY, map[]), live);
      && Valid(w.state) && Faithful(w) && Sent(w, 1) == "ab"
      && Rewrites(w, reopen) && !Faithful(Next(w, reopen)) && Streamed(Next(w, reopen).state, 1) == "a"
  {
    var start, item := World(EMPTY, map[]), Item(true, 1, Assistant("ab", true));
    var live, reopen := LiveUpdate(item, true), ReplayOne(Item(true, 1, Assistant("a", false)));
    var w := Next(start, live);
    StepAdvances(EMPTY, live);
    StepFaithful(start, live);
    FinalText(start, live, 1, "ab");
    assert w.state.completed == {1} && w.state.floor == 0;
    UnfinishedReplay(w.state, reopen.item);
    StepFaithful(w, reopen);
  }

  /** No step of the run shows an item unfinished after it completed. */
  ghost predicate Orderly(w: World, steps: seq<Step>)
    decreases |steps|
  {
    steps == [] || (!Unfinishes(w.state, steps[0]) && Orderly(Next(w, steps[0]), steps[1..]))
  }

  /** Exactly-once text over whole runs: what the client holds of every open item is what is
      remembered of it, and the text of a retired or complete item is final. */
  lemma {:induction false} ExactlyOnce(w: World, steps: seq<Step>)
    requires Valid(w.state) && Faithful(w) && Orderly(w, steps)
    ensures Valid(Exec(w, steps).state) && Faithful(Exec(w, steps))
    ensures forall q :: RefusesText(w.state, q) ==>
      RefusesText(Exec(w, steps).state, q) && Sent(Exec(w, steps), q) == Sent(w, q)
    decreases |steps|
  {
    if steps != [] {
      var next := Next(w, steps[0]);
      StepAdvances(w.state, steps[0]);
      StepFaithful(w, steps[0]);
      forall q | RefusesText(w.state, q)
        ensures RefusesText(next.state, q) && Sent(next, q) == Sent(w, q)
      {
        RefusedStays(w.state, steps[0], q);
        RefusedIsSilent(w, steps[0], q);
      }
      ExactlyOnce(next, steps[1..]);
    }
  }

  /** The retention queue is full of items newer than `q`: tracking `q` retires it at once. */
  predicate Overtaken(s: State, q: nat) {
    q !in s.retained && |s.order| == RETENTION_LIMIT && s.order[0] > q
  }

  /** When the complete text of an open item arrives, the client ends up holding exactly that text
      if what it holds is a prefix; otherwise nothing more is sent, and a divergent replay fails
      without touching the state. A live item overtaken by the retention queue is the exception:
      it retires before its text is taken. */
  lemma {:induction false} FinalText(w: World, step: Step, q: nat, text: string)
    requires Valid(w.state) && Faithful(w) && !RefusesText(w.state, q)
    requires (step.LiveUpdate? || step.ReplayOne?) && step.item.main && step.item.itemSeq == q
    requires step.item.kind.IsText() && step.item.kind.complete && step.item.kind.text == text
    ensures var next, o := Next(w, step), Apply(w.state, step);
      if step.LiveUpdate? && Overtaken(w.state, q) then Sent(next, q) == Sent(w, q) == "" && Retired(next.state, q)
      else if Sent(w, q) <= text then Sent(next, q) == text && o.ok && RefusesText(next.state, q)
      else
        && Sent(next, q) == Sent(w, q)
        && if step.ReplayOne? then !o.ok && next.state == w.state else RefusesText(next.state, q)
  {
    var s, item := w.state, step.item;
    if step.LiveUpdate? {
      MarkText(s, item);
      TrackAdvances(s, q);
      MarkAdvances(s, q);
      var marked := MarkReplayed(s, q);
      if Overtaken(s, q) {
        assert marked.floor >= s.order[0];
        assert Streamed(s, q) == "";
      } else {
        assert marked.floor < q;
        TakeFinalText(marked, q, text);
        var suffix := TakeFinal(marked, q, text).1;
        if suffix.Some? { TextOfOne(Chunk(suffix.value, item.kind.Reasoning?)); }
      }
    } else {
      TakeFinalText(s, q, text);
      var suffix := TakeFinal(s, q, text).1;
      if suffix.Some? { TextOfOne(Chunk(suffix.value, item.kind.Reasoning?)); }
      if !Diverges(s, q, text) {
        ReplayBodyAdvances(s, item);
        RememberText(ReplayBody(s, item).state, item);
      }
    }
  }

  /** The seqs 2 to n + 1, in order. */
  function Newer(n: nat): seq<nat> {
    if n == 0 then [] else Newer(n - 1) + [n + 1]
  }

  lemma {:induction false} NewerShape(n: nat)
    ensures |Newer(n)| == n && forall i | 0 <= i < n :: Newer(n)[i] == i + 2
  {
    if n > 0 { NewerShape(n - 1); }
  }

  /** User messages with these seqs, seen live. */
  function Arrivals(n: nat): seq<Step> {
    if n == 0 then [] else Arrivals(n - 1) + [LiveUpdate(Item(true, n + 1, User("")), true)]
  }

  function Members(seqs: seq<nat>): set<nat> {
    set q | q in seqs
  }

  function Crowd(n: nat): State {
    EMPTY.(retained := Members(Newer(n)), replayed := Members(Newer(n)), order := Newer(n))
  }

  lemma {:induction false} ArrivalsCrowd(n: nat)
    requires n <= RETENTION_LIMIT
    ensures Exec(World(EMPTY, map[]), Arrivals(n)) == World(Crowd(n), map[])
  {
    if n > 0 {
      ArrivalsCrowd(n - 1);
      var last := LiveUpdate(Item(true, n + 1, User("")), true);
      ExecConcat(World(EMPTY, map[]), Arrivals(n - 1), [last]);
      ExecOne(World(Crowd(n - 1), map[]), last);
      CrowdGrows(n);
    }
  }

  lemma {:induction false} ExecOne(w: World, step: Step)
    ensures Exec(w, [step]) == Next(w, step)
  {
    assert [step][1..] == [];
  }

  lemma {:induction false} CrowdGrows(n: nat)
    requires 0 < n <= RETENTION_LIMIT
    ensures MarkReplayed(Crowd(n - 1), n + 1) == Crowd(n)
  {
    NewerShape(n - 1);
    assert n + 1 !in Crowd(n - 1).retained;
    assert Members(Newer(n)) == Members(Newer(n - 1)) + {n + 1};
  }

  /** After 1024 newer items arrived live, the live and complete item 1 sends nothing, and is retired:
      its text never arrives. */
  lemma {:induction false} OvertakenExample()
    ensures var w := Exec(World(EMPTY, map[]), Arrivals(RETENTION_LIMIT));
      var step := LiveUpdate(Item(true, 1, Assistant("ab", true)), true);
      && Valid(w.state) && Faithful(w) && !RefusesText(w.state, 1) && Overtaken(w.state, 1)
      && Sent(Next(w, step), 1) == "" && Retired(Next(w, step).state, 1)
  {
    ArrivalsCrowd(RETENTION_LIMIT);
    NewerShape(RETENTION_LIMIT);
    RunAdvances(World(EMPTY, map[]), Arrivals(RETENTION_LIMIT));
    var w := World(Crowd(RETENTION_LIMIT), map[]);
    FinalText(w, LiveUpdate(Item(true, 1, Assistant("ab", true)), true), 1, "ab");
  }

  /** Delivery is for good: after its complete text was sent, no orderly run changes what the
      client holds of the item. */
  lemma {:induction false} DeliveredForGood(w: World, step: Step, q: nat, text: string, later: seq<Step>)
    requires Valid(w.state) && Faithful(w) && !RefusesText(w.state, q)
    requires (step.LiveUpdate? || step.ReplayOne?) && step.item.main && step.item.itemSeq == q
    requires step.item.kind.IsText() && step.item.kind.complete && step.item.kind.text == text
    requires Sent(w, q) <= text && !(step.LiveUpdate? && Overtaken(w.state, q))
    requires Orderly(Next(w, step), later)
    ensures Sent(Exec(Next(w, step), later), q) == text
  {
    FinalText(w, step, q, text);
    StepAdvances(w.state, step);
    StepFaithful(w, step);
    ExactlyOnce(Next(w, step), later);
  }

  /** A replay diverging from what was streamed is refused and sends nothing. */
  lemma {:induction false} DivergentPartialReplay(w: World, item: Item)
    requires Valid(w.state) && Faithful(w) && item.main && item.kind.IsText() && !item.kind.complete
    requires !RefusesText(w.state, item.itemSeq)
    ensures ReplayItem(w.state, item).ok <==> Sent(w, item.itemSeq) <= item.kind.text
    ensures !ReplayItem(w.state, item).ok ==>
      ReplayItem(w.state, item).updates == [] && SameText(w.state, ReplayItem(w.state, item).state, item.itemSeq)
  {
    PartialText(w.state, item.itemSeq, item.kind.text, item.kind.Reasoning?);
  }

  // --- The state a session starts from ---

  function SeedSent(s: State, sent: map<nat, string>, items: seq<(nat, string, bool)>): map<nat, string>
    decreases |items|
  {
    if items == [] then sent
    else
      var (q, text, complete) := items[0];
      SeedSent(SeedItem(s, q, text, complete), if Retired(s, q) then sent else sent[q := text], items[1..])
  }

  lemma {:induction false} SeedItemsFaithful(s: State, sent: map<nat, string>, items: seq<(nat, string, bool)>)
    requires Valid(s) && Faithful(World(s, sent))
    ensures Valid(SeedItems(s, items)) && Faithful(World(SeedItems(s, items), SeedSent(s, sent, items)))
    decreases |items|
  {
    if items != [] {
      var (q, text, complete) := items[0];
      var t := SeedItem(s, q, text, complete);
      TrackAdvances(s, q);
      TrackText(s, q);
      var sent1 := if Retired(s, q) then sent else sent[q := text];
      forall r | !RefusesText(t, r) ensures Sent(World(t, sent1), r) == Streamed(t, r) {
        if r != q { assert SameText(s, Track(s, q), r); assert Sent(World(s, sent), r) == Streamed(s, r); }
      }
      SeedItemsFaithful(t, sent1, items[1..]);
    }
  }

  lemma {:induction false} TextKeptFaithful(s: State, t: State, sent: map<nat, string>, q: nat)
    requires Faithful(World(s, sent)) && OthersKept(s, t, q) && (!Retired(s, q) ==> SameText(s, t, q))
    ensures Faithful(World(t, sent))
  {
    forall r | !RefusesText(t, r) ensures Sent(World(t, sent), r) == Streamed(t, r) {
      assert SameText(s, t, r) && Sent(World(s, sent), r) == Streamed(s, r);
    }
  }

  lemma {:induction false} SeedStatusText(s: State, q: nat, status: ToolStatus)
    requires Valid(s)
    ensures var t := SeedStatus(s, q, status);
      Valid(t) && OthersKept(s, t, q) && (!Retired(s, q) ==> SameText(s, t, q))
  {
    TrackAdvances(s, q);
    TrackText(s, q);
    var t := SeedStatus(s, q, status);
    forall r | r > t.floor && r != q ensures SameText(s, t, r) {
      assert SameText(s, Track(s, q), r);
    }
  }

  lemma {:induction false} MarkAllFaithful(s: State, sent: map<nat, string>, seen: seq<nat>)
    requires Valid(s) && Faithful(World(s, sent))
    ensures Valid(MarkAll(s, seen)) && Faithful(World(MarkAll(s, seen), sent))
    decreases |seen|
  {
    if seen != [] {
      MarkAdvances(s, seen[0]);
      MarkOnlyText(s, seen[0]);
      var t := MarkReplayed(s, seen[0]);
      TextKeptFaithful(s, t, sent, seen[0]);
      MarkAllFaithful(t, sent, seen[1..]);
    }
  }

  lemma {:induction false} SeedStatusesFaithful(s: State, sent: map<nat, string>, statuses: seq<(nat, ToolStatus)>)
    requires Valid(s) && Faithful(World(s, sent))
    ensures Valid(SeedStatuses(s, statuses)) && Faithful(World(SeedStatuses(s, statuses), sent))
    decreases |statuses|
  {
    if statuses != [] {
      var q := statuses[0].0;
      var t := SeedStatus(s, q, statuses[0].1);
      SeedStatusText(s, q, statuses[0].1);
      TextKeptFaithful(s, t, sent, q);
      SeedStatusesFaithful(t, sent, statuses[1..]);
    }
  }

  /** The mapping of a freshly attached session, seeded from its first snapshot. */
  function Opened(items: seq<(nat, string, bool)>, seen: seq<nat>, statuses: seq<(nat, ToolStatus)>): World {
    World(SeedStatuses(MarkAll(SeedItems(EMPTY, items), seen), statuses), SeedSent(EMPTY, map[], items))
  }

  lemma {:induction false} OpenedFaithful(items: seq<(nat, string, bool)>, seen: seq<nat>,
    statuses: seq<(nat, ToolStatus)>)
    ensures Valid(Opened(items, seen, statuses).state) && Faithful(Opened(items, seen, statuses))
  {
    SeedItemsFaithful(EMPTY, map[], items);
    var sent := SeedSent(EMPTY, map[], items);
    MarkAllFaithful(SeedItems(EMPTY, items), sent, seen);
    SeedStatusesFaithful(MarkAll(SeedItems(EMPTY, items), seen), sent, statuses);
  }

  // --- Bounded retention, permanent retirement ---

  lemma {:induction false} RunAdvances(w: World, steps: seq<Step>)
    requires Valid(w.state)
    ensures Advances(w.state, Exec(w, steps).state)
    decreases |steps|
  {
    if steps != [] {
      StepAdvances(w.state, steps[0]);
      RunAdvances(Next(w, steps[0]), steps[1..]);
      AdvancesTransitive(w.state, Next(w, steps[0]).state, Exec(w, steps).state);
    }
  }

  lemma {:induction false} RetiredIsSilent(w: World, steps: seq<Step>, q: nat)
    requires Valid(w.state) && Retired(w.state, q)
    ensures Sent(Exec(w, steps), q) == Sent(w, q)
    decreases |steps|
  {
    if steps != [] {
      StepAdvances(w.state, steps[0]);
      RefusedIsSilent(w, steps[0], q);
      RetiredIsSilent(Next(w, steps[0]), steps[1..], q);
    }
  }

  lemma {:induction false} ExecConcat(w: World, a: seq<Step>, b: seq<Step>)
    ensures Exec(w, a + b) == Exec(Exec(w, a), b)
    decreases |a|
  {
    if a == [] {
      assert a + b == b;
    } else {
      assert (a + b)[1..] == a[1..] + b;
      ExecConcat(Next(w, a[0]), a[1..], b);
    }
  }

  /** An item leaves the retention queue once: after eviction it is retired, is never remembered
      again, and neither text nor replay ever emits it again, whatever follows. */
  lemma {:induction false} EvictedForGood(w: World, before: seq<Step>, after: seq<Step>, q: nat, item: Item)
    requires Valid(w.state) && q in w.state.order && q !in Exec(w, before).state.order
    requires item.itemSeq == q
    ensures var end := Exec(w, before + after);
      && Retired(end.state, q) && q !in end.state.order
      && |end.state.order| <= RETENTION_LIMIT
      && Sent(end, q) == Sent(Exec(w, before), q)
      && ReplayItem(end.state, item) == Outcome(end.state, [], true)
  {
    RunAdvances(w, before);
    RunAdvances(Exec(w, before), after);
    ExecConcat(w, before, after);
    RetiredIsSilent(Exec(w, before), after, q);
  }

  // --- Replaying a transcript twice ---

  /** Replaying `item` would neither send nor change anything. */
  ghost predicate Quiet(s: State, item: Item) {
    || !item.main
    || Retired(s, item.itemSeq)
    || (&& item.itemSeq in s.replayed
        && (item.kind.IsText() ==>
              if item.kind.complete then item.itemSeq in s.completed
              else
                && item.itemSeq !in s.completed
                && item.itemSeq in s.streamed && s.streamed[item.itemSeq] == item.kind.text)
        && (item.kind.ToolCall? ==>
              && item.itemSeq in s.statuses && s.statuses[item.itemSeq] == item.kind.status
              && item.itemSeq in s.views && s.views[item.itemSeq] == item.kind.view))
  }

  lemma {:induction false} QuietReplay(s: State, item: Item)
    requires Valid(s) && Quiet(s, item)
    ensures ReplayItem(s, item) == Outcome(s, [], true)
  {
    if item.main && !Retired(s, item.itemSeq) {
      var q, k := item.itemSeq, item.kind;
      assert Track(s, q) == s;
      assert s.replayed + {q} == s.replayed;
      assert MarkReplayed(s, q) == s;
      if k.IsText() && k.complete {
        assert s.completed + {q} == s.completed;
      } else if k.IsText() {
        assert s.streamed[q := k.text] == s.streamed && s.completed - {q} == s.completed;
      } else if k.ToolCall? {
        assert s.statuses[q := k.status] == s.statuses && s.views[q := k.view] == s.views;
      }
      assert ReplayBody(s, item) == Outcome(s, [], true);
      assert Remember(s, item) == s;
    }
  }

  /** Tracking never disturbs what makes another item quiet, short of retiring it. */
  lemma {:induction false} TrackKeepsQuiet(s: State, q: nat, item: Item)
    requires Valid(s) && Quiet(s, item)
    ensures Quiet(Track(s, q), item)
  {
    TrackAdvances(s, q);
    if item.main && !Retired(Track(s, q), item.itemSeq) {
      TrackKeepsRecords(s, q, item.itemSeq);
    }
  }

  /** Only the records of item `q` differ. */
  ghost predicate SameElsewhere(s: State, t: State, q: nat) {
    && s.floor == t.floor
    && s.replayed - {q} == t.replayed - {q} && s.completed - {q} == t.completed - {q}
    && s.streamed - {q} == t.streamed - {q} && s.statuses - {q} == t.statuses - {q} && s.views - {q} == t.views - {q}
  }

  lemma {:induction false} SameElsewhereKeepsQuiet(s: State, t: State, q: nat, item: Item)
    requires SameElsewhere(s, t, q) && Quiet(s, item) && item.itemSeq != q
    ensures Quiet(t, item)
  {
    var r := item.itemSeq;
    assert r in s.streamed <==> r in s.streamed - {q};
    assert r in t.streamed <==> r in t.streamed - {q};
    assert r in s.replayed <==> r in s.replayed - {q};
    assert r in t.replayed <==> r in t.replayed - {q};
    assert r in s.completed <==> r in s.completed - {q};
    assert r in t.completed <==> r in t.completed - {q};
    assert r in s.statuses ==> r in s.statuses - {q};
    assert r in s.views ==> r in s.views - {q};
    assert r in s.statuses ==> (s.statuses - {q})[r] == (t.statuses - {q})[r];
    assert r in s.views ==> (s.views - {q})[r] == (t.views - {q})[r];
    assert r in s.streamed ==> (s.streamed - {q})[r] == (t.streamed - {q})[r];
  }

  lemma {:induction false} MarkKeepsQuiet(s: State, q: nat, item: Item)
    requires Valid(s) && Quiet(s, item) && item.itemSeq != q
    ensures Quiet(MarkReplayed(s, q), item)
  {
    TrackKeepsQuiet(s, q, item);
    if !Retired(s, q) {
      SameElsewhereKeepsQuiet(Track(s, q), MarkReplayed(s, q), q, item);
    }
  }

  lemma {:induction false} RememberKeepsQuiet(s: State, other: Item, item: Item)
    requires Valid(s) && Quiet(s, item) && item.itemSeq != other.itemSeq
    requires other.itemSeq in s.retained || Retired(s, other.itemSeq)
    ensures Quiet(Remember(s, other), item)
  {
    var q := other.itemSeq;
    if other.main && !Retired(s, q) {
      var t := RememberTool(s, other);
      ToolKeepsText(s, other);
      assert SameElsewhere(s, t, q) && Track(t, q) == t;
      SameElsewhereKeepsQuiet(s, t, q, item);
      assert SameElsewhere(t, Remember(s, other), q);
      SameElsewhereKeepsQuiet(t, Remember(s, other), q, item);
    }
  }

  lemma {:induction false} ReplayBodyKeepsQuiet(s: State, other: Item, item: Item)
    requires Valid(s) && Quiet(s, item) && item.itemSeq != other.itemSeq
    requires other.main && !Retired(s, other.itemSeq)
    ensures Quiet(ReplayBody(s, other).state, item)
  {
    var q, k, t := other.itemSeq, other.kind, Track(s, other.itemSeq);
    TrackKeepsQuiet(s, q, item);
    if k.IsText() && !RefusesText(s, q) {
      TextElsewhere(s, q, k.text, k.Reasoning?);
      SameElsewhereKeepsQuiet(t, TakeFinal(s, q, k.text).0, q, item);
      SameElsewhereKeepsQuiet(t, ReplayPartial(s, q, k.text, k.Reasoning?).state, q, item);
    } else if k.ToolCall? {
      assert SameElsewhere(t, ReplayBody(s, other).state, q);
      SameElsewhereKeepsQuiet(t, ReplayBody(s, other).state, q, item);
    }
  }

  lemma {:induction false} TextElsewhere(s: State, q: nat, text: string, reasoning: bool)
    requires !RefusesText(s, q)
    ensures SameElsewhere(Track(s, q), TakeFinal(s, q, text).0, q)
    ensures SameElsewhere(Track(s, q), ReplayPartial(s, q, text, reasoning).state, q)
  {
  }

  lemma {:induction false} ReplayKeepsQuiet(s: State, other: Item, item: Item)
    requires Valid(s) && Quiet(s, item) && item.itemSeq != other.itemSeq
    ensures Quiet(ReplayItem(s, other).state, item)
  {
    if other.main && !Retired(s, other.itemSeq) {
      var body := ReplayBody(s, other);
      ReplayBodyKeepsQuiet(s, other, item);
      ReplayBodyAdvances(s, other);
      if body.ok {
        MarkKeepsQuiet(body.state, other.itemSeq, item);
        MarkAdvances(body.state, other.itemSeq);
        MarkOnlyText(body.state, other.itemSeq);
        RememberKeepsQuiet(MarkReplayed(body.state, other.itemSeq), other, item);
      }
    }
  }

  lemma {:induction false} ReplayMakesQuiet(s: State, item: Item)
    requires Valid(s) && ReplayItem(s, item).ok
    ensures Quiet(ReplayItem(s, item).state, item)
  {
    if item.main && !Retired(s, item.itemSeq) {
      var body := ReplayBody(s, item).state;
      ReplayBodyAdvances(s, item);
      RememberMakesQuiet(body, item);
    }
  }

  lemma {:induction false} RememberMakesQuiet(s: State, item: Item)
    requires Valid(s) && item.main
    ensures Quiet(Remember(MarkReplayed(s, item.itemSeq), item), item)
  {
    var q, marked := item.itemSeq, MarkReplayed(s, item.itemSeq);
    TrackAdvances(s, q);
    MarkAdvances(s, q);
    if !Retired(marked, q) {
      assert q in marked.replayed && q in marked.retained;
      assert Track(marked, q) == marked;
      assert RememberTool(marked, item).retained == marked.retained;
    }
  }

  lemma {:induction false} ReplayAllKeepsQuiet(s: State, items: seq<Item>, item: Item)
    requires Valid(s) && Quiet(s, item)
    requires forall i | 0 <= i < |items| :: items[i].itemSeq != item.itemSeq
    ensures Valid(ReplayAll(s, items).state) && Quiet(ReplayAll(s, items).state, item)
    decreases |items|
  {
    if items != [] {
      ReplayKeepsQuiet(s, items[0], item);
      ReplayItemAdvances(s, items[0]);
      ReplayAllKeepsQuiet(ReplayItem(s, items[0]).state, items[1..], item);
    }
  }

  lemma {:induction false} ReplayAllMakesQuiet(s: State, items: seq<Item>)
    requires Valid(s) && ReplayAll(s, items).ok
    requires forall i, j | 0 <= i < j < |items| :: items[i].itemSeq != items[j].itemSeq
    ensures Valid(ReplayAll(s, items).state)
    ensures forall i | 0 <= i < |items| :: Quiet(ReplayAll(s, items).state, items[i])
    decreases |items|
  {
    if items != [] {
      var first := ReplayItem(s, items[0]);
      ReplayItemAdvances(s, items[0]);
      ReplayMakesQuiet(s, items[0]);
      ReplayAllMakesQuiet(first.state, items[1..]);
      ReplayAllKeepsQuiet(first.state, items[1..], items[0]);
      forall i | 0 <= i < |items| ensures Quiet(ReplayAll(s, items).state, items[i]) {
        if i > 0 { assert items[i] == items[1..][i - 1]; }
      }
    }
  }

  lemma {:induction false} QuietReplayAll(s: State, items: seq<Item>)
    requires Valid(s) && forall i | 0 <= i < |items| :: Quiet(s, items[i])
    ensures ReplayAll(s, items) == Outcome(s, [], true)
    decreases |items|
  {
    if items != [] {
      assert Quiet(s, items[0]);
      QuietReplay(s, items[0]);
      QuietReplayAll(s, items[1..]);
    }
  }

  /** Replay idempotence: a transcript that was just replayed replays to nothing, changing no
      state, however many of its items the first replay evicted. */
  lemma {:induction false} ReplayIdempotent(s: State, items: seq<Item>)
    requires Valid(s) && ReplayAll(s, items).ok
    requires forall i, j | 0 <= i < j < |items| :: items[i].itemSeq != items[j].itemSeq
    ensures var t := ReplayAll(s, items).state;
      ReplayAll(t, items) == Outcome(t, [], true)
  {
    ReplayAllMakesQuiet(s, items);
    QuietReplayAll(ReplayAll(s, items).state, items);
  }
}
