/** What the ACP client is told: every step of the mapping answers as it should, not only consistently. */
module MappingAnswers {
  import opened Common
  import opened Mapping
  import opened MappingRuns

  // --- Text ---

  /** A delta of an open item of the main agent is sent, whole, right away, and the item counts as shown. */
  lemma {:induction false} DeltaSends(w: World, q: nat, text: string, reasoning: bool)
    requires Valid(w.state) && !RefusesText(w.state, q)
    ensures var step := TextDelta(true, q, text, reasoning);
      && Sent(Next(w, step), q) == Sent(w, q) + text && q in Next(w, step).state.replayed
      && Apply(w.state, step).updates == [if reasoning then ThoughtChunk(text) else MessageChunk(text)]
  {
    TextOfOne(Chunk(text, reasoning));
  }

  /** A snapshot that extends what the client holds of an open item brings it up to date, whether the
      item is complete or not. */
  lemma {:induction false} ReplayCatchesUp(w: World, item: Item)
    requires Valid(w.state) && Faithful(w) && item.main && item.kind.IsText()
    requires !RefusesText(w.state, item.itemSeq) && Sent(w, item.itemSeq) <= item.kind.text
    ensures Apply(w.state, ReplayOne(item)).ok && Sent(Next(w, ReplayOne(item)), item.itemSeq) == item.kind.text
  {
    if item.kind.complete {
      FinalText(w, ReplayOne(item), item.itemSeq, item.kind.text);
    } else {
      PartialText(w.state, item.itemSeq, item.kind.text, item.kind.Reasoning?);
    }
  }

  /** Items of other agents leave no trace. */
  lemma {:induction false} OtherAgentsIgnored(s: State, step: Step)
    requires !step.TurnFinished? && !(if step.TextDelta? then step.main else step.item.main)
    ensures Apply(s, step) == Outcome(s, [], true)
  {
  }

  /** The end of a turn forgets the streamed text of exactly the completed items, and nothing else. */
  lemma {:induction false} TurnEndForgets(s: State, q: nat)
    ensures var t := FinishTurn(s);
      && (q in t.streamed <==> q in s.streamed && q !in s.completed)
      && (q in t.streamed ==> t.streamed[q] == s.streamed[q])
      && t == s.(streamed := t.streamed)
  {
  }

  // --- Items that are shown once ---

  /** How a replay shows an item that is neither text nor a tool call. */
  predicate Shows(item: Item, updates: seq<Update>) {
    match item.kind
    case User(text) => updates == [UserChunk(text)]
    case Notice(text) => updates == [MessageChunk(text)]
    case BashCommand(command, output) => updates == [CommandCall(item.itemSeq, command, output)]
    case Unmapped => updates == []
    case _ => false
  }

  /** Such an item is shown by the first replay that meets it and never again. */
  lemma {:induction false} ShownOnce(s: State, item: Item)
    requires Valid(s) && item.main && !Retired(s, item.itemSeq) && !item.kind.IsText() && !item.kind.ToolCall?
    ensures var o := ReplayItem(s, item);
      && o.ok && (if item.itemSeq in s.replayed then o.updates == [] else Shows(item, o.updates))
      && (Retired(o.state, item.itemSeq) || item.itemSeq in o.state.replayed)
  {
    ReplayMakesQuiet(s, item);
  }

  /** A live command is shown when it is added; of the other items that are neither text nor a tool call
      the live events show nothing. */
  lemma {:induction false} LiveCommandShown(s: State, item: Item, added: bool)
    requires item.main && !item.kind.IsText() && !item.kind.ToolCall?
    ensures var updates := LiveItem(s, item, added).updates;
      if item.kind.BashCommand? && added then Shows(item, updates) else updates == []
  {
  }

  /** Whatever was seen live is not shown again by a later snapshot. */
  lemma {:induction false} LiveThenQuiet(s: State, item: Item, added: bool)
    requires Valid(s) && item.main && !(item.kind.IsText() && !item.kind.complete)
    ensures var t := LiveItem(s, item, added).state; ReplayItem(t, item) == Outcome(t, [], true)
  {
    var q, t := item.itemSeq, LiveItem(s, item, added).state;
    LiveItemAdvances(s, item, added);
    if !Retired(t, q) { LiveMakesQuiet(s, item, added); }
    QuietReplay(t, item);
  }

  lemma {:induction false} LiveMakesQuiet(s: State, item: Item, added: bool)
    requires Valid(s) && item.main && !(item.kind.IsText() && !item.kind.complete)
    requires !Retired(LiveItem(s, item, added).state, item.itemSeq)
    ensures Quiet(LiveItem(s, item, added).state, item)
  {
    var q, marked := item.itemSeq, MarkReplayed(s, item.itemSeq);
    MarkAdvances(s, q);
    if !Retired(marked, q) {
      if item.kind.IsText() { CompletedQuiet(marked, item); } else { RecordedQuiet(marked, item); }
    }
  }

  lemma {:induction false} CompletedQuiet(marked: State, item: Item)
    requires Valid(marked) && item.kind.IsText() && item.kind.complete
    requires item.itemSeq in marked.replayed && item.itemSeq in marked.retained
    ensures Quiet(TakeFinal(marked, item.itemSeq, item.kind.text).0, item)
  {
    assert Track(marked, item.itemSeq) == marked;
  }

  lemma {:induction false} RecordedQuiet(marked: State, item: Item)
    requires Valid(marked) && item.main && !item.kind.IsText()
    requires item.itemSeq in marked.replayed && item.itemSeq in marked.retained
    ensures Quiet(RememberTool(marked, item), item)
  {
    assert Track(marked, item.itemSeq) == marked;
  }

  // --- Tool calls ---

  /** What the client knows of each tool item. */
  datatype ToolWorld = ToolWorld(state: State, known: map<nat, (ToolStatus, ToolView)>)

  /** The last thing the updates say about their tool call. */
  function Told(updates: seq<Update>): Option<(ToolStatus, ToolView)> {
    if updates == [] then None
    else
      var last := updates[|updates| - 1];
      if last.ToolCallStart? || last.ToolCallChange? then Some((last.status, last.view))
      else Told(updates[..|updates| - 1])
  }

  function NextTool(w: ToolWorld, step: Step): ToolWorld {
    var o := Apply(w.state, step);
    ToolWorld(o.state,
              if (step.LiveUpdate? || step.ReplayOne?) && Told(o.updates).Some?
              then w.known[step.item.itemSeq := Told(o.updates).value] else w.known)
  }

  /** The client knows what the mapping believes it knows of every item that is not retired. */
  ghost predicate ToolsFaithful(w: ToolWorld) {
    forall q | !Retired(w.state, q) && q in w.state.statuses && q in w.state.views ::
      q in w.known && w.known[q] == (w.state.statuses[q], w.state.views[q])
  }

  /** The tool record of `q` did not appear or change. */
  ghost predicate ToolKept(s: State, t: State, q: nat) {
    q in t.statuses && q in t.views ==>
      q in s.statuses && q in s.views && t.statuses[q] == s.statuses[q] && t.views[q] == s.views[q]
  }

  lemma {:induction false} TrackTools(s: State, q: nat, r: nat)
    ensures ToolKept(s, Track(s, r), q) && ToolKept(s, MarkReplayed(s, r), q)
  {
  }

  lemma {:induction false} TextTools(s: State, r: nat, text: string, reasoning: bool, q: nat)
    ensures ToolKept(s, RecordDelta(s, r, text), q) && ToolKept(s, TakeFinal(s, r, text).0, q)
    ensures ToolKept(s, ReplayPartial(s, r, text, reasoning).state, q)
  {
    TrackTools(s, q, r);
  }

  /** Remembering another item, or one that is no tool call, keeps the tool record of `q`. */
  lemma {:induction false} RememberOther(s: State, item: Item, q: nat)
    requires q != item.itemSeq || !item.kind.ToolCall?
    ensures ToolKept(s, RememberTool(s, item), q) && ToolKept(s, Remember(s, item), q)
  {
    TrackTools(s, q, item.itemSeq);
    TrackTools(RememberTool(s, item), q, item.itemSeq);
  }

  /** The status and view of the item are recorded. */
  ghost predicate ToolRecorded(t: State, item: Item) {
    var q := item.itemSeq;
    && item.kind.ToolCall? && q in t.statuses && t.statuses[q] == item.kind.status
    && q in t.views && t.views[q] == item.kind.view
  }

  lemma {:induction false} RememberOwn(s: State, item: Item)
    requires Valid(s) && item.main && item.kind.ToolCall? && !Retired(s, item.itemSeq)
    ensures ToolRecorded(RememberTool(s, item), item)
    ensures item.itemSeq in s.retained ==> ToolRecorded(Remember(s, item), item)
  {
  }

  lemma {:induction false} LiveTools(s: State, item: Item, added: bool, q: nat)
    requires Valid(s) && item.main
    ensures var o := LiveItem(s, item, added);
      && (q != item.itemSeq || !item.kind.ToolCall? ==> ToolKept(s, o.state, q))
      && (item.kind.ToolCall? ==> Told(o.updates) == Some((item.kind.status, item.kind.view)))
      && (item.kind.ToolCall? && !Retired(o.state, item.itemSeq) ==> ToolRecorded(o.state, item))
  {
    var marked := MarkReplayed(s, item.itemSeq);
    TrackTools(s, q, item.itemSeq);
    MarkAdvances(s, item.itemSeq);
    if q != item.itemSeq || !item.kind.ToolCall? { RememberOther(marked, item, q); }
    if item.kind.ToolCall? && !Retired(marked, item.itemSeq) { RememberOwn(marked, item); }
    if item.kind.IsText() {
      TextTools(RememberTool(marked, item), item.itemSeq, item.kind.text, item.kind.Reasoning?, q);
    }
  }

  lemma {:induction false} ReplayKeepsTools(s: State, item: Item, q: nat)
    requires Valid(s) && item.main && !Retired(s, item.itemSeq)
    requires q != item.itemSeq || !item.kind.ToolCall?
    ensures ToolKept(s, ReplayItem(s, item).state, q)
  {
    var body := ReplayBody(s, item).state;
    TrackTools(s, q, item.itemSeq);
    if item.kind.IsText() { TextTools(s, item.itemSeq, item.kind.text, item.kind.Reasoning?, q); }
    assert ToolKept(s, body, q);
    TrackTools(body, q, item.itemSeq);
    RememberOther(MarkReplayed(body, item.itemSeq), item, q);
  }

  lemma {:induction false} ReplayRecordsTool(s: State, item: Item)
    requires Valid(s) && item.main && !Retired(s, item.itemSeq) && item.kind.ToolCall?
    requires !Retired(ReplayItem(s, item).state, item.itemSeq)
    ensures ToolRecorded(ReplayItem(s, item).state, item)
  {
    var body := ReplayBody(s, item).state;
    var marked := MarkReplayed(body, item.itemSeq);
    ReplayBodyAdvances(s, item);
    MarkAdvances(body, item.itemSeq);
    if !Retired(marked, item.itemSeq) {
      MarkOnlyText(body, item.itemSeq);
      RememberOwn(marked, item);
    }
  }

  /** What a replayed tool call tells the client: the whole call if it is new, the change if there is
      one, and otherwise nothing, because the client knows. */
  lemma {:induction false} ReplayTellsTool(s: State, item: Item)
    requires item.main && !Retired(s, item.itemSeq) && item.kind.ToolCall? && Valid(s)
    ensures var q, o := item.itemSeq, ReplayItem(s, item);
      if q in s.replayed && q in s.statuses && q in s.views
         && s.statuses[q] == item.kind.status && s.views[q] == item.kind.view
      then o.updates == []
      else
        && Told(o.updates) == Some((item.kind.status, item.kind.view)) && |o.updates| == 1
        && (o.updates[0].ToolCallStart? <==> q !in s.replayed)
  {
    var q := item.itemSeq;
    TrackAdvances(s, q);
    TrackKeepsRecords(s, q, q);
    if q in s.statuses || q in s.views { assert Track(s, q) == s; }
  }

  /** Over every step, what the client knows of a tool call is what the mapping has recorded. */
  lemma {:induction false} ToolStepFaithful(w: ToolWorld, step: Step)
    requires Valid(w.state) && ToolsFaithful(w)
    ensures Valid(NextTool(w, step).state) && ToolsFaithful(NextTool(w, step))
  {
    var s, next := w.state, NextTool(w, step);
    StepAdvances(s, step);
    forall q | !Retired(next.state, q) && q in next.state.statuses && q in next.state.views
      ensures q in next.known && next.known[q] == (next.state.statuses[q], next.state.views[q])
    {
      match step
      case TextDelta(main, r, text, reasoning) => TextTools(s, r, text, reasoning, q);
      case LiveUpdate(item, added) => LiveToolFaithful(w, item, added, q);
      case ReplayOne(item) => ReplayToolFaithful(w, item, q);
      case TurnFinished =>
    }
  }

  lemma {:induction false} LiveToolFaithful(w: ToolWorld, item: Item, added: bool, q: nat)
    requires Valid(w.state) && ToolsFaithful(w)
    requires var t := LiveItem(w.state, item, added).state; !Retired(t, q) && q in t.statuses && q in t.views
    ensures var next := NextTool(w, LiveUpdate(item, added));
      q in next.known && next.known[q] == (next.state.statuses[q], next.state.views[q])
  {
    if item.main {
      LiveItemAdvances(w.state, item, added);
      LiveTools(w.state, item, added, q);
      if !item.kind.ToolCall? { NothingTold(w.state, LiveUpdate(item, added)); }
    }
  }

  lemma {:induction false} ReplayToolFaithful(w: ToolWorld, item: Item, q: nat)
    requires Valid(w.state) && ToolsFaithful(w)
    requires var t := ReplayItem(w.state, item).state; !Retired(t, q) && q in t.statuses && q in t.views
    ensures var next := NextTool(w, ReplayOne(item));
      q in next.known && next.known[q] == (next.state.statuses[q], next.state.views[q])
  {
    if item.main && !Retired(w.state, item.itemSeq) {
      ReplayItemAdvances(w.state, item);
      if q != item.itemSeq || !item.kind.ToolCall? { ReplayKeepsTools(w.state, item, q); }
      if item.kind.ToolCall? {
        ReplayTellsTool(w.state, item);
        if q == item.itemSeq { ReplayRecordsTool(w.state, item); }
      } else {
        NothingTold(w.state, ReplayOne(item));
      }
    }
  }

  /** Other items say nothing about tool calls. */
  lemma {:induction false} NothingTold(s: State, step: Step)
    requires (step.LiveUpdate? || step.ReplayOne?) && !step.item.kind.ToolCall?
    ensures Told(Apply(s, step).updates).None?
  {
    if step.ReplayOne? {
      var o := ReplayItem(s, step.item);
      assert o.updates == [] || o.updates == ReplayBody(s, step.item).updates;
    }
  }

  /** After a live update or a replay of a tool call that is not retired the client knows its status and
      view. */
  lemma {:induction false} ToolDelivered(w: ToolWorld, step: Step)
    requires Valid(w.state) && ToolsFaithful(w) && (step.LiveUpdate? || step.ReplayOne?)
    requires step.item.main && step.item.kind.ToolCall? && !Retired(w.state, step.item.itemSeq)
    ensures var known, q := NextTool(w, step).known, step.item.itemSeq;
      q in known && known[q] == (step.item.kind.status, step.item.kind.view)
  {
    if step.ReplayOne? { ReplayTellsTool(w.state, step.item); }
  }

  // --- The state a session starts from ---

  /** Seeding keeps what is known of the items it does not name. */
  lemma {:induction false} SeedItemsDone(s: State, items: seq<(nat, string, bool)>, q: nat)
    requires Valid(s) && RefusesText(s, q) && forall i | 0 <= i < |items| :: items[i].0 != q
    ensures RefusesText(SeedItems(s, items), q)
    decreases |items|
  {
    if items != [] {
      TrackAdvances(s, items[0].0);
      TrackText(s, items[0].0);
      var t := SeedItem(s, items[0].0, items[0].1, items[0].2);
      assert Valid(t);
      if !Retired(t, q) { assert SameText(s, Track(s, items[0].0), q); }
      SeedItemsDone(t, items[1..], q);
    }
  }

  /** An item seeded as complete takes no more text. */
  lemma {:induction false} SeededComplete(s: State, items: seq<(nat, string, bool)>, i: nat)
    requires Valid(s) && i < |items| && items[i].2
    requires forall j, k | 0 <= j < k < |items| :: items[j].0 != items[k].0
    ensures RefusesText(SeedItems(s, items), items[i].0)
    decreases |items|
  {
    var t := SeedItem(s, items[0].0, items[0].1, items[0].2);
    TrackAdvances(s, items[0].0);
    assert Valid(t);
    if i == 0 {
      SeedItemsDone(t, items[1..], items[0].0);
    } else {
      SeededComplete(t, items[1..], i - 1);
    }
  }

  /** What a snapshot showed before the mapping was seeded counts as replayed. */
  lemma {:induction false} SeenIsReplayed(s: State, seen: seq<nat>, q: nat)
    requires Valid(s) && (q in seen || q in s.replayed || Retired(s, q))
    ensures var t := MarkAll(s, seen); q in t.replayed || Retired(t, q)
    decreases |seen|
  {
    if seen != [] {
      var t := MarkReplayed(s, seen[0]);
      MarkAdvances(s, seen[0]);
      if q in s.replayed {
        if q in t.retained { TrackKeepsRecords(s, seen[0], q); }
      }
      SeenIsReplayed(t, seen[1..], q);
    }
  }

  /** A seeded status is recorded, so that an unchanged call is not announced again for its status. */
  lemma {:induction false} StatusSeeded(s: State, statuses: seq<(nat, ToolStatus)>, q: nat, status: ToolStatus)
    requires Valid(s) && ((q, status) in statuses || (q in s.statuses && s.statuses[q] == status))
    requires forall i | 0 <= i < |statuses| && statuses[i].0 == q :: statuses[i].1 == status
    ensures var t := SeedStatuses(s, statuses); Retired(t, q) || (q in t.statuses && t.statuses[q] == status)
    decreases |statuses|
  {
    if statuses != [] {
      var r := statuses[0].0;
      var t := SeedStatus(s, r, statuses[0].1);
      SeedStatusText(s, r, statuses[0].1);
      TrackAdvances(s, r);
      if Retired(t, q) {
        SeedKeepsRetired(t, statuses[1..], q);
      } else {
        if r != q && q in s.statuses { if q in t.retained { TrackKeepsRecords(s, r, q); } }
        StatusSeeded(t, statuses[1..], q, status);
      }
    }
  }

  lemma {:induction false} SeedKeepsRetired(s: State, statuses: seq<(nat, ToolStatus)>, q: nat)
    requires Valid(s) && Retired(s, q)
    ensures Retired(SeedStatuses(s, statuses), q)
    decreases |statuses|
  {
    if statuses != [] {
      TrackAdvances(s, statuses[0].0);
      SeedStatusText(s, statuses[0].0, statuses[0].1);
      SeedKeepsRetired(SeedStatus(s, statuses[0].0, statuses[0].1), statuses[1..], q);
    }
  }
}
