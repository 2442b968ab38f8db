/** What `MappingState` of crates/pacode-acp/src/mapping.rs computes, as functions on its value:
    deltas, live items and snapshot replays become append-only ACP chunks, remembered for a
    bounded number of items. */
module Mapping {
  import opened Common

  const RETENTION_LIMIT: nat := 1024

  datatype ToolStatus = Running | Succeeded | Errored | Backgrounded | Denied

  datatype ToolView = ToolView(name: string, title: string, preview: string)

  datatype Kind =
    | Assistant(text: string, complete: bool)
    | Reasoning(text: string, complete: bool)
    | ToolCall(callId: string, status: ToolStatus, view: ToolView)
    | BashCommand(command: string, output: string)
    | User(text: string)
    | Notice(text: string)
    | Unmapped
  {
    predicate IsText() { Assistant? || Reasoning? }
  }

  /** A transcript item; `main` is whether it belongs to the main agent. */
  datatype Item = Item(main: bool, itemSeq: nat, kind: Kind)

  datatype Update =
    | MessageChunk(text: string)
    | ThoughtChunk(text: string)
    | UserChunk(text: string)
    | ToolCallStart(callId: string, status: ToolStatus, view: ToolView)
    | ToolCallChange(callId: string, status: ToolStatus, view: ToolView)
    | CommandCall(itemSeq: nat, command: string, output: string)

  datatype State = State(
    streamed: map<nat, string>,
    completed: set<nat>,
    replayed: set<nat>,
    statuses: map<nat, ToolStatus>,
    views: map<nat, ToolView>,
    retained: set<nat>,
    order: seq<nat>,
    floor: nat)

  /** State after an operation, the ACP updates it sends, and whether it returned Ok. */
  datatype Outcome = Outcome(state: State, updates: seq<Update>, ok: bool)

  const EMPTY := State(map[], {}, {}, map[], map[], {}, [], 0)

  ghost predicate Distinct(s: seq<nat>) {
    forall i, j | 0 <= i < j < |s| :: s[i] != s[j]
  }

  /** The retention queue is a duplicate-free listing of every remembered item. */
  ghost predicate Remembers(s: State) {
    && Distinct(s.order)
    && (forall q :: q in s.retained <==> q in s.order)
    && s.streamed.Keys <= s.retained
    && s.completed <= s.retained
    && s.replayed <= s.retained
    && s.statuses.Keys <= s.retained
    && s.views.Keys <= s.retained
  }

  ghost predicate Valid(s: State) {
    Remembers(s) && |s.order| <= RETENTION_LIMIT
  }

  predicate Retired(s: State, q: nat) {
    q <= s.floor
  }

  function Streamed(s: State, q: nat): string {
    if q in s.streamed then s.streamed[q] else ""
  }

  /** Drops the oldest remembered item and retires its seq. */
  function Evict(s: State): State
    requires s.order != []
  {
    var q := s.order[0];
    State(s.streamed - {q}, s.completed - {q}, s.replayed - {q}, s.statuses - {q}, s.views - {q},
          s.retained - {q}, s.order[1..], if q > s.floor then q else s.floor)
  }

  function Track(s: State, q: nat): State {
    if Retired(s, q) || q in s.retained then s
    else
      var pushed := s.(retained := s.retained + {q}, order := s.order + [q]);
      if |pushed.order| <= RETENTION_LIMIT then pushed else Evict(pushed)
  }

  function MarkReplayed(s: State, q: nat): State {
    if Retired(s, q) then s
    else var t := Track(s, q); t.(replayed := t.replayed + {q})
  }

  function RememberTool(s: State, item: Item): State {
    if !item.main || Retired(s, item.itemSeq) || !item.kind.ToolCall? then s
    else
      var t := Track(s, item.itemSeq);
      t.(statuses := t.statuses[item.itemSeq := item.kind.status], views := t.views[item.itemSeq := item.kind.view])
  }

  function Remember(s: State, item: Item): State {
    if !item.main || Retired(s, item.itemSeq) then s
    else
      var t := Track(RememberTool(s, item), item.itemSeq);
      if !item.kind.IsText() then t
      else if item.kind.complete then t.(completed := t.completed + {item.itemSeq})
      else t.(completed := t.completed - {item.itemSeq}, streamed := t.streamed[item.itemSeq := item.kind.text])
  }

  predicate RefusesText(s: State, q: nat) {
    Retired(s, q) || q in s.completed
  }

  function RecordDelta(s: State, q: nat, text: string): State {
    if RefusesText(s, q) then s
    else var t := MarkReplayed(s, q); t.(streamed := t.streamed[q := Streamed(t, q) + text])
  }

  /** State and remaining text when the authoritative text of item `q` is known. */
  function TakeFinal(s: State, q: nat, text: string): (State, Option<string>) {
    if RefusesText(s, q) then (s, None)
    else
      var t := Track(s, q);
      var done := t.(completed := t.completed + {q});
      if !(Streamed(t, q) <= text) then (done.(streamed := done.streamed[q := text]), None)
      else
        var suffix := text[|Streamed(t, q)|..];
        (done.(streamed := done.streamed - {q}), if suffix == "" then None else Some(suffix))
  }

  function Chunk(text: string, reasoning: bool): Update {
    if reasoning then ThoughtChunk(text) else MessageChunk(text)
  }

  function FinalUpdate(s: State, q: nat, text: string, complete: bool, reasoning: bool): Outcome {
    if !complete then Outcome(s, [], true)
    else
      var (t, suffix) := TakeFinal(s, q, text);
      Outcome(t, if suffix.None? then [] else [Chunk(suffix.value, reasoning)], true)
  }

  /** `validate_authoritative`: a streamed text may not be retracted. */
  predicate Diverges(s: State, q: nat, text: string) {
    q !in s.completed && q in s.streamed && !(s.streamed[q] <= text)
  }

  function ReplayPartial(s: State, q: nat, text: string, reasoning: bool): Outcome {
    if RefusesText(s, q) then Outcome(s, [], true)
    else
      var t := Track(s, q);
      if Diverges(t, q, text) then Outcome(t, [], false)
      else
        var suffix := text[|Streamed(t, q)|..];
        Outcome(t.(streamed := t.streamed[q := text]), if suffix == "" then [] else [Chunk(suffix, reasoning)], true)
  }

  function ReplayTool(s: State, item: Item, isNew: bool): Outcome
    requires item.kind.ToolCall?
  {
    var t := Track(s, item.itemSeq);
    var q, k := item.itemSeq, item.kind;
    var changed := !(q in t.statuses && t.statuses[q] == k.status) || !(q in t.views && t.views[q] == k.view);
    Outcome(t.(statuses := t.statuses[q := k.status], views := t.views[q := k.view]),
            if isNew then TranscriptUpdates(item)
            else if changed then [ToolCallChange(k.callId, k.status, k.view)] else [], true)
  }

  /** `transcript_item_to_session_updates` for a main-agent item. */
  function TranscriptUpdates(item: Item): seq<Update> {
    match item.kind
    case Assistant(text, _) => if text == "" then [] else [MessageChunk(text)]
    case Reasoning(text, _) => if text == "" then [] else [ThoughtChunk(text)]
    case ToolCall(id, status, view) => [ToolCallStart(id, status, view)]
    case BashCommand(command, output) => [CommandCall(item.itemSeq, command, output)]
    case User(text) => [UserChunk(text)]
    case Notice(text) => [MessageChunk(text)]
    case Unmapped => []
  }

  /** The updates `replay_transcript_item` computes before it remembers the item. */
  function ReplayBody(s: State, item: Item): Outcome {
    var q, k, isNew := item.itemSeq, item.kind, item.itemSeq !in s.replayed;
    if k.IsText() && k.complete then
      if Diverges(s, q, k.text) then Outcome(s, [], false)
      else FinalUpdate(s, q, k.text, true, k.Reasoning?)
    else if k.IsText() && (isNew || q !in s.completed) then
      ReplayPartial(s, q, k.text, k.Reasoning?)
    else if k.ToolCall? then ReplayTool(s, item, isNew)
    else Outcome(s, if isNew then TranscriptUpdates(item) else [], true)
  }

  function ReplayItem(s: State, item: Item): Outcome {
    if !item.main || Retired(s, item.itemSeq) then Outcome(s, [], true)
    else
      var body := ReplayBody(s, item);
      if !body.ok then body
      else body.(state := Remember(MarkReplayed(body.state, item.itemSeq), item))
  }

  /** Replays items in order, stopping at the first divergence. */
  function ReplayAll(s: State, items: seq<Item>): Outcome
    decreases |items|
  {
    if items == [] then Outcome(s, [], true)
    else
      var first := ReplayItem(s, items[0]);
      if !first.ok then first
      else
        var rest := ReplayAll(first.state, items[1..]);
        Outcome(rest.state, first.updates + rest.updates, rest.ok)
  }

  /** The item arms of `event_to_session_updates`. */
  function LiveItem(s: State, item: Item, added: bool): Outcome {
    if !item.main then Outcome(s, [], true)
    else
      var t := RememberTool(MarkReplayed(s, item.itemSeq), item);
      match item.kind
      case Assistant(text, complete) => FinalUpdate(t, item.itemSeq, text, complete, false)
      case Reasoning(text, complete) => FinalUpdate(t, item.itemSeq, text, complete, true)
      case ToolCall(id, status, view) =>
        Outcome(t, [if added then ToolCallStart(id, status, view) else ToolCallChange(id, status, view)], true)
      case BashCommand(command, output) =>
        Outcome(t, if added then [CommandCall(item.itemSeq, command, output)] else [], true)
      case _ => Outcome(t, [], true)
  }

  /** The delta arms of `event_to_session_updates`. */
  function Delta(s: State, main: bool, q: nat, text: string, reasoning: bool): Outcome {
    if !main || RefusesText(s, q) then Outcome(s, [], true)
    else Outcome(RecordDelta(s, q, text), [Chunk(text, reasoning)], true)
  }

  function FinishTurn(s: State): State {
    s.(streamed := s.streamed - s.completed)
  }

  /** Seeds one item whose text the client already holds. */
  function SeedItem(s: State, q: nat, text: string, complete: bool): State {
    if Retired(s, q) then s
    else
      var t := Track(s, q);
      if complete then t.(completed := t.completed + {q}, streamed := t.streamed - {q})
      else t.(completed := t.completed - {q}, streamed := t.streamed[q := text])
  }

  function SeedItems(s: State, items: seq<(nat, string, bool)>): State
    decreases |items|
  {
    if items == [] then s
    else SeedItems(SeedItem(s, items[0].0, items[0].1, items[0].2), items[1..])
  }

  function MarkAll(s: State, seen: seq<nat>): State
    decreases |seen|
  {
    if seen == [] then s else MarkAll(MarkReplayed(s, seen[0]), seen[1..])
  }

  function SeedStatus(s: State, q: nat, status: ToolStatus): State {
    if Retired(s, q) then s
    else var t := Track(s, q); t.(statuses := t.statuses[q := status])
  }

  function SeedStatuses(s: State, statuses: seq<(nat, ToolStatus)>): State
    decreases |statuses|
  {
    if statuses == [] then s
    else SeedStatuses(SeedStatus(s, statuses[0].0, statuses[0].1), statuses[1..])
  }

  // --- Every operation keeps the retention invariant and never lowers the floor ---

  /** From `s` to `t` tracking moved on: the floor rose, and what left the queue is retired. */
  ghost predicate Advances(s: State, t: State) {
    && Valid(t)
    && s.floor <= t.floor
    && (forall q :: q in s.retained && q !in t.retained ==> q <= t.floor)
    && (forall q :: q !in s.retained && q <= s.floor ==> q !in t.retained)
  }

  lemma {:induction false} AdvancesTransitive(s: State, t: State, u: State)
    requires Advances(s, t) && Advances(t, u)
    ensures Advances(s, u)
  {
  }

  lemma {:induction false} TrackAdvances(s: State, q: nat)
    requires Valid(s)
    ensures Advances(s, Track(s, q))
    ensures !Retired(s, q) ==> q in Track(s, q).retained
    ensures forall r :: r in Track(s, q).retained && r != q ==> r in s.retained
    ensures q in s.retained ==> Track(s, q) == s
  {
    if !Retired(s, q) && q !in s.retained {
      var pushed := s.(retained := s.retained + {q}, order := s.order + [q]);
      assert forall r :: r in pushed.order <==> r in s.order || r == q;
      if |pushed.order| > RETENTION_LIMIT {
        EvictAdvances(pushed);
        assert pushed.order[0] == s.order[0];
      }
    }
  }

  lemma {:induction false} EvictAdvances(s: State)
    requires Remembers(s) && 0 < |s.order| <= RETENTION_LIMIT + 1
    ensures Valid(Evict(s))
    ensures s.order[0] in s.retained && s.order[0] !in Evict(s).retained
  {
    var t := Evict(s);
    assert s.order == [s.order[0]] + t.order;
    forall r ensures r in t.retained <==> r in t.order {
      assert r in s.order <==> r == s.order[0] || r in t.order;
      if r in t.order {
        var i :| 0 <= i < |t.order| && t.order[i] == r;
        assert s.order[i + 1] == r;
      }
    }
  }

  /** Tracking leaves the records of every item that is still retained alone. */
  lemma {:induction false} TrackKeepsRecords(s: State, q: nat, r: nat)
    requires Valid(s) && r in Track(s, q).retained
    ensures var t := Track(s, q);
      && (r in t.streamed <==> r in s.streamed) && (r in s.streamed ==> t.streamed[r] == s.streamed[r])
      && (r in t.completed <==> r in s.completed)
      && (r in t.replayed <==> r in s.replayed)
      && (r in t.statuses <==> r in s.statuses) && (r in s.statuses ==> t.statuses[r] == s.statuses[r])
      && (r in t.views <==> r in s.views) && (r in s.views ==> t.views[r] == s.views[r])
  {
  }

  lemma {:induction false} MarkAdvances(s: State, q: nat)
    requires Valid(s)
    ensures Advances(s, MarkReplayed(s, q))
  {
    TrackAdvances(s, q);
  }

  lemma {:induction false} RememberToolAdvances(s: State, item: Item)
    requires Valid(s)
    ensures Advances(s, RememberTool(s, item))
  {
    TrackAdvances(s, item.itemSeq);
  }

  lemma {:induction false} RememberAdvances(s: State, item: Item)
    requires Valid(s)
    ensures Advances(s, Remember(s, item))
  {
    var q := item.itemSeq;
    if item.main && !Retired(s, q) {
      TrackAdvances(s, q);
      var t := Track(s, q);
      if item.kind.ToolCall? {
        RememberToolAdvances(s, item);
        assert Remember(s, item) == RememberTool(s, item);
      } else if item.kind.IsText() && item.kind.complete {
        RecordsOnly(s, t, t.(completed := t.completed + {q}));
      } else if item.kind.IsText() {
        RecordsOnly(s, t, t.(completed := t.completed - {q}, streamed := t.streamed[q := item.kind.text]));
      }
    }
  }

  /** Changing the records of retained items does not affect tracking. */
  lemma {:induction false} RecordsOnly(s: State, t: State, u: State)
    requires Advances(s, t)
    requires u.retained == t.retained && u.order == t.order && u.floor == t.floor
    requires u.streamed.Keys <= u.retained && u.completed <= u.retained && u.replayed <= u.retained
    requires u.statuses.Keys <= u.retained && u.views.Keys <= u.retained
    ensures Advances(s, u)
  {
  }

  lemma {:induction false} DeltaAdvances(s: State, q: nat, text: string)
    requires Valid(s)
    ensures Advances(s, RecordDelta(s, q, text))
  {
    TrackAdvances(s, q);
    if !RefusesText(s, q) { RecordsOnly(s, Track(s, q), RecordDelta(s, q, text)); }
  }

  lemma {:induction false} FinalAdvances(s: State, q: nat, text: string)
    requires Valid(s)
    ensures Advances(s, TakeFinal(s, q, text).0)
  {
    TrackAdvances(s, q);
    if !RefusesText(s, q) { RecordsOnly(s, Track(s, q), TakeFinal(s, q, text).0); }
  }

  lemma {:induction false} PartialAdvances(s: State, q: nat, text: string, reasoning: bool)
    requires Valid(s)
    ensures Advances(s, ReplayPartial(s, q, text, reasoning).state)
  {
    TrackAdvances(s, q);
    if !RefusesText(s, q) { RecordsOnly(s, Track(s, q), ReplayPartial(s, q, text, reasoning).state); }
  }

  lemma {:induction false} TextAdvances(s: State, q: nat, text: string, reasoning: bool)
    requires Valid(s)
    ensures Advances(s, RecordDelta(s, q, text))
    ensures Advances(s, TakeFinal(s, q, text).0)
    ensures Advances(s, ReplayPartial(s, q, text, reasoning).state)
  {
    DeltaAdvances(s, q, text);
    FinalAdvances(s, q, text);
    PartialAdvances(s, q, text, reasoning);
  }

  lemma {:induction false} ReplayBodyAdvances(s: State, item: Item)
    requires Valid(s) && item.main && !Retired(s, item.itemSeq)
    ensures Advances(s, ReplayBody(s, item).state)
  {
    if item.kind.IsText() {
      TextAdvances(s, item.itemSeq, item.kind.text, item.kind.Reasoning?);
    } else if item.kind.ToolCall? {
      TrackAdvances(s, item.itemSeq);
      RecordsOnly(s, Track(s, item.itemSeq), ReplayBody(s, item).state);
    }
  }

  lemma {:induction false} ReplayItemAdvances(s: State, item: Item)
    requires Valid(s)
    ensures Advances(s, ReplayItem(s, item).state)
  {
    if item.main && !Retired(s, item.itemSeq) {
      ReplayBodyAdvances(s, item);
      ThenRemembered(s, ReplayBody(s, item).state, item);
    }
  }

  lemma {:induction false} ThenRemembered(s: State, t: State, item: Item)
    requires Advances(s, t)
    ensures Advances(s, Remember(MarkReplayed(t, item.itemSeq), item))
  {
    var marked := MarkReplayed(t, item.itemSeq);
    MarkAdvances(t, item.itemSeq);
    RememberAdvances(marked, item);
    AdvancesTransitive(s, t, marked);
    AdvancesTransitive(s, marked, Remember(marked, item));
  }

  lemma {:induction false} LiveItemAdvances(s: State, item: Item, added: bool)
    requires Valid(s)
    ensures Advances(s, LiveItem(s, item, added).state)
  {
    if item.main {
      var marked := MarkReplayed(s, item.itemSeq);
      MarkAdvances(s, item.itemSeq);
      var t := RememberTool(marked, item);
      RememberToolAdvances(marked, item);
      AdvancesTransitive(s, marked, t);
      if item.kind.IsText() {
        TextAdvances(t, item.itemSeq, item.kind.text, item.kind.Reasoning?);
        AdvancesTransitive(s, t, TakeFinal(t, item.itemSeq, item.kind.text).0);
      }
    }
  }
}
