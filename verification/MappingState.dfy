/** The mutable `MappingState` of crates/pacode-acp/src/mapping.rs, proved against the functions of
    module `Mapping`. */
module MappingObject {
  import opened Common
  import opened Mapping

  class MappingState {
    var streamedItems: map<nat, string>
    var completedItems: set<nat>
    var replayedItems: set<nat>
    var toolStatuses: map<nat, ToolStatus>
    var toolViews: map<nat, ToolView>
    var retainedItems: set<nat>
    var retentionOrder: seq<nat>
    var replayedFloor: nat

    ghost function View(): State
      reads this
    {
      State(streamedItems, completedItems, replayedItems, toolStatuses, toolViews, retainedItems, retentionOrder,
            replayedFloor)
    }

    constructor ()
      ensures View() == EMPTY && Valid(View())
    {
      streamedItems, completedItems, replayedItems := map[], {}, {};
      toolStatuses, toolViews := map[], map[];
      retainedItems, retentionOrder, replayedFloor := {}, [], 0;
    }

    method Clear()
      modifies this
      ensures View() == EMPTY && Valid(View())
    {
      streamedItems, completedItems, replayedItems := map[], {}, {};
      toolStatuses, toolViews := map[], map[];
      retainedItems, retentionOrder, replayedFloor := {}, [], 0;
    }

    method FinishTurn()
      requires Valid(View())
      modifies this
      ensures View() == Mapping.FinishTurn(old(View())) && Valid(View())
    {
      streamedItems := map q | q in streamedItems && q !in completedItems :: streamedItems[q];
      assert streamedItems == old(streamedItems) - completedItems;
    }

    /** Remembers an item, evicting the oldest ones beyond the retention limit. */
    method TrackItem(itemSeq: nat)
      requires Valid(View())
      modifies this
      ensures View() == Track(old(View()), itemSeq) && Valid(View())
    {
      TrackAdvances(View(), itemSeq);
      if itemSeq <= replayedFloor { return; }
      if itemSeq !in retainedItems {
        retainedItems := retainedItems + {itemSeq};
        retentionOrder := retentionOrder + [itemSeq];
      }
      ghost var pushed := View();
      while |retentionOrder| > RETENTION_LIMIT
        invariant |pushed.order| <= RETENTION_LIMIT + 1
        invariant View() == pushed || (|pushed.order| == RETENTION_LIMIT + 1 && View() == Evict(pushed))
        decreases |retentionOrder|
      {
        var oldest := retentionOrder[0];
        retentionOrder := retentionOrder[1..];
        retainedItems := retainedItems - {oldest};
        completedItems := completedItems - {oldest};
        replayedItems := replayedItems - {oldest};
        toolStatuses := toolStatuses - {oldest};
        toolViews := toolViews - {oldest};
        streamedItems := streamedItems - {oldest};
        replayedFloor := if oldest > replayedFloor then oldest else replayedFloor;
      }
    }

    method SeedOne(itemSeq: nat, text: string, complete: bool)
      requires Valid(View())
      modifies this
      ensures View() == SeedItem(old(View()), itemSeq, text, complete) && Valid(View())
    {
      if itemSeq <= replayedFloor { return; }
      TrackAdvances(View(), itemSeq);
      TrackItem(itemSeq);
      streamedItems := streamedItems[itemSeq := text];
      if complete {
        completedItems := completedItems + {itemSeq};
        streamedItems := streamedItems - {itemSeq};
        assert streamedItems == Track(old(View()), itemSeq).streamed - {itemSeq};
      } else {
        completedItems := completedItems - {itemSeq};
      }
    }

    method SeedTranscriptWithSeen(items: seq<(nat, string, bool)>, seen: seq<nat>)
      requires Valid(View())
      modifies this
      ensures View() == MarkAll(SeedItems(old(View()), items), seen) && Valid(View())
    {
      for i := 0 to |items|
        invariant Valid(View())
        invariant SeedItems(View(), items[i..]) == SeedItems(old(View()), items)
      {
        assert items[i..][0] == items[i] && items[i..][1..] == items[i + 1..];
        SeedOne(items[i].0, items[i].1, items[i].2);
      }
      ghost var seeded := View();
      for i := 0 to |seen|
        invariant Valid(View())
        invariant MarkAll(View(), seen[i..]) == MarkAll(seeded, seen)
      {
        assert seen[i..][0] == seen[i] && seen[i..][1..] == seen[i + 1..];
        MarkItemReplayed(seen[i]);
      }
    }

    method SeedToolStatuses(statuses: seq<(nat, ToolStatus)>)
      requires Valid(View())
      modifies this
      ensures View() == SeedStatuses(old(View()), statuses) && Valid(View())
    {
      for i := 0 to |statuses|
        invariant Valid(View())
        invariant SeedStatuses(View(), statuses[i..]) == SeedStatuses(old(View()), statuses)
      {
        assert statuses[i..][0] == statuses[i] && statuses[i..][1..] == statuses[i + 1..];
        var (itemSeq, status) := statuses[i];
        if itemSeq > replayedFloor {
          TrackAdvances(View(), itemSeq);
          TrackItem(itemSeq);
          toolStatuses := toolStatuses[itemSeq := status];
        }
      }
    }

    method MarkItemReplayed(itemSeq: nat)
      requires Valid(View())
      modifies this
      ensures View() == MarkReplayed(old(View()), itemSeq) && Valid(View())
    {
      MarkAdvances(View(), itemSeq);
      if itemSeq <= replayedFloor { return; }
      TrackItem(itemSeq);
      replayedItems := replayedItems + {itemSeq};
    }

    method RememberToolCall(item: Item)
      requires Valid(View())
      modifies this
      ensures View() == RememberTool(old(View()), item) && Valid(View())
    {
      RememberToolAdvances(View(), item);
      if !item.main || item.itemSeq <= replayedFloor || !item.kind.ToolCall? { return; }
      TrackItem(item.itemSeq);
      toolStatuses := toolStatuses[item.itemSeq := item.kind.status];
      toolViews := toolViews[item.itemSeq := item.kind.view];
    }

    method RememberItem(item: Item)
      requires Valid(View())
      modifies this
      ensures View() == Remember(old(View()), item) && Valid(View())
    {
      RememberAdvances(View(), item);
      if !item.main || item.itemSeq <= replayedFloor { return; }
      RememberToolCall(item);
      TrackItem(item.itemSeq);
      if !item.kind.IsText() { return; }
      if item.kind.complete {
        completedItems := completedItems + {item.itemSeq};
        return;
      }
      completedItems := completedItems - {item.itemSeq};
      streamedItems := streamedItems[item.itemSeq := item.kind.text];
    }

    /** Appends a delta to the item's streamed text; false when the item no longer takes text. */
    method RecordDelta(itemSeq: nat, text: string) returns (recorded: bool)
      requires Valid(View())
      modifies this
      ensures recorded == !RefusesText(old(View()), itemSeq)
      ensures View() == Mapping.RecordDelta(old(View()), itemSeq, text) && Valid(View())
    {
      TextAdvances(View(), itemSeq, text, false);
      if itemSeq <= replayedFloor || itemSeq in completedItems { return false; }
      MarkItemReplayed(itemSeq);
      var streamed := if itemSeq in streamedItems then streamedItems[itemSeq] else "";
      streamedItems := streamedItems[itemSeq := streamed + text];
      return true;
    }

    /** Completes an item and returns the part of its text that was not streamed yet. */
    method TakeFinalText(itemSeq: nat, text: string) returns (suffix: Option<string>)
      requires Valid(View())
      modifies this
      ensures (View(), suffix) == TakeFinal(old(View()), itemSeq, text) && Valid(View())
    {
      TextAdvances(View(), itemSeq, text, false);
      if itemSeq <= replayedFloor || itemSeq in completedItems { return None; }
      TrackItem(itemSeq);
      var matches := true;
      suffix := if text == "" then None else Some(text);
      if itemSeq in streamedItems {
        var streamed := streamedItems[itemSeq];
        matches := streamed <= text;
        suffix := if matches && |text| > |streamed| then Some(text[|streamed|..]) else None;
      }
      completedItems := completedItems + {itemSeq};
      if !matches {
        streamedItems := streamedItems[itemSeq := text];
        return None;
      }
      streamedItems := streamedItems - {itemSeq};
    }

    method FinalItemUpdate(itemSeq: nat, text: string, complete: bool, reasoning: bool) returns (updates: seq<Update>)
      requires Valid(View())
      modifies this
      ensures Outcome(View(), updates, true) == FinalUpdate(old(View()), itemSeq, text, complete, reasoning)
      ensures Valid(View())
    {
      if !complete { return []; }
      var suffix := TakeFinalText(itemSeq, text);
      if suffix.None? { return []; }
      return [Chunk(suffix.value, reasoning)];
    }

    method ReplayPartialText(itemSeq: nat, text: string, reasoning: bool) returns (updates: seq<Update>, ok: bool)
      requires Valid(View())
      modifies this
      ensures Outcome(View(), updates, ok) == ReplayPartial(old(View()), itemSeq, text, reasoning)
      ensures Valid(View())
    {
      TextAdvances(View(), itemSeq, text, reasoning);
      if itemSeq <= replayedFloor || itemSeq in completedItems { return [], true; }
      TrackItem(itemSeq);
      if itemSeq in streamedItems && !(streamedItems[itemSeq] <= text) { return [], false; }
      var suffix := if itemSeq in streamedItems then text[|streamedItems[itemSeq]|..] else text;
      streamedItems := streamedItems[itemSeq := text];
      if suffix == "" { return [], true; }
      return [Chunk(suffix, reasoning)], true;
    }

    method ReplayToolCall(item: Item, isNew: bool) returns (updates: seq<Update>)
      requires Valid(View()) && item.main && item.kind.ToolCall? && !Retired(View(), item.itemSeq)
      modifies this
      ensures Outcome(View(), updates, true) == ReplayTool(old(View()), item, isNew) && Valid(View())
    {
      var itemSeq, kind := item.itemSeq, item.kind;
      TrackAdvances(View(), itemSeq);
      TrackItem(itemSeq);
      var statusChanged := !(itemSeq in toolStatuses && toolStatuses[itemSeq] == kind.status);
      toolStatuses := toolStatuses[itemSeq := kind.status];
      var viewChanged := !(itemSeq in toolViews && toolViews[itemSeq] == kind.view);
      toolViews := toolViews[itemSeq := kind.view];
      if isNew { return TranscriptUpdates(item); }
      if statusChanged || viewChanged { return [ToolCallChange(kind.callId, kind.status, kind.view)]; }
      return [];
    }

    method ReplayTranscriptItem(item: Item) returns (updates: seq<Update>, ok: bool)
      requires Valid(View())
      modifies this
      ensures Outcome(View(), updates, ok) == ReplayItem(old(View()), item) && Valid(View())
    {
      if !item.main || item.itemSeq <= replayedFloor { return [], true; }
      var itemSeq, kind := item.itemSeq, item.kind;
      var isNew := itemSeq !in replayedItems;
      updates, ok := [], true;
      if kind.IsText() && kind.complete {
        if itemSeq !in completedItems && itemSeq in streamedItems && !(streamedItems[itemSeq] <= kind.text) {
          return [], false;
        }
        updates := FinalItemUpdate(itemSeq, kind.text, true, kind.Reasoning?);
      } else if kind.IsText() && (isNew || itemSeq !in completedItems) {
        updates, ok := ReplayPartialText(itemSeq, kind.text, kind.Reasoning?);
        if !ok { return; }
      } else if kind.ToolCall? {
        updates := ReplayToolCall(item, isNew);
      } else if isNew {
        updates := TranscriptUpdates(item);
      }
      assert Outcome(View(), updates, ok) == ReplayBody(old(View()), item);
      MarkItemReplayed(itemSeq);
      RememberItem(item);
    }

    /** The snapshot loop: replays items in order and stops at the first divergence. */
    method ReplayTranscript(items: seq<Item>) returns (updates: seq<Update>, ok: bool)
      requires Valid(View())
      modifies this
      ensures Outcome(View(), updates, ok) == ReplayAll(old(View()), items) && Valid(View())
    {
      updates, ok := [], true;
      var i := 0;
      while i < |items|
        invariant i <= |items| && Valid(View()) && ok
        invariant var rest := ReplayAll(View(), items[i..]);
          Outcome(rest.state, updates + rest.updates, rest.ok) == ReplayAll(old(View()), items)
      {
        assert items[i..][0] == items[i] && items[i..][1..] == items[i + 1..];
        ghost var rest := ReplayAll(View(), items[i..]);
        ghost var before := updates;
        var sent;
        sent, ok := ReplayTranscriptItem(items[i]);
        updates := updates + sent;
        if !ok { assert rest == Outcome(View(), sent, false); return; }
        assert before + rest.updates == updates + ReplayAll(View(), items[i + 1..]).updates;
        i := i + 1;
      }
    }

    method LiveItemEvent(item: Item, added: bool) returns (updates: seq<Update>)
      requires Valid(View())
      modifies this
      ensures Outcome(View(), updates, true) == LiveItem(old(View()), item, added) && Valid(View())
    {
      if !item.main { return []; }
      MarkItemReplayed(item.itemSeq);
      RememberToolCall(item);
      match item.kind
      case Assistant(text, complete) =>
        updates := FinalItemUpdate(item.itemSeq, text, complete, false);
      case Reasoning(text, complete) =>
        updates := FinalItemUpdate(item.itemSeq, text, complete, true);
      case ToolCall(id, status, view) =>
        updates := [if added then ToolCallStart(id, status, view) else ToolCallChange(id, status, view)];
      case BashCommand(command, output) =>
        updates := if added then [CommandCall(item.itemSeq, command, output)] else [];
      case User(_) => updates := [];
      case Notice(_) => updates := [];
      case Unmapped => updates := [];
    }

    method DeltaEvent(main: bool, itemSeq: nat, text: string, reasoning: bool) returns (updates: seq<Update>)
      requires Valid(View())
      modifies this
      ensures Outcome(View(), updates, true) == Delta(old(View()), main, itemSeq, text, reasoning) && Valid(View())
    {
      if !main { return []; }
      var recorded := RecordDelta(itemSeq, text);
      if !recorded { return []; }
      return [Chunk(text, reasoning)];
    }
  }
}
