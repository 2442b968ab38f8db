/** What a replay of the history delivers: every item of the main agent, and all of a history within the
    bounds (crates/pacode-acp/src/session.rs). */
module HistoryReplayAnswers {
  import opened Common
  import opened HistoryReplay

  /** Every item of the main agent is sent. */
  lemma {:induction false} EveryMainItemSent(items: seq<Item>, i: nat)
    requires i < |items| && items[i].main
    ensures items[i].num in MainNums(items)
  {
    if i > 0 {
      EveryMainItemSent(items[1..], i - 1);
      assert items[1..][i - 1] == items[i];
    }
  }

  /** Exactly the items of the main agent are sent, in their order: with ordered items each number once. */
  lemma {:induction false} SentExactly(items: seq<Item>)
    requires Strict(items)
    ensures Increasing(MainNums(items))
    ensures forall n :: n in MainNums(items) <==> exists i :: 0 <= i < |items| && items[i].main && items[i].num == n
  {
    MainNumsIncreasing(items);
    forall n ensures n in MainNums(items) <==> exists i :: 0 <= i < |items| && items[i].main && items[i].num == n {
      if n in MainNums(items) {
        var k :| 0 <= k < |MainNums(items)| && MainNums(items)[k] == n;
        var j, l := MainNumAt(items, k, k);
        assert items[j].main && items[j].num == n;
      }
      if i :| 0 <= i < |items| && items[i].main && items[i].num == n { EveryMainItemSent(items, i); }
    }
  }

  lemma {:induction false} PageBytesConcat(a: seq<Item>, b: seq<Item>)
    ensures PageBytes(a + b) == PageBytes(a) + PageBytes(b)
  {
    if a == [] {
      assert a + b == b;
    } else {
      assert (a + b)[0] == a[0] && (a + b)[1..] == a[1..] + b;
      PageBytesConcat(a[1..], b);
    }
  }

  /** The bytes that count against the bound are those of the items that the walk has passed. */
  lemma {:induction false} BytesReach(daemon: Daemon, stored: seq<Item>, cuts: Cuts, base: nat, start: Option<nat>,
    pages: seq<Cursor>)
    requires Faithful(daemon, stored, cuts) && Walk(daemon, base, start, pages)
    ensures var top := CountBelow(stored, start);
      var low := Reach(cuts, top, |pages|);
      low <= top && BytesSeen(daemon, base, pages) == PageBytes(stored[low..top])
    decreases |pages|
  {
    var top := CountBelow(stored, start);
    if pages == [] {
      assert stored[top..top] == [];
    } else {
      var n := |pages| - 1;
      BytesReach(daemon, stored, cuts, base, start, pages[..n]);
      PageReaches(daemon, stored, cuts, base, start, pages, n, base + n);
      var low, mid := Reach(cuts, top, n + 1), Reach(cuts, top, n);
      SliceJoin(stored, low, mid, top);
      PageBytesConcat(stored[low..mid], stored[mid..top]);
    }
  }

  /** Against a daemon that serves one transcript truthfully, a history of less than four megabytes that
      is read in fewer than 32 pages is replayed whole. */
  lemma {:induction false} WholeHistorySent(daemon: Daemon, stored: seq<Item>, cuts: Cuts, base: nat, from: nat,
    start: Option<nat>, pages: seq<Cursor>, hasMore: bool)
    requires Faithful(daemon, stored, cuts) && Walk(daemon, base, start, pages)
    requires WalkEnds(daemon, base, pages, start, hasMore) && (hasMore || CountBelow(stored, start) == 0)
    requires PageBytes(stored[..CountBelow(stored, start)]) < 4 * 1024 * 1024 && |pages| < 32
    ensures Walked(daemon, base, from, pages) == MainNums(stored[..CountBelow(stored, start)])
  {
    var top := CountBelow(stored, start);
    var low := Reach(cuts, top, |pages|);
    FaithfulReplay(daemon, stored, cuts, base, from, start, pages, hasMore);
    BytesReach(daemon, stored, cuts, base, start, pages);
    SliceJoin(stored, 0, low, top);
    PageBytesConcat(stored[0..low], stored[low..top]);
    assert stored[0..top] == stored[..top];
  }
}
