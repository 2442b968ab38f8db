/** Paging older history out of the store (`load_older_history` and `next_older_item_seq` of
    crates/pacode-core/src/agent.rs) against an arbitrary projection and a store that may fail. */
module Paging {
  import opened Common

  const DEFAULT_LIMIT: nat := 200

  /** A stored message and the seq it is keyed by. */
  datatype Row = Row(num: nat, body: string)

  /** A projected transcript entry, and the item it becomes once numbered. */
  type Entry = string
  datatype Item = Item(num: nat, entry: Entry)

  ghost predicate Ordered(rows: seq<Row>) {
    forall i, j | 0 <= i < j < |rows| :: rows[i].num < rows[j].num
  }

  /** How many rows lie below `cursor`. */
  function Below(rows: seq<Row>, cursor: nat): (n: nat)
    ensures n <= |rows|
  {
    if rows == [] || rows[0].num >= cursor then 0 else 1 + Below(rows[1..], cursor)
  }

  lemma {:induction false} BelowSplits(rows: seq<Row>, cursor: nat)
    requires Ordered(rows)
    ensures forall i | 0 <= i < |rows| :: i < Below(rows, cursor) <==> rows[i].num < cursor
  {
    if rows != [] && rows[0].num < cursor {
      BelowSplits(rows[1..], cursor);
      forall i | 0 <= i < |rows| ensures i < Below(rows, cursor) <==> rows[i].num < cursor {
        if i > 0 { assert rows[1..][i - 1] == rows[i]; }
      }
    }
  }

  /** A row's own seq as cursor excludes it and everything after it. */
  lemma {:induction false} BelowRow(rows: seq<Row>, k: nat)
    requires Ordered(rows) && k < |rows|
    ensures Below(rows, rows[k].num) == k
  {
    BelowSplits(rows, rows[k].num);
    var n := Below(rows, rows[k].num);
    assert n < |rows| ==> !(rows[n].num < rows[k].num);
  }

  /** A window of rows, by position: `lo` included, `hi` excluded. */
  datatype Window = Window(lo: nat, hi: nat)

  /** The rows a bounded read below position `hi` returns. */
  function Page(hi: nat, limit: nat): Window {
    var count := if limit == 0 then DEFAULT_LIMIT else limit;
    Window(if count < hi then hi - count else 0, hi)
  }

  /** The store: sorted rows, and which reads fail. */
  class Store {
    const rows: seq<Row>
    const fails: iset<nat>
    var readCount: nat

    constructor (rows: seq<Row>, fails: iset<nat>)
      ensures this.rows == rows && this.fails == fails && readCount == 0
    {
      this.rows, this.fails, readCount := rows, fails, 0;
    }

    /** Up to `limit` rows before `cursor`, ascending; None when the read fails. */
    method LoadMessagesBefore(cursor: nat, limit: nat) returns (page: Option<seq<Row>>)
      modifies this
      ensures readCount == old(readCount) + 1
      ensures if old(readCount) in fails then page.None?
        else var w := Page(Below(rows, cursor), limit); page == Some(rows[w.lo..w.hi])
      ensures page.Some? ==>
        var n := Below(rows, cursor);
        && |page.value| == Min(n, if limit == 0 then 200 else limit)
        && page.value == rows[n - |page.value|..n]
    {
      var failed := readCount in fails;
      readCount := readCount + 1;
      if failed { return None; }
      var w := Page(Below(rows, cursor), limit);
      return Some(rows[w.lo..w.hi]);
    }
  }

  // --- Windows and the items they project to ---

  /** The windows run contiguously downward from `top` to `bottom`. */
  ghost predicate Contiguous(ws: seq<Window>, top: nat, bottom: nat) {
    if ws == [] then top == bottom
    else ws[0].lo < ws[0].hi == top && Contiguous(ws[1..], ws[0].lo, bottom)
  }

  function Down(base: nat, k: nat): nat {
    if base > k then base - 1 - k else 0
  }

  /** Entries numbered downward from `base`, saturating at 0. */
  function Number(entries: seq<Entry>, base: nat): seq<Item> {
    seq(|entries|, i requires 0 <= i < |entries| => Item(Down(base, i), entries[i]))
  }

  /** The numbers are strictly below the tail and strictly decreasing exactly while the counter
      does not saturate. */
  lemma {:induction false} NumbersDescend(entries: seq<Entry>, base: nat)
    ensures (var items := Number(entries, base);
             && (forall i | 0 <= i < |items| :: items[i].num < base)
             && (forall i, j | 0 <= i < j < |items| :: items[i].num > items[j].num))
        <==> |entries| <= base
  {
    var items := Number(entries, base);
    var n := |entries|;
    if n > base {
      if n == 1 || base == 0 {
        assert items[0].num == 0;
      } else {
        assert items[n - 1].num == 0 && items[n - 2].num == Down(base, n - 2);
        if n > base + 1 { assert items[n - 2].num == 0; }
        assert base == n - 1 ==> items[n - 2].num == 0;
      }
    }
  }

  lemma {:induction false} NumberAppend(entries: seq<Entry>, more: seq<Entry>, base: nat)
    ensures Number(entries + more, base) ==
      Number(entries, base) + Number(more, SatSub(base, |entries|))
  {
  }

  ghost predicate WithinRows(ws: seq<Window>, n: nat) {
    forall i | 0 <= i < |ws| :: ws[i].lo <= ws[i].hi <= n
  }

  /** Some window holds row `k`. */
  ghost predicate Covers(ws: seq<Window>, k: nat) {
    exists j :: 0 <= j < |ws| && ws[j].lo <= k < ws[j].hi
  }

  /** No stored message between the two floors is skipped or read twice. */
  lemma {:induction false} CoveredOnce(ws: seq<Window>, top: nat, bottom: nat, k: nat)
    requires Contiguous(ws, top, bottom)
    ensures bottom <= top && (ws == [] <==> bottom == top)
    ensures bottom <= k < top <==> Covers(ws, k)
    ensures forall i, j | 0 <= i < j < |ws| :: ws[j].hi <= ws[i].lo
    ensures forall j | 0 <= j < |ws| :: bottom <= ws[j].lo < ws[j].hi <= top
    decreases |ws|
  {
    if ws != [] {
      var rest := ws[1..];
      CoveredOnce(rest, ws[0].lo, bottom, k);
      assert forall j | 0 < j < |ws| :: ws[j] == rest[j - 1];
      if Covers(rest, k) {
        var j :| 0 <= j < |rest| && rest[j].lo <= k < rest[j].hi;
        assert ws[j + 1].lo <= k < ws[j + 1].hi;
      }
      if ws[0].lo <= k < top { assert Covers(ws, k); }
    }
  }

  /** Successive calls chain: each starts where the previous one stopped, so their windows together
      are contiguous too. */
  lemma {:induction false} CallsChain(a: seq<Window>, b: seq<Window>, top: nat, mid: nat, bottom: nat)
    requires Contiguous(a, top, mid) && Contiguous(b, mid, bottom)
    ensures Contiguous(a + b, top, bottom)
    decreases |a|
  {
    if a == [] {
      assert a + b == b;
    } else {
      assert (a + b)[1..] == a[1..] + b;
      CallsChain(a[1..], b, a[0].lo, mid, bottom);
    }
  }

  /** A whole sequence of error-free calls, each given by its windows and the floor it left. */
  ghost predicate Chained(calls: seq<(seq<Window>, nat)>, top: nat)
    decreases |calls|
  {
    calls == [] || (Contiguous(calls[0].0, top, calls[0].1) && Chained(calls[1..], calls[0].1))
  }

  ghost function AllWindows(calls: seq<(seq<Window>, nat)>): seq<Window> {
    if calls == [] then [] else calls[0].0 + AllWindows(calls[1..])
  }

  ghost function Bottom(calls: seq<(seq<Window>, nat)>, top: nat): nat {
    if calls == [] then top else calls[|calls| - 1].1
  }

  lemma {:induction false} CallsContiguous(calls: seq<(seq<Window>, nat)>, top: nat)
    requires Chained(calls, top)
    ensures Contiguous(AllWindows(calls), top, Bottom(calls, top))
    decreases |calls|
  {
    if calls != [] {
      var mid := calls[0].1;
      CallsContiguous(calls[1..], mid);
      CallsChain(calls[0].0, AllWindows(calls[1..]), top, mid, Bottom(calls[1..], mid));
    }
  }

  /** How many messages the re-read after an overrun asks for: the ratio the window revealed, at least
      one. */
  function Shrunk(count: nat, want: nat, projected: nat): nat {
    if projected == 0 then 1
    else
      var n := Max(count * want / projected, 1);
      if n > U32_MAX then 1 else n
  }

  /** The re-read asks for strictly fewer messages than the window held, unless it held one. */
  lemma {:induction false} ShrinkShrinks(count: nat, want: nat, projected: nat)
    requires count > 0 && projected > want
    ensures 0 < Shrunk(count, want, projected) && (Shrunk(count, want, projected) < count || count == 1)
  {
    assert count * want < count * projected;
    DivBelow(count * want, projected, count);
  }

  lemma {:induction false} DivBelow(a: nat, d: nat, bound: nat)
    requires d > 0 && a < bound * d
    ensures a / d < bound
  {
    assert (bound - a / d) * d == bound * d - a / d * d > 0;
  }

  // --- What a call reads, as a function of the store and of the reads that fail ---

  /** What a window of messages projects to; a window it does not hold projects to nothing. */
  type Projection = imap<seq<Row>, seq<Entry>>

  function Items(project: Projection, rows: seq<Row>): seq<Entry> {
    if rows in project then project[rows] else []
  }

  /** The stored rows, the projection, and which reads fail. */
  datatype Source = Source(rows: seq<Row>, project: Projection, fails: iset<nat>)
  {
    function Entries(w: Window): seq<Entry> {
      if w.lo <= w.hi <= |rows| then Items(project, rows[w.lo..w.hi]) else []
    }

    /** How many items a window projects to. */
    function Width(w: Window): nat {
      |Entries(w)|
    }

    /** The limit of the re-read after window `w` overran. */
    function Retry(w: Window, want: nat): nat {
      if w.lo <= w.hi then Shrunk(w.hi - w.lo, want, Width(w)) else 1
    }

    predicate Overruns(w: Window, want: nat, limit: nat) {
      w.lo < w.hi && Width(w) > want && Retry(w, want) < limit
    }
  }

  /** The window below position `hi` that the inner loop settles on, None after a failed read, and the
      reads made so far. */
  function NextWindow(src: Source, hi: nat, want: nat, limit: nat, made: nat): (Option<Window>, nat)
    decreases limit
  {
    var w := Page(hi, limit);
    if made in src.fails then (None, made + 1)
    else if src.Overruns(w, want, limit)
    then NextWindow(src, hi, want, src.Retry(w, want), made + 1)
    else (Some(w), made + 1)
  }

  /** The window ends at the cursor and is empty only if nothing lies below. */
  lemma {:induction false} NextWindowShape(src: Source, hi: nat, want: nat, limit: nat, made: nat)
    ensures var w := NextWindow(src, hi, want, limit, made).0;
      w.Some? ==> w.value.lo <= w.value.hi == hi && (w.value.lo == hi <==> hi == 0)
    decreases limit
  {
    var w := Page(hi, limit);
    if src.Overruns(w, want, limit) { NextWindowShape(src, hi, want, src.Retry(w, want), made + 1); }
  }

  /** Its items fit, or it is a single message. */
  lemma {:induction false} NextWindowFits(src: Source, hi: nat, want: nat, limit: nat, made: nat)
    requires limit > 0
    ensures var w := NextWindow(src, hi, want, limit, made).0;
      w.Some? && w.value.lo < w.value.hi && src.Width(w.value) > want ==> w.value.hi - w.value.lo == 1
    decreases limit
  {
    var w := Page(hi, limit);
    if w.lo < w.hi && src.Width(w) > want { ShrinkShrinks(w.hi - w.lo, want, src.Width(w)); }
    if src.Overruns(w, want, limit) { NextWindowFits(src, hi, want, src.Retry(w, want), made + 1); }
  }

  /** The windows a call consumes, the position it ends at, whether a read failed, whether nothing
      older is left, and the reads made. */
  datatype Load = Load(windows: seq<Window>, bottom: nat, failed: bool, ended: bool, made: nat)

  /** The window a call with `have` items reads next. */
  function Wanted(src: Source, hi: nat, have: nat, budget: nat, made: nat): (r: (Option<Window>, nat))
    requires have < budget
    ensures r.0.Some? ==> r.0.value.lo <= r.0.value.hi == hi && (r.0.value.lo == hi <==> hi == 0)
  {
    NextWindowShape(src, hi, budget - have, Min(budget - have, U32_MAX), made);
    NextWindow(src, hi, budget - have, Min(budget - have, U32_MAX), made)
  }

  /** The outer loop from position `hi` with `have` items so far. */
  function LoadFrom(src: Source, hi: nat, have: nat, budget: nat, made: nat): Load
    decreases hi
  {
    if have >= budget then Load([], hi, false, false, made)
    else
      var (window, after) := Wanted(src, hi, have, budget, made);
      if window.None? then Load([], hi, true, false, after)
      else if window.value.lo == hi then Load([], hi, false, true, after)
      else
        var rest := LoadFrom(src, window.value.lo, have + src.Width(window.value), budget, after);
        rest.(windows := [window.value] + rest.windows)
  }

  /** Concatenated projections, one window after the other. */
  ghost function Projected(src: Source, ws: seq<Window>): seq<Entry> {
    if ws == [] then [] else src.Entries(ws[0]) + Projected(src, ws[1..])
  }

  /** Windows are taken while the budget is not spent, and one that overruns it is a single message. */
  ghost predicate Fits(src: Source, ws: seq<Window>, have: nat, budget: nat) {
    ws == [] ||
    (&& have < budget
     && (have + src.Width(ws[0]) > budget ==> ws[0].hi - ws[0].lo == 1)
     && Fits(src, ws[1..], have + src.Width(ws[0]), budget))
  }

  /** A call consumes contiguous windows from its start down to where it ends. */
  lemma {:induction false} LoadContiguous(src: Source, hi: nat, have: nat, budget: nat, made: nat)
    ensures var l := LoadFrom(src, hi, have, budget, made); Contiguous(l.windows, hi, l.bottom)
    decreases hi
  {
    if have < budget {
      var (window, after) := Wanted(src, hi, have, budget, made);
      if window.Some? && window.value.lo < hi {
        var rest := LoadFrom(src, window.value.lo, have + src.Width(window.value), budget, after);
        LoadContiguous(src, window.value.lo, have + src.Width(window.value), budget, after);
        assert ([window.value] + rest.windows)[1..] == rest.windows;
      }
    }
  }

  /** They keep to the budget. */
  lemma {:induction false} LoadFits(src: Source, hi: nat, have: nat, budget: nat, made: nat)
    ensures Fits(src, LoadFrom(src, hi, have, budget, made).windows, have, budget)
    decreases hi
  {
    if have < budget {
      var (window, after) := Wanted(src, hi, have, budget, made);
      if window.Some? && window.value.lo < hi {
        NextWindowFits(src, hi, budget - have, Min(budget - have, U32_MAX), made);
        LoadFits(src, window.value.lo, have + src.Width(window.value), budget, after);
        var rest := LoadFrom(src, window.value.lo, have + src.Width(window.value), budget, after);
        assert ([window.value] + rest.windows)[1..] == rest.windows;
      }
    }
  }

  /** A call that meets the end has read everything, and one that may read and does not fail reads
      something if there is something. */
  lemma {:induction false} LoadEnds(src: Source, hi: nat, have: nat, budget: nat, made: nat)
    ensures var l := LoadFrom(src, hi, have, budget, made);
      && (l.ended ==> l.bottom == 0)
      && (have < budget && !l.failed ==> (l.windows == [] <==> hi == 0))
    decreases hi
  {
    if have < budget {
      var (window, after) := Wanted(src, hi, have, budget, made);
      if window.Some? && window.value.lo < hi {
        LoadEnds(src, window.value.lo, have + src.Width(window.value), budget, after);
      }
    }
  }

  lemma {:induction false} Regroup(a: seq<Entry>, b: seq<Entry>, c: seq<Entry>)
    ensures a + (b + c) == (a + b) + c
  {
  }

  lemma {:induction false} ProjectedAppend(src: Source, ws: seq<Window>, w: Window)
    ensures Projected(src, ws + [w]) == Projected(src, ws) + src.Entries(w)
  {
    if ws == [] {
      assert ([] + [w])[1..] == [];
    } else {
      ProjectedAppend(src, ws[1..], w);
      assert (ws + [w])[1..] == ws[1..] + [w];
      Regroup(src.Entries(ws[0]), Projected(src, ws[1..]), src.Entries(w));
    }
  }

  /** Numbering goes on where it stopped. */
  lemma {:induction false} NumberWindow(src: Source, ws: seq<Window>, w: Window, base: nat)
    ensures Number(Projected(src, ws + [w]), base)
      == Number(Projected(src, ws), base) + Number(src.Entries(w), SatSub(base, |Projected(src, ws)|))
  {
    ProjectedAppend(src, ws, w);
    NumberAppend(Projected(src, ws), src.Entries(w), base);
  }

  /** The agent's side of paging. */
  class OlderHistory {
    const store: Store
    const project: Projection
    var floor: Option<nat>
    var olderItemSeq: nat

    constructor (store: Store, project: Projection, floor: Option<nat>, base: nat)
      ensures this.store == store && this.project == project && this.floor == floor && olderItemSeq == base
    {
      this.store, this.project, this.floor, olderItemSeq := store, project, floor, base;
    }

    ghost function Src(): Source {
      Source(store.rows, project, store.fails)
    }

    method NumberEntries(entries: seq<Entry>) returns (items: seq<Item>)
      modifies this`olderItemSeq
      ensures items == Number(entries, old(olderItemSeq))
      ensures olderItemSeq == SatSub(old(olderItemSeq), |entries|)
    {
      items := [];
      for i := 0 to |entries|
        invariant items == Number(entries[..i], old(olderItemSeq))
        invariant olderItemSeq == SatSub(old(olderItemSeq), i)
      {
        var num := if olderItemSeq > 0 then olderItemSeq - 1 else 0;
        olderItemSeq := num;
        items := items + [Item(num, entries[i])];
        assert entries[..i + 1] == entries[..i] + [entries[i]];
      }
      assert entries[..|entries|] == entries;
    }

    /** The inner loop: the next window below `cursor` whose items fit `want`, or a single message.
        An empty store below the cursor gives an empty window. */
    method ReadWindow(cursor: nat, have: nat, budget: nat) returns (page: Option<seq<Row>>, ghost w: Window)
      requires have < budget
      modifies store
      ensures (if page.None? then None else Some(w), store.readCount)
        == Wanted(Src(), Below(store.rows, cursor), have, budget, old(store.readCount))
      ensures page.Some? ==>
        && w.lo <= w.hi == Below(store.rows, cursor) && page.value == store.rows[w.lo..w.hi]
        && (w.lo == w.hi <==> w.hi == 0)
        && (w.lo < w.hi && |Items(project, page.value)| > budget - have ==> w.hi - w.lo == 1)
    {
      page, w := SettleWindow(cursor, budget - have);
      NextWindowFits(Src(), Below(store.rows, cursor), budget - have, Min(budget - have, U32_MAX),
        old(store.readCount));
    }

    method SettleWindow(cursor: nat, want: nat) returns (page: Option<seq<Row>>, ghost w: Window)
      requires want > 0
      modifies store
      ensures (if page.None? then None else Some(w), store.readCount)
        == NextWindow(Src(), Below(store.rows, cursor), want, Min(want, U32_MAX), old(store.readCount))
      ensures page.Some? ==> w.lo <= w.hi <= |store.rows| && page.value == store.rows[w.lo..w.hi]
    {
      var readLimit := Min(want, U32_MAX);
      ghost var src, hi := Src(), Below(store.rows, cursor);
      ghost var all := NextWindow(src, hi, want, readLimit, store.readCount);
      while true
        invariant 0 < readLimit && NextWindow(src, hi, want, readLimit, store.readCount) == all
        decreases readLimit
      {
        page := store.LoadMessagesBefore(cursor, readLimit);
        w := Page(hi, readLimit);
        if page.None? { return; }
        var rows := page.value;
        if |rows| == 0 { return; }
        var projected := |Items(project, rows)|;
        assert src.Width(w) == projected && src.Retry(w, want) == Shrunk(|rows|, want, projected);
        if projected > want {
          var shrunk := |rows| * want / projected;
          if shrunk < 1 { shrunk := 1; }
          if shrunk > U32_MAX { shrunk := 1; }
          if shrunk < readLimit {
            readLimit := shrunk;
            continue;
          }
        }
        return;
      }
    }

    /** Reads up to `maxItems` items older than the floor: exactly the windows of `LoadFrom`. They run
        contiguously down from the floor, the items are exactly their projection, numbered downward,
        and only a single-message last window may overrun the budget. After a failed read the floor
        stays, although the items read before it are returned and numbered. */
    method LoadOlderHistory(maxItems: nat)
      returns (items: seq<Item>, more: bool, ghost windows: seq<Window>, ghost failed: bool)
      requires Ordered(store.rows)
      modifies this, store
      ensures old(floor).None? ==>
        items == [] && !more && windows == [] && !failed && floor == old(floor)
          && store.readCount == old(store.readCount)
      ensures old(floor).Some? ==>
        var top := Below(store.rows, old(floor).value);
        var l := LoadFrom(Src(), top, 0, maxItems, old(store.readCount));
        && windows == l.windows && failed == l.failed && store.readCount == l.made
        && floor.Some? && (if failed then floor == old(floor) else Below(store.rows, floor.value) == l.bottom)
        && Contiguous(windows, top, l.bottom) && WithinRows(windows, |store.rows|) && Fits(Src(), windows, 0, maxItems)
        && items == Number(Projected(Src(), windows), old(olderItemSeq))
        && more == (!failed && !l.ended && floor.value > 0) && (!more && !failed ==> l.bottom == 0)
      ensures olderItemSeq == SatSub(old(olderItemSeq), |items|)
    {
      items, more, windows, failed := [], false, [], false;
      if floor.None? { return; }
      var cursor := floor.value;
      ghost var all := LoadFrom(Src(), Below(store.rows, cursor), 0, maxItems, store.readCount);
      LoadContiguous(Src(), Below(store.rows, cursor), 0, maxItems, store.readCount);
      CoveredOnce(all.windows, Below(store.rows, cursor), all.bottom, 0);
      LoadFits(Src(), Below(store.rows, cursor), 0, maxItems, store.readCount);
      LoadEnds(Src(), Below(store.rows, cursor), 0, maxItems, store.readCount);
      if maxItems == 0 {
        more := cursor > 0;
        return;
      }
      var broken;
      items, more, broken, cursor, windows := LoadWindows(maxItems, cursor, all);
      failed := broken;
      if broken { return; }
      floor := Some(cursor);
      more := more && cursor > 0;
    }

    /** The outer loop. */
    method LoadWindows(maxItems: nat, start: nat, ghost all: Load)
      returns (items: seq<Item>, more: bool, failed: bool, cursor: nat, ghost windows: seq<Window>)
      requires Ordered(store.rows)
      requires all == LoadFrom(Src(), Below(store.rows, start), 0, maxItems, store.readCount)
      modifies this`olderItemSeq, store
      ensures all == Load(windows, Below(store.rows, cursor), failed, !more && !failed, store.readCount)
      ensures failed ==> !more
      ensures items == Number(Projected(Src(), windows), old(olderItemSeq))
      ensures olderItemSeq == SatSub(old(olderItemSeq), |items|)
    {
      items, more, failed, cursor, windows := [], true, false, start, [];
      ghost var src, base, hi := Src(), olderItemSeq, Below(store.rows, start);
      while more && |items| < maxItems
        invariant olderItemSeq == SatSub(base, |items|) && !failed && hi == Below(store.rows, cursor)
        invariant items == Number(Projected(src, windows), base)
        invariant more ==> Resumes(all, windows, LoadFrom(src, hi, |items|, maxItems, store.readCount))
        invariant !more ==> all == Load(windows, hi, false, true, store.readCount)
        decreases hi + if more then 1 else 0
      {
        ghost var have, made := |items|, store.readCount;
        var page;
        ghost var w;
        page, w := ReadWindow(cursor, |items|, maxItems);
        if page.None? {
          more, failed := false, true;
          ResumesLast(src, hi, have, maxItems, made, all, windows);
          return;
        }
        var rows := page.value;
        if |rows| == 0 {
          more := false;
          ResumesLast(src, hi, have, maxItems, made, all, windows);
        } else {
          var numbered := NumberEntries(Items(project, rows));
          NumberWindow(src, windows, w, base);
          ResumesNext(src, hi, have, maxItems, made, all, windows, w, store.readCount, |items + numbered|);
          BelowRow(store.rows, w.lo);
          items, windows, cursor, hi := items + numbered, windows + [w], rows[0].num, w.lo;
        }
      }
      assert more ==> windows + [] == windows;
    }
  }

  /** The rest of a call after it consumed `windows`. */
  ghost predicate Resumes(all: Load, windows: seq<Window>, rest: Load) {
    all == rest.(windows := windows + rest.windows)
  }

  /** Where a call stands after one more window. */
  lemma {:induction false} ResumesNext(src: Source, hi: nat, have: nat, budget: nat, made: nat, all: Load,
                                       windows: seq<Window>, w: Window, after: nat, more: nat)
    requires have < budget && Resumes(all, windows, LoadFrom(src, hi, have, budget, made))
    requires Wanted(src, hi, have, budget, made) == (Some(w), after) && w.lo < w.hi && more == have + src.Width(w)
    ensures Resumes(all, windows + [w], LoadFrom(src, w.lo, more, budget, after))
  {
    var rest := LoadFrom(src, w.lo, more, budget, after);
    assert windows + ([w] + rest.windows) == windows + [w] + rest.windows;
  }

  /** A call ends with a failed read or with nothing left to read. */
  lemma {:induction false} ResumesLast(src: Source, hi: nat, have: nat, budget: nat, made: nat, all: Load,
    windows: seq<Window>)
    requires have < budget && Resumes(all, windows, LoadFrom(src, hi, have, budget, made))
    ensures var (window, after) := Wanted(src, hi, have, budget, made);
      && (window.None? ==> all == Load(windows, hi, true, false, after))
      && (window.Some? && window.value.lo == hi ==> all == Load(windows, hi, false, true, after))
  {
    assert windows + [] == windows;
  }

  // --- A failed read ---

  /** Two runs of windows from the same floor share exactly the rows above both their ends. */
  lemma {:induction false} SharedRows(a: seq<Window>, b: seq<Window>, top: nat, mid: nat, bottom: nat, k: nat)
    requires Contiguous(a, top, mid) && Contiguous(b, top, bottom)
    ensures Covers(a, k) && Covers(b, k) <==> Max(mid, bottom) <= k < top
  {
    CoveredOnce(a, top, mid, k);
    CoveredOnce(b, top, bottom, k);
  }

  /** Where the reads for one window end if none of them fails. */
  function ReadsEnd(src: Source, hi: nat, want: nat, limit: nat, made: nat): nat {
    NextWindow(src.(fails := iset{}), hi, want, limit, made).1
  }

  /** The inner loop fails exactly if one of the reads it would make fails. */
  lemma {:induction false} WindowReads(src: Source, hi: nat, want: nat, limit: nat, made: nat)
    ensures ReadsEnd(src, hi, want, limit, made) > made
    ensures NextWindow(src, hi, want, limit, made).0.Some? <==>
      forall r: nat | made <= r < ReadsEnd(src, hi, want, limit, made) :: r !in src.fails
    decreases limit
  {
    var w, calm := Page(hi, limit), src.(fails := iset{});
    assert calm.Width(w) == src.Width(w) && calm.Retry(w, want) == src.Retry(w, want);
    if src.Overruns(w, want, limit) {
      WindowReads(src, hi, want, src.Retry(w, want), made + 1);
      assert ReadsEnd(src, hi, want, limit, made) == ReadsEnd(src, hi, want, src.Retry(w, want), made + 1);
    }
  }

  /** When a failed read makes the next call repeat itself: the failed call leaves the floor, so the
      next error-free call that may read anything covers a row again if and only if there are messages
      below the floor and the reads for the first window do not fail. */
  lemma {:induction false} FailedCallRepeats(src: Source, top: nat, budget: nat, made: nat, nextBudget: nat)
    requires top <= |src.rows| && nextBudget > 0 && LoadFrom(src, top, 0, budget, made).failed
    ensures var first := LoadFrom(src, top, 0, budget, made);
      var second := LoadFrom(src, top, 0, nextBudget, first.made);
      !second.failed ==>
        ((exists k: nat :: Covers(first.windows, k) && Covers(second.windows, k)) <==>
         top > 0 && forall r: nat | made <= r < ReadsEnd(src, top, budget, Min(budget, U32_MAX), made) ::
           r !in src.fails)
  {
    var first := LoadFrom(src, top, 0, budget, made);
    var second := LoadFrom(src, top, 0, nextBudget, first.made);
    LoadContiguous(src, top, 0, budget, made);
    LoadContiguous(src, top, 0, nextBudget, first.made);
    LoadEnds(src, top, 0, nextBudget, first.made);
    WindowReads(src, top, budget, Min(budget, U32_MAX), made);
    assert Wanted(src, top, 0, budget, made) == NextWindow(src, top, budget, Min(budget, U32_MAX), made);
    if !second.failed && first.windows != [] {
      CoveredOnce(first.windows, top, first.bottom, 0);
      CoveredOnce(second.windows, top, second.bottom, 0);
      SharedRows(first.windows, second.windows, top, first.bottom, second.bottom, top - 1);
    }
  }

  /** One item per message. */
  function Bodies(rows: seq<Row>): seq<Entry> {
    seq(|rows|, i requires 0 <= i < |rows| => rows[i].body)
  }

  ghost function OneEach(): Projection {
    imap rows: seq<Row> | true :: Bodies(rows)
  }

  /** Two messages, a budget of three items, and a second read that fails: both messages are returned,
      and the next call returns both again. */
  lemma {:induction false} FailedReadExample()
    ensures var src := Source([Row(0, "a"), Row(1, "b")], OneEach(), iset{1});
      var first := LoadFrom(src, Below(src.rows, 2), 0, 3, 0);
      var second := LoadFrom(src, Below(src.rows, 2), 0, 3, first.made);
      first.failed && !second.failed && first.windows == second.windows == [Window(0, 2)]
  {
    var src := Source([Row(0, "a"), Row(1, "b")], OneEach(), iset{1});
    assert Below(src.rows, 2) == 2 by {
      assert Below(src.rows[1..], 2) == 1 by { assert src.rows[1..][1..] == []; }
    }
    assert src.rows[0..2] == src.rows && src.Width(Window(0, 2)) == 2;
    assert Page(2, 3) == Window(0, 2) && Page(0, 1) == Window(0, 0);
    assert LoadFrom(src, 0, 2, 3, 1) == Load([], 0, true, false, 2);
    assert LoadFrom(src, 0, 2, 3, 3) == Load([], 0, false, true, 4);
  }
}
