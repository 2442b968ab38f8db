/** What paging older history delivers: full windows where they fit, the whole budget, and in the end
    every message (crates/pacode-core/src/agent.rs). */
module PagingAnswers {
  import opened Common
  import opened Paging

  /** Numbering changes no entry and loses none, and while the counter does not saturate the numbers count
      down from it without a gap. */
  lemma {:induction false} NumberedInOrder(entries: seq<Entry>, base: nat)
    ensures var items := Number(entries, base);
      && |items| == |entries|
      && (forall i | 0 <= i < |items| :: items[i].entry == entries[i])
      && (forall i | 0 <= i < |items| :: if i < base then items[i].num + i + 1 == base else items[i].num == 0)
  {
  }

  /** A page below position `hi` holds as many rows as were asked for, 200 if none were, or all there are. */
  lemma {:induction false} PageIsFull(hi: nat, limit: nat)
    ensures var w := Page(hi, limit);
      && w.lo <= w.hi == hi
      && w.hi - w.lo == if hi <= (if limit == 0 then 200 else limit) then hi else if limit == 0 then 200 else limit
  {
  }

  /** The re-read asks for the largest number of messages that fits at the rate the window revealed, or for
      one if not even one fits or the number exceeds 32 bits. */
  lemma {:induction false} ShrunkIsLargest(count: nat, want: nat, projected: nat)
    requires projected > 0
    ensures var n := Shrunk(count, want, projected);
      && n >= 1 && (n > 1 ==> n * projected <= count * want)
      && (count * want < (n + 1) * projected || (n == 1 && count * want >= U32_MAX * projected))
  {
    var total := count * want;
    var ratio := total / projected;
    assert ratio * projected <= total < (ratio + 1) * projected;
    if ratio > U32_MAX { Scaled(U32_MAX, ratio, projected); }
    if ratio == 0 { assert total < 2 * projected; }
  }

  lemma {:induction false} Scaled(a: nat, b: nat, c: nat)
    requires a <= b
    ensures a * c <= b * c
  {
  }

  /** Messages are read as optimistically as possible: a page that fits, or that one re-read cannot make
      smaller, is taken as it is; a wider one is read again with the smaller number. */
  lemma {:induction false} WindowTaken(src: Source, hi: nat, want: nat, limit: nat, made: nat)
    requires made !in src.fails
    ensures var w := Page(hi, limit);
      if src.Width(w) <= want then NextWindow(src, hi, want, limit, made) == (Some(w), made + 1)
      else if hi > 0 && Shrunk(w.hi - w.lo, want, src.Width(w)) < limit
      then
        NextWindow(src, hi, want, limit, made)
          == NextWindow(src, hi, want, Shrunk(w.hi - w.lo, want, src.Width(w)), made + 1)
      else NextWindow(src, hi, want, limit, made) == (Some(w), made + 1)
  {
  }

  /** The items the windows project to. */
  function Total(src: Source, ws: seq<Window>): nat {
    if ws == [] then 0 else src.Width(ws[0]) + Total(src, ws[1..])
  }

  lemma {:induction false} TotalIsProjected(src: Source, ws: seq<Window>)
    ensures Total(src, ws) == |Projected(src, ws)|
  {
    if ws != [] { TotalIsProjected(src, ws[1..]); }
  }

  /** A call goes on until it has its items, has met the end, or a read fails; it has met the end exactly
      if it did not fail and has read everything with items still to come. */
  lemma {:induction false} LoadDelivers(src: Source, hi: nat, have: nat, budget: nat, made: nat)
    ensures var l := LoadFrom(src, hi, have, budget, made);
      && (!l.failed && !l.ended ==> have + Total(src, l.windows) >= budget)
      && (l.ended <==> !l.failed && l.bottom == 0 && have + Total(src, l.windows) < budget)
    decreases hi
  {
    if have < budget {
      var (window, after) := Wanted(src, hi, have, budget, made);
      if window.Some? && window.value.lo < hi {
        var more := have + src.Width(window.value);
        LoadDelivers(src, window.value.lo, more, budget, after);
        var l, rest := LoadFrom(src, hi, have, budget, made), LoadFrom(src, window.value.lo, more, budget, after);
        assert l.windows[0] == window.value && l.windows[1..] == rest.windows;
      }
    }
  }

  ghost predicate NoneFails(src: Source, from: nat, to: nat) {
    forall r: nat | from <= r < to :: r !in src.fails
  }

  lemma {:induction false} WindowFailsLast(src: Source, hi: nat, want: nat, limit: nat, made: nat)
    ensures var (w, after) := NextWindow(src, hi, want, limit, made);
      && after > made && (w.None? <==> after - 1 in src.fails) && NoneFails(src, made, after - 1)
    decreases limit
  {
    var w := Page(hi, limit);
    if src.Overruns(w, want, limit) { WindowFailsLast(src, hi, want, src.Retry(w, want), made + 1); }
  }

  /** Of the reads `from` to `to` one fails, the last, or none. */
  ghost predicate FailsLast(src: Source, from: nat, to: nat, failed: bool) {
    && from <= to && (failed <==> !NoneFails(src, from, to))
    && (failed ==> from < to && to - 1 in src.fails && NoneFails(src, from, to - 1))
  }

  lemma {:induction false} FailsLater(src: Source, from: nat, mid: nat, to: nat, failed: bool)
    requires from <= mid && NoneFails(src, from, mid) && FailsLast(src, mid, to, failed)
    ensures FailsLast(src, from, to, failed)
  {
    assert NoneFails(src, from, to) <==> NoneFails(src, mid, to);
  }

  /** A call fails exactly if one of the reads it makes fails, and stops there. */
  lemma {:induction false} LoadFailsIff(src: Source, hi: nat, have: nat, budget: nat, made: nat)
    ensures var l := LoadFrom(src, hi, have, budget, made); FailsLast(src, made, l.made, l.failed)
    decreases hi
  {
    if have < budget {
      WindowFailsLast(src, hi, budget - have, Min(budget - have, U32_MAX), made);
      var (window, after) := Wanted(src, hi, have, budget, made);
      if window.Some? && window.value.lo < hi {
        LoadFailsNext(src, hi, have, budget, made, window.value, after);
      }
    }
  }

  lemma {:induction false} LoadFailsNext(src: Source, hi: nat, have: nat, budget: nat, made: nat, w: Window, after: nat)
    requires have < budget && Wanted(src, hi, have, budget, made) == (Some(w), after) && w.lo < hi
    requires made <= after && NoneFails(src, made, after)
    ensures var l := LoadFrom(src, hi, have, budget, made); FailsLast(src, made, l.made, l.failed)
    decreases hi, 0
  {
    var rest := LoadFrom(src, w.lo, have + src.Width(w), budget, after);
    LoadFailsIff(src, w.lo, have + src.Width(w), budget, after);
    FailsLater(src, made, after, rest.made, rest.failed);
  }

  // --- Paging to the end ---

  /** The windows of successive calls, each from where the previous one stopped. */
  ghost function Pages(src: Source, hi: nat, budgets: seq<nat>, made: nat): seq<(seq<Window>, nat)>
    decreases |budgets|
  {
    if budgets == [] then []
    else
      var l := LoadFrom(src, hi, 0, budgets[0], made);
      [(l.windows, l.bottom)] + Pages(src, l.bottom, budgets[1..], l.made)
  }

  /** If no read fails, as many calls as there are messages, each asking for at least one item, read every
      message, in windows that run contiguously down to the first. */
  lemma {:induction false} PagesReachTheStart(src: Source, hi: nat, budgets: seq<nat>, made: nat)
    requires src.fails == iset{} && |budgets| >= hi && forall i | 0 <= i < |budgets| :: budgets[i] > 0
    ensures var calls := Pages(src, hi, budgets, made);
      Chained(calls, hi) && Bottom(calls, hi) == 0 && Contiguous(AllWindows(calls), hi, 0)
    decreases |budgets|
  {
    var calls := Pages(src, hi, budgets, made);
    if budgets != [] {
      var l := LoadFrom(src, hi, 0, budgets[0], made);
      LoadContiguous(src, hi, 0, budgets[0], made);
      LoadEnds(src, hi, 0, budgets[0], made);
      LoadFailsIff(src, hi, 0, budgets[0], made);
      CoveredOnce(l.windows, hi, l.bottom, 0);
      PagesReachTheStart(src, l.bottom, budgets[1..], l.made);
      var rest := Pages(src, l.bottom, budgets[1..], l.made);
      assert calls[0] == (l.windows, l.bottom) && calls[1..] == rest;
      assert Bottom(calls, hi) == Bottom(rest, l.bottom);
    }
    CallsContiguous(calls, hi);
  }

  /** So every stored message is in exactly one of the windows. */
  lemma {:induction false} EveryMessagePaged(src: Source, budgets: seq<nat>, k: nat)
    requires src.fails == iset{} && |budgets| >= |src.rows| && forall i | 0 <= i < |budgets| :: budgets[i] > 0
    requires k < |src.rows|
    ensures var ws := AllWindows(Pages(src, |src.rows|, budgets, 0));
      Covers(ws, k) && forall i, j | 0 <= i < j < |ws| :: ws[j].hi <= ws[i].lo
  {
    PagesReachTheStart(src, |src.rows|, budgets, 0);
    CoveredOnce(AllWindows(Pages(src, |src.rows|, budgets, 0)), |src.rows|, 0, k);
  }
}
