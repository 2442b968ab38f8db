/** Replaying a session's history to an ACP client (`replay_history_pages` of
    crates/pacode-acp/src/session.rs) against a daemon that answers anything. */
module HistoryReplay {
  import opened Common

  const PAGE_LIMIT: nat := 200
  const MAX_PAGES: nat := 32
  const MAX_BYTES: nat := 4 * 1024 * 1024

  /** A transcript item: its seq, whether the main agent wrote it, its replay size. */
  datatype Item = Item(num: nat, main: bool, bytes: nat)

  /** What the first pass makes of a reply. */
  datatype Step = Refused | Last | Page(items: seq<Item>, hasMore: bool)

  datatype Reply = History(main: bool, items: seq<Item>, hasMore: bool) | OtherReply | ClientError

  /** A page seen on the first pass. */
  datatype Cursor = Cursor(before: Option<nat>, first: nat, last: nat)

  ghost predicate AllBelow(s: seq<nat>, bound: Option<nat>) {
    bound.Some? ==> forall i | 0 <= i < |s| :: s[i] < bound.value
  }

  /** The seqs that replaying the items sends: items of other agents map to no update. */
  function MainNums(items: seq<Item>): seq<nat> {
    if items == [] then []
    else if items[0].main then [items[0].num] + MainNums(items[1..])
    else MainNums(items[1..])
  }

  ghost predicate Strict(items: seq<Item>) {
    forall i, j | 0 <= i < j < |items| :: items[i].num < items[j].num
  }

  predicate Ascending(items: seq<Item>) {
    forall i, j | 0 <= i < |items| && j == i + 1 < |items| :: items[i].num < items[j].num
  }

  lemma {:induction false} AscendingIsStrict(items: seq<Item>)
    requires Ascending(items)
    ensures Strict(items)
  {
    forall i, j | 0 <= i < j < |items| ensures items[i].num < items[j].num { AscendingGap(items, i, j); }
  }

  lemma {:induction false} AscendingGap(items: seq<Item>, i: nat, j: nat)
    requires Ascending(items) && i < j < |items|
    ensures items[i].num < items[j].num
    decreases j - i
  {
    if i + 1 < j { AscendingGap(items, i + 1, j); }
  }

  /** Each seq sent is that of an item, found in order. */
  lemma {:induction false} MainNumAt(items: seq<Item>, i: nat, k: nat) returns (j: nat, l: nat)
    requires i < k < |MainNums(items)| || i == k < |MainNums(items)|
    ensures j <= l < |items| && items[j].num == MainNums(items)[i] && items[l].num == MainNums(items)[k]
    ensures items[j].main && items[l].main && (i < k ==> j < l)
  {
    if !items[0].main {
      j, l := MainNumAt(items[1..], i, k);
      j, l := j + 1, l + 1;
    } else if k == 0 {
      j, l := 0, 0;
    } else if i == 0 {
      j, l := MainNumAt(items[1..], k - 1, k - 1);
      j, l := 0, l + 1;
    } else {
      j, l := MainNumAt(items[1..], i - 1, k - 1);
      j, l := j + 1, l + 1;
    }
  }

  lemma {:induction false} MainNumsIncreasing(items: seq<Item>)
    requires Strict(items)
    ensures Increasing(MainNums(items))
  {
    forall i, k | 0 <= i < k < |MainNums(items)| ensures MainNums(items)[i] < MainNums(items)[k] {
      var j, l := MainNumAt(items, i, k);
    }
  }

  lemma {:induction false} MainNumsLength(items: seq<Item>)
    ensures |MainNums(items)| <= |items|
  {
    if items != [] { MainNumsLength(items[1..]); }
  }

  /** Walking a list of items walks the list of their seqs. */
  lemma {:induction false} MainNumsStep(items: seq<Item>, all: seq<nat>, i: nat, n: nat)
    requires i < |items| && n <= |all| && all[n..] == MainNums(items[i..])
    ensures items[i].main ==> n < |all| && all[n] == items[i].num && all[n + 1..] == MainNums(items[i + 1..])
    ensures items[i].main ==> all[..n + 1] == all[..n] + [items[i].num]
    ensures !items[i].main ==> all[n..] == MainNums(items[i + 1..])
  {
    assert items[i..][0] == items[i] && items[i..][1..] == items[i + 1..];
    if items[i].main {
      assert all[n..][0] == all[n] && all[n + 1..] == all[n..][1..];
    }
  }

  /** What is sent of the snapshot comes after the pages below it. */
  lemma {:induction false} SnapshotAfter(older: seq<nat>, tail: seq<nat>, nums: seq<nat>)
    requires Increasing(older) && Increasing(nums) && tail <= nums && AllBelow(older, FirstOf(nums))
    ensures Increasing(older + tail)
  {
    var all := older + tail;
    forall i, j | 0 <= i < j < |all| ensures all[i] < all[j] {
      if i < |older| <= j { assert all[j] == nums[j - |older|] >= nums[0]; }
    }
  }

  lemma {:induction false} IncreasingSnoc(all: seq<nat>, n: nat)
    requires n < |all| && Increasing(all[..n]) && (n > 0 ==> all[n - 1] < all[n])
    ensures Increasing(all[..n + 1])
  {
    var longer := all[..n + 1];
    forall i, j | 0 <= i < j < |longer| ensures longer[i] < longer[j] {
      assert longer[i] == all[i] == all[..n][i];
      if j < n { assert all[j] == all[..n][j]; } else if i < n - 1 { assert all[..n][n - 1] == all[n - 1]; }
    }
  }

  /** The daemon and the client as oracles: what the daemon answers to its k-th request, which are the
      sends that fail. A request without an answer is an error. */
  datatype Daemon = Daemon(reply: imap<(nat, Option<nat>), Reply>)
  datatype Client = Client(failing: iset<nat>)

  function Answer(daemon: Daemon, k: nat, before: Option<nat>): Reply {
    if (k, before) in daemon.reply then daemon.reply[(k, before)] else ClientError
  }

  predicate Fails(client: Client, k: nat) {
    k in client.failing
  }

  /** The connection: the daemon's answers and the client's failures are arbitrary.  `sent` lists the
      seqs of the items whose updates were handed to the client. */
  class Connection {
    const daemon: Daemon
    const client: Client
    var requests: seq<Option<nat>>
    var sent: seq<nat>

    constructor (daemon: Daemon, client: Client)
      ensures this.daemon == daemon && this.client == client && requests == [] && sent == []
    {
      this.daemon, this.client, requests, sent := daemon, client, [], [];
    }

    method GetHistory(before: Option<nat>) returns (r: Reply)
      modifies this`requests
      ensures requests == old(requests) + [before] && r == Answer(daemon, |old(requests)|, before)
    {
      r := Answer(daemon, |requests|, before);
      requests := requests + [before];
    }

    /** Sending stops at the first failure, so what was sent of a list is a prefix of it, and only the
        last send can have failed. */
    method SendReplayedItems(items: seq<Item>) returns (ok: bool, ghost added: seq<nat>)
      modifies this`sent
      ensures sent == old(sent) + added && added <= MainNums(items) && (ok ==> added == MainNums(items))
      ensures forall i | |old(sent)| < i < |sent| :: !Fails(client, i)
      ensures added != [] ==> (ok <==> !Fails(client, |sent|))
      ensures added == [] ==> ok
    {
      ghost var all := MainNums(items);
      ghost var n := 0;
      assert items[0..] == items && all[..0] == [];
      for i := 0 to |items|
        invariant n <= |all| && all[n..] == MainNums(items[i..]) && sent == old(sent) + all[..n]
        invariant forall k | |old(sent)| < k <= |sent| :: !Fails(client, k)
      {
        MainNumsStep(items, all, i, n);
        if items[i].main {
          sent := sent + [items[i].num];
          n := n + 1;
          if Fails(client, |sent|) { return false, all[..n]; }
        }
      }
      assert items[|items|..] == [] && all[n..] == [];
      return true, all;
    }
  }

  function PageBytes(items: seq<Item>): nat {
    if items == [] then 0 else items[0].bytes + PageBytes(items[1..])
  }

  /** Both passes accept only pages of the main agent within the limit, strictly ordered, below the
      cursor. */
  predicate ValidPage(items: seq<Item>, main: bool, before: Option<nat>) {
    && main && |items| <= PAGE_LIMIT && items != [] && Ascending(items)
    && (before.Some? ==> items[|items| - 1].num < before.value)
  }

  /** The reply is the page that the first pass saw. */
  predicate Matches(reply: Reply, page: Cursor) {
    && reply.History? && ValidPage(reply.items, reply.main, page.before)
    && reply.items[0].num == page.first && reply.items[|reply.items| - 1].num == page.last
  }

  /** The page ends the walk, or is one that the first pass takes. */
  predicate Acceptable(reply: Reply, before: Option<nat>) {
    && reply.History?
    && if reply.items == [] then reply.main && !reply.hasMore else ValidPage(reply.items, reply.main, before)
  }

  /** The pages that the first pass saw with the requests from `base` on, newest first: each ends below
      its cursor, which is the first seq of the page before. */
  ghost predicate Walk(daemon: Daemon, base: nat, start: Option<nat>, pages: seq<Cursor>) {
    pages == [] ||
    var n := |pages| - 1;
    && Walk(daemon, base, start, pages[..n])
    && pages[n].before == NextBefore(pages[..n], start)
    && Matches(Answer(daemon, base + n, pages[n].before), pages[n])
  }

  /** The bytes of the pages. */
  ghost function BytesSeen(daemon: Daemon, base: nat, pages: seq<Cursor>): nat {
    if pages == [] then 0 else
      var n := |pages| - 1;
      var r := Answer(daemon, base + n, pages[n].before);
      BytesSeen(daemon, base, pages[..n]) + if r.History? then PageBytes(r.items) else 0
  }

  /** The seqs that the second pass sends for the pages, the last of them first; the requests start at
      `from`. */
  ghost function Resent(daemon: Daemon, from: nat, pages: seq<Cursor>): seq<nat> {
    if pages == [] then [] else
      var r := Answer(daemon, from + |pages| - 1, pages[0].before);
      if r.History? then Resent(daemon, from, pages[1..]) + MainNums(r.items) else Resent(daemon, from, pages[1..])
  }

  lemma {:induction false} ResentStep(daemon: Daemon, from: nat, pages: seq<Cursor>, k: nat, at: nat)
    requires k < |pages| && at == from + |pages| - 1 - k
    ensures var r := Answer(daemon, at, pages[k].before);
      && (r.History? ==> Resent(daemon, from, pages[k..]) == Resent(daemon, from, pages[k + 1..]) + MainNums(r.items))
      && (!Matches(r, pages[k]) ==> Changed(daemon, from, pages))
  {
    assert pages[k..][0] == pages[k] && pages[k..][1..] == pages[k + 1..];
  }

  lemma {:induction false} WalkPrefix(daemon: Daemon, base: nat, start: Option<nat>, pages: seq<Cursor>, k: nat)
    requires Walk(daemon, base, start, pages) && k <= |pages|
    ensures Walk(daemon, base, start, pages[..k])
    decreases |pages|
  {
    if k == |pages| {
      assert pages[..k] == pages;
    } else {
      WalkPrefix(daemon, base, start, pages[..|pages| - 1], k);
      assert pages[..|pages| - 1][..k] == pages[..k];
    }
  }

  lemma {:induction false} WalkAt(daemon: Daemon, base: nat, start: Option<nat>, pages: seq<Cursor>, k: nat)
    requires Walk(daemon, base, start, pages) && k < |pages|
    ensures pages[k].before == NextBefore(pages[..k], start)
      && Matches(Answer(daemon, base + k, pages[k].before), pages[k])
    ensures pages[k].first <= pages[k].last && (pages[k].before.Some? ==> pages[k].last < pages[k].before.value)
    ensures k > 0 ==> pages[k].before == Some(pages[k - 1].first)
  {
    WalkPrefix(daemon, base, start, pages, k + 1);
    var upTo := pages[..k + 1];
    assert upTo[k] == pages[k] && upTo[..k] == pages[..k];
    PageNums(Answer(daemon, base + k, pages[k].before).items, pages[k].before);
  }

  /** Why the first pass stops: the daemon has no more, or the page or byte bound is reached. */
  ghost predicate Exhausted(daemon: Daemon, base: nat, pages: seq<Cursor>, hasMore: bool) {
    if pages == [] then !hasMore else
      var r := Answer(daemon, base + |pages| - 1, pages[|pages| - 1].before);
      r.History? && !r.hasMore
  }

  ghost predicate Bounded(daemon: Daemon, base: nat, pages: seq<Cursor>) {
    |pages| == MAX_PAGES || BytesSeen(daemon, base, pages) >= MAX_BYTES
  }

  /** The cursor for the request after these pages. */
  function NextBefore(pages: seq<Cursor>, start: Option<nat>): Option<nat> {
    if pages == [] then start else Some(pages[|pages| - 1].first)
  }

  function FirstOf(nums: seq<nat>): Option<nat> {
    if nums == [] then None else Some(nums[0])
  }

  /** What a successful walk sends: a single page as first read, several as read again. */
  ghost function Walked(daemon: Daemon, base: nat, from: nat, pages: seq<Cursor>): seq<nat> {
    if |pages| == 1 then Resent(daemon, base, pages) else Resent(daemon, from, pages)
  }

  /** The daemon reported the end, sent an empty last page, or a bound was reached. */
  ghost predicate WalkEnds(daemon: Daemon, base: nat, pages: seq<Cursor>, start: Option<nat>, hasMore: bool) {
    || Exhausted(daemon, base, pages, hasMore)
    || Bounded(daemon, base, pages)
    || (var before := NextBefore(pages, start);
        var r := Answer(daemon, base + |pages|, before);
        Acceptable(r, before) && r.items == [])
  }

  /** The items kept from the first page read. */
  ghost predicate FirstRead(daemon: Daemon, base: nat, start: Option<nat>, pages: seq<Cursor>, firstItems: seq<Item>) {
    pages != [] ==> var r := Answer(daemon, base, start); r.History? && firstItems == r.items
  }

  lemma {:induction false} WalkStep(daemon: Daemon, base: nat, start: Option<nat>, hasMore: bool, pages: seq<Cursor>,
    page: Cursor, firstItems: seq<Item>)
    requires Walk(daemon, base, start, pages) && page.before == NextBefore(pages, start)
    requires FirstRead(daemon, base, start, pages, firstItems)
    requires Matches(Answer(daemon, base + |pages|, page.before), page)
    ensures var r := Answer(daemon, base + |pages|, page.before);
      && Walk(daemon, base, start, pages + [page])
      && BytesSeen(daemon, base, pages + [page]) == BytesSeen(daemon, base, pages) + PageBytes(r.items)
      && (!r.hasMore ==> Exhausted(daemon, base, pages + [page], hasMore))
      && NextBefore(pages + [page], start) == Some(page.first)
      && FirstRead(daemon, base, start, pages + [page], if pages == [] then r.items else firstItems)
  {
    assert (pages + [page])[..|pages|] == pages;
  }

  /** Some page is no longer what the first pass saw. */
  ghost predicate Changed(daemon: Daemon, from: nat, pages: seq<Cursor>) {
    exists i | 0 <= i < |pages| :: !Matches(Answer(daemon, from + |pages| - 1 - i, pages[i].before), pages[i])
  }

  /** The causes of a failed replay that made `sends` sends. */
  ghost predicate Blamed(daemon: Daemon, client: Client, base: nat, from: nat,
    pages: seq<Cursor>, transcript: seq<Item>, sends: nat)
  {
    var before := NextBefore(pages, FirstOf(MainNums(transcript)));
    || !Increasing(MainNums(transcript))
    || !Acceptable(Answer(daemon, base + |pages|, before), before)
    || Fails(client, sends)
    || Changed(daemon, from, pages)
  }

  lemma {:induction false} PageNums(items: seq<Item>, before: Option<nat>)
    requires ValidPage(items, true, before)
    ensures Increasing(MainNums(items)) && AllBelow(MainNums(items), before)
    ensures forall i | 0 <= i < |MainNums(items)| :: MainNums(items)[i] >= items[0].num
    ensures |MainNums(items)| <= PAGE_LIMIT && items[0].num <= items[|items| - 1].num
  {
    AscendingIsStrict(items);
    MainNumsIncreasing(items);
    MainNumsLength(items);
    forall i | 0 <= i < |MainNums(items)|
      ensures items[0].num <= MainNums(items)[i] <= items[|items| - 1].num
    {
      var j, _ := MainNumAt(items, i, i);
    }
  }

  class Replayer {
    const connection: Connection

    constructor (connection: Connection)
      ensures this.connection == connection
    {
      this.connection := connection;
    }

    /** Reads one page of the first pass. */
    method ReadPage(before: Option<nat>) returns (step: Step)
      modifies connection`requests
      ensures connection.requests == old(connection.requests) + [before]
      ensures var r := Answer(connection.daemon, |old(connection.requests)|, before);
        && (step.Refused? <==> !Acceptable(r, before))
        && (step.Last? ==> r.items == [])
        && (step.Page? ==> ValidPage(r.items, r.main, before) && step == Page(r.items, r.hasMore))
    {
      var reply := connection.GetHistory(before);
      if !reply.History? { return Refused; }
      var History(main, items, next) := reply;
      if !main || |items| > PAGE_LIMIT { return Refused; }
      if items == [] {
        return if next then Refused else Last;
      }
      var first, last := items[0].num, items[|items| - 1].num;
      if !Ascending(items) || (before.Some? && (first >= before.value || last >= before.value)) {
        if Ascending(items) { AscendingIsStrict(items); }
        return Refused;
      }
      return Page(items, next);
    }

    /** First pass: walks back through the pages without sending anything.  It fails only on a reply
        that no pass accepts, and otherwise stops on the daemon's word or at a bound. */
    method CollectPages(start: Option<nat>, hasMore: bool)
      returns (ok: bool, pages: seq<Cursor>, firstItems: seq<Item>)
      modifies connection`requests
      ensures var base := |old(connection.requests)|;
        && |pages| <= MAX_PAGES && Walk(connection.daemon, base, start, pages)
        && FirstRead(connection.daemon, base, start, pages, firstItems)
        && base + |pages| <= |connection.requests| <= base + |pages| + 1
        && (!ok ==>
          !Acceptable(Answer(connection.daemon, base + |pages|, NextBefore(pages, start)), NextBefore(pages, start)))
        && (ok ==> WalkEnds(connection.daemon, base, pages, start, hasMore))
    {
      var before, more, bytes := start, hasMore, 0;
      ghost var base := |connection.requests|;
      ok, pages, firstItems := true, [], [];
      while more
        invariant |pages| <= MAX_PAGES && |connection.requests| == base + |pages|
        invariant FirstRead(connection.daemon, base, start, pages, firstItems)
        invariant Walk(connection.daemon, base, start, pages) && before == NextBefore(pages, start)
        invariant bytes == BytesSeen(connection.daemon, base, pages)
        invariant !more ==> Exhausted(connection.daemon, base, pages, hasMore)
        decreases more, MAX_PAGES - |pages|
      {
        if |pages| >= MAX_PAGES || bytes >= MAX_BYTES { break; }
        var step := ReadPage(before);
        if step.Refused? { return false, pages, firstItems; }
        if step.Last? { break; }
        var first, last := step.items[0].num, step.items[|step.items| - 1].num;
        bytes := bytes + PageBytes(step.items);
        WalkStep(connection.daemon, base, start, hasMore, pages, Cursor(before, first, last), firstItems);
        if pages == [] { firstItems := step.items; }
        pages := pages + [Cursor(before, first, last)];
        before, more := Some(first), step.hasMore;
      }
    }

    /** Fetches a page again and sends it if it is still the page the first pass saw. */
    method ResendPage(page: Cursor) returns (ok: bool, ghost added: seq<nat>)
      modifies connection
      ensures connection.requests == old(connection.requests) + [page.before]
      ensures connection.sent == old(connection.sent) + added && InPage(added, page)
      ensures var r := Answer(connection.daemon, |old(connection.requests)|, page.before);
        && (ok ==> r.History? && added == MainNums(r.items))
        && (!ok ==> !Matches(r, page) || Fails(connection.client, |connection.sent|))
    {
      var reply := connection.GetHistory(page.before);
      if !Matches(reply, page) { return false, []; }
      PageNums(reply.items, page.before);
      ok, added := connection.SendReplayedItems(reply.items);
    }

    /** Sends page `k` behind the older ones. */
    method ResendNext(pages: seq<Cursor>, k: nat, ghost start: Option<nat>, ghost base: nat, ghost from: nat,
      ghost sofar: seq<nat>)
      returns (ok: bool, ghost nums: seq<nat>)
      requires k < |pages| && Walk(connection.daemon, base, start, pages)
      requires |connection.requests| == from + |pages| - 1 - k
      requires SentFrom(pages, start, k + 1, sofar) && sofar == Resent(connection.daemon, from, pages[k + 1..])
      modifies connection
      ensures |connection.requests| == from + |pages| - k && connection.sent == old(connection.sent) + nums
      ensures SentFrom(pages, start, k, sofar + nums)
      ensures ok ==> sofar + nums == Resent(connection.daemon, from, pages[k..])
      ensures !ok ==> Fails(connection.client, |connection.sent|) || Changed(connection.daemon, from, pages)
    {
      ghost var at := |connection.requests|;
      ok, nums := ResendPage(pages[k]);
      PageAfter(connection.daemon, base, start, pages, k, sofar, nums);
      ResentStep(connection.daemon, from, pages, k, at);
    }

    /** Second pass: sends the pages oldest first. */
    method ResendPages(pages: seq<Cursor>, ghost start: Option<nat>, ghost base: nat)
      returns (ok: bool, ghost added: seq<nat>)
      requires Walk(connection.daemon, base, start, pages)
      modifies connection
      ensures |connection.requests| <= |old(connection.requests)| + |pages|
      ensures connection.sent == old(connection.sent) + added && Increasing(added) && AllBelow(added, start)
      ensures ok ==> added == Resent(connection.daemon, |old(connection.requests)|, pages)
      ensures !ok ==>
        Fails(connection.client, |connection.sent|) || Changed(connection.daemon, |old(connection.requests)|, pages)
    {
      var k := |pages|;
      ghost var from := |connection.requests|;
      ok, added := true, [];
      while k > 0
        invariant 0 <= k <= |pages| && |connection.requests| == from + |pages| - k
        invariant connection.sent == old(connection.sent) + added
        invariant SentFrom(pages, start, k, added)
        invariant ok && added == Resent(connection.daemon, from, pages[k..])
        decreases k
      {
        k := k - 1;
        ghost var nums;
        ok, nums := ResendNext(pages, k, start, base, from, added);
        Regroup(old(connection.sent), added, nums);
        added := added + nums;
        if !ok { return; }
      }
      assert pages[0..] == pages;
    }

    /** The snapshot's main items must be ordered; returns the first of their seqs. */
    method CheckSnapshot(transcript: seq<Item>) returns (ok: bool, start: Option<nat>)
      ensures ok <==> Increasing(MainNums(transcript))
      ensures ok ==> start == FirstOf(MainNums(transcript))
    {
      var previous: Option<nat> := None;
      ok, start := true, None;
      ghost var all, n := MainNums(transcript), 0;
      assert transcript[0..] == transcript;
      for i := 0 to |transcript|
        invariant n <= |all| && all[n..] == MainNums(transcript[i..])
        invariant Increasing(all[..n])
        invariant previous == if n == 0 then None else Some(all[n - 1])
        invariant start == if n == 0 then None else Some(all[0])
      {
        var item := transcript[i];
        MainNumsStep(transcript, all, i, n);
        if item.main {
          if previous.Some? && previous.value >= item.num { return false, start; }
          if start.None? { start := Some(item.num); }
          previous := Some(item.num);
          IncreasingSnoc(all, n);
          n := n + 1;
        }
      }
      assert transcript[|transcript|..] == [] && all[n..] == [] && all[..n] == all;
    }

    /** A single page is sent as it was read; more than one are fetched again. */
    method SendOlder(pages: seq<Cursor>, firstItems: seq<Item>, ghost start: Option<nat>, ghost base: nat)
      returns (ok: bool, ghost older: seq<nat>)
      requires Walk(connection.daemon, base, start, pages)
        && FirstRead(connection.daemon, base, start, pages, firstItems)
      modifies connection
      ensures connection.sent == old(connection.sent) + older
      ensures Increasing(older) && AllBelow(older, start)
      ensures |connection.requests| <= |old(connection.requests)| + |pages|
      ensures ok ==> older == Walked(connection.daemon, base, |old(connection.requests)|, pages)
      ensures !ok ==>
        Fails(connection.client, |connection.sent|) || Changed(connection.daemon, |old(connection.requests)|, pages)
    {
      if |pages| == 1 {
        WalkAt(connection.daemon, base, start, pages, 0);
        PageNums(firstItems, start);
        ok, older := connection.SendReplayedItems(firstItems);
        assert Resent(connection.daemon, base, pages[1..]) == [];
      } else {
        ok, older := ResendPages(pages, start, base);
      }
    }

    /** Sends the older pages and then the snapshot. */
    method SendAll(transcript: seq<Item>, pages: seq<Cursor>, firstItems: seq<Item>, ghost base: nat)
      returns (ok: bool, ghost added: seq<nat>)
      requires Increasing(MainNums(transcript)) && Walk(connection.daemon, base, FirstOf(MainNums(transcript)), pages)
      requires FirstRead(connection.daemon, base, FirstOf(MainNums(transcript)), pages, firstItems)
      modifies connection
      ensures connection.sent == old(connection.sent) + added && Increasing(added)
      ensures |connection.requests| <= |old(connection.requests)| + |pages|
      ensures ok ==> added == Walked(connection.daemon, base, |old(connection.requests)|, pages) + MainNums(transcript)
      ensures !ok ==>
        Fails(connection.client, |connection.sent|) || Changed(connection.daemon, |old(connection.requests)|, pages)
    {
      ok, added := SendOlder(pages, firstItems, FirstOf(MainNums(transcript)), base);
      if !ok { return; }
      ghost var tail;
      ok, tail := connection.SendReplayedItems(transcript);
      SnapshotAfter(added, tail, MainNums(transcript));
      added := added + tail;
    }

    /** Whatever the daemon answers, the seqs sent are strictly increasing across all pages and the
        snapshot, also when the replay stops with an error, and the walk ends after at most two
        passes over 32 pages of 200 items.  A replay that succeeds sent the pages it walked and then
        the whole snapshot; one that fails has one of the listed causes. */
    method ReplayHistoryPages(transcript: seq<Item>, hasMore: bool)
      returns (ok: bool, ghost from: nat, ghost pages: seq<Cursor>)
      modifies connection
      ensures old(connection.sent) <= connection.sent
      ensures Increasing(connection.sent[|old(connection.sent)|..])
      ensures |connection.requests| <= |old(connection.requests)| + 2 * MAX_PAGES + 1
      ensures var base := |old(connection.requests)|;
        var start := FirstOf(MainNums(transcript));
        && |pages| <= MAX_PAGES && Walk(connection.daemon, base, start, pages)
        && (ok ==>
              connection.sent[|old(connection.sent)|..]
              == Walked(connection.daemon, base, from, pages) + MainNums(transcript))
        && (ok ==> WalkEnds(connection.daemon, base, pages, start, hasMore))
        && (!ok ==> Blamed(connection.daemon, connection.client, base, from, pages, transcript, |connection.sent|))
    {
      var start;
      ok, start := CheckSnapshot(transcript);
      from, pages := |connection.requests|, [];
      if !ok { return; }
      var seen, firstItems;
      ok, seen, firstItems := CollectPages(start, hasMore);
      from, pages := |connection.requests|, seen;
      if !ok { return; }
      ghost var added;
      ok, added := SendAll(transcript, seen, firstItems, |old(connection.requests)|);
      assert connection.sent[|old(connection.sent)|..] == added;
    }
  }

  /** Everything sent from page `k` on lies below the snapshot. */
  lemma {:induction false} BelowStart(daemon: Daemon, base: nat, start: Option<nat>, pages: seq<Cursor>,
    k: nat, nums: seq<nat>)
    requires Walk(daemon, base, start, pages) && k <= |pages|
    requires AllBelow(nums, if k < |pages| then pages[k].before else None) && (k == |pages| ==> nums == [])
    ensures AllBelow(nums, start)
    decreases k
  {
    if k < |pages| {
      WalkAt(daemon, base, start, pages, k);
      if k > 0 {
        WalkAt(daemon, base, start, pages, k - 1);
        BelowStart(daemon, base, start, pages, k - 1, nums);
      }
    }
  }

  /** A page's seqs come after everything sent from older pages and before the next newer one. */
  lemma {:induction false} PageAfter(daemon: Daemon, base: nat, start: Option<nat>, pages: seq<Cursor>,
    k: nat, sofar: seq<nat>, nums: seq<nat>)
    requires Walk(daemon, base, start, pages) && k < |pages|
    requires SentFrom(pages, start, k + 1, sofar) && InPage(nums, pages[k])
    ensures SentFrom(pages, start, k, sofar + nums)
  {
    WalkAt(daemon, base, start, pages, k);
    if k + 1 < |pages| { WalkAt(daemon, base, start, pages, k + 1); }
    BelowStart(daemon, base, start, pages, k, sofar + nums);
  }

  /** Seqs of one page. */
  ghost predicate InPage(nums: seq<nat>, page: Cursor) {
    Increasing(nums) && AllBelow(nums, page.before) && forall i | 0 <= i < |nums| :: nums[i] >= page.first
  }

  /** What was sent of the pages from `k` on. */
  ghost predicate SentFrom(pages: seq<Cursor>, start: Option<nat>, k: nat, nums: seq<nat>) {
    && Increasing(nums) && AllBelow(nums, start)
    && if k < |pages| then AllBelow(nums, pages[k].before) else nums == []
  }

  // ---- A daemon that serves one transcript ----

  /** How many of the stored items lie below the cursor. */
  function CountBelow(stored: seq<Item>, before: Option<nat>): (c: nat)
    ensures c <= |stored|
  {
    if before.None? || stored == [] || stored[|stored| - 1].num < before.value then |stored|
    else CountBelow(stored[..|stored| - 1], before)
  }

  /** Where the daemon starts the page that ends at a place. */
  datatype Cuts = Cuts(at: imap<nat, nat>)

  function Cut(cuts: Cuts, c: nat): nat {
    if c in cuts.at then cuts.at[c] else c
  }

  /** The daemon answers each cursor with stored items right below it, cut where it likes, and tells
      truthfully whether older ones remain. */
  ghost predicate Faithful(daemon: Daemon, stored: seq<Item>, cuts: Cuts) {
    && Strict(stored)
    && (forall c: nat :: Cut(cuts, c) <= c && (c > 0 ==> Cut(cuts, c) < c <= Cut(cuts, c) + PAGE_LIMIT))
    && (forall k: nat, before :: Answer(daemon, k, before) == PageBelow(stored, cuts, CountBelow(stored, before)))
  }

  ghost function PageBelow(stored: seq<Item>, cuts: Cuts, c: nat): Reply
    requires c <= |stored|
  {
    if Cut(cuts, c) <= c then History(true, stored[Cut(cuts, c)..c], Cut(cuts, c) > 0) else ClientError
  }

  /** Where the walk stands after `n` pages. */
  ghost function Reach(cuts: Cuts, top: nat, n: nat): nat {
    if n == 0 then top else Cut(cuts, Reach(cuts, top, n - 1))
  }

  lemma {:induction false} CountBelowAt(stored: seq<Item>, j: nat)
    requires Strict(stored) && j < |stored|
    ensures CountBelow(stored, Some(stored[j].num)) == j
    decreases |stored|
  {
    var shorter := stored[..|stored| - 1];
    if j < |stored| - 1 {
      CountBelowAt(shorter, j);
    } else if shorter != [] {
      assert shorter[|shorter| - 1].num < stored[j].num;
    }
  }

  lemma {:induction false} CountBelowBounds(stored: seq<Item>, before: Option<nat>)
    requires before.Some? && Strict(stored) && CountBelow(stored, before) > 0
    ensures stored[CountBelow(stored, before) - 1].num < before.value
    decreases |stored|
  {
    if stored != [] && stored[|stored| - 1].num >= before.value {
      CountBelowBounds(stored[..|stored| - 1], before);
    }
  }

  lemma {:induction false} MainNumsConcat(a: seq<Item>, b: seq<Item>)
    ensures MainNums(a + b) == MainNums(a) + MainNums(b)
  {
    if a == [] {
      assert a + b == b;
    } else {
      MainNumsConcat(a[1..], b);
      assert (a + b)[1..] == a[1..] + b && (a + b)[0] == a[0];
      Regroup([a[0].num], MainNums(a[1..]), MainNums(b));
    }
  }

  lemma {:induction false} Regroup(a: seq<nat>, b: seq<nat>, c: seq<nat>)
    ensures a + (b + c) == (a + b) + c
  {
  }

  /** The cursor after the pages points where they reach. */
  lemma {:induction false} CursorReaches(daemon: Daemon, stored: seq<Item>, cuts: Cuts,
    base: nat, start: Option<nat>, pages: seq<Cursor>)
    requires Faithful(daemon, stored, cuts) && Walk(daemon, base, start, pages)
    ensures CountBelow(stored, NextBefore(pages, start)) == Reach(cuts, CountBelow(stored, start), |pages|)
  {
    if pages != [] {
      var n := |pages| - 1;
      CursorReaches(daemon, stored, cuts, base, start, pages[..n]);
      var page, c := pages[n], CountBelow(stored, pages[n].before);
      assert Answer(daemon, base + n, page.before) == PageBelow(stored, cuts, c);
      assert page.first == stored[Cut(cuts, c)..c][0].num == stored[Cut(cuts, c)].num;
      CountBelowAt(stored, Cut(cuts, c));
    }
  }

  /** What the daemon answers for the cursor of page `k`, whenever it is asked. */
  lemma {:induction false} PageReaches(daemon: Daemon, stored: seq<Item>, cuts: Cuts,
    base: nat, start: Option<nat>, pages: seq<Cursor>, k: nat, at: nat)
    requires Faithful(daemon, stored, cuts) && Walk(daemon, base, start, pages) && k < |pages|
    ensures var top := CountBelow(stored, start);
      && Reach(cuts, top, k + 1) <= Reach(cuts, top, k) <= |stored|
      && Answer(daemon, at, pages[k].before)
         == History(true, stored[Reach(cuts, top, k + 1)..Reach(cuts, top, k)], Reach(cuts, top, k + 1) > 0)
    ensures Matches(Answer(daemon, at, pages[k].before), pages[k])
  {
    WalkPrefix(daemon, base, start, pages, k);
    WalkAt(daemon, base, start, pages, k);
    CursorReaches(daemon, stored, cuts, base, start, pages[..k]);
    var c := CountBelow(stored, pages[k].before);
    assert Answer(daemon, at, pages[k].before) == PageBelow(stored, cuts, c) ==
      Answer(daemon, base + k, pages[k].before);
  }

  /** The daemon's answer for a place in the transcript is acceptable there. */
  lemma {:induction false} FaithfulAcceptable(daemon: Daemon, stored: seq<Item>, cuts: Cuts, k: nat,
    before: Option<nat>)
    requires Faithful(daemon, stored, cuts)
    ensures Acceptable(Answer(daemon, k, before), before)
    ensures Answer(daemon, k, before).items == [] <==> CountBelow(stored, before) == 0
  {
    var c := CountBelow(stored, before);
    var items := stored[Cut(cuts, c)..c];
    assert Answer(daemon, k, before) == PageBelow(stored, cuts, c);
    if c > 0 {
      assert items[|items| - 1] == stored[c - 1];
      if before.Some? { CountBelowBounds(stored, before); }
    }
  }

  lemma {:induction false} ResentSlice(daemon: Daemon, from: nat, pages: seq<Cursor>, k: nat, at: nat, a: seq<Item>,
    b: seq<Item>)
    requires k < |pages| && at == from + |pages| - 1 - k
    requires var r := Answer(daemon, at, pages[k].before); r.History? && r.items == b
    requires Resent(daemon, from, pages[k + 1..]) == MainNums(a)
    ensures Resent(daemon, from, pages[k..]) == MainNums(a + b)
  {
    ResentStep(daemon, from, pages, k, at);
    MainNumsConcat(a, b);
  }

  lemma {:induction false} SliceJoin(stored: seq<Item>, low: nat, mid: nat, high: nat)
    requires low <= mid <= high <= |stored|
    ensures stored[low..mid] + stored[mid..high] == stored[low..high]
  {
  }

  /** Sending one page more extends the slice by that page. */
  lemma {:induction false} ResentPage(daemon: Daemon, stored: seq<Item>, cuts: Cuts,
    base: nat, from: nat, start: Option<nat>, pages: seq<Cursor>, k: nat, top: nat, low: nat)
    requires Faithful(daemon, stored, cuts) && Walk(daemon, base, start, pages) && k < |pages|
    requires top == CountBelow(stored, start) && low <= Reach(cuts, top, k + 1) <= |stored|
    requires Resent(daemon, from, pages[k + 1..]) == MainNums(stored[low..Reach(cuts, top, k + 1)])
    ensures low <= Reach(cuts, top, k) <= |stored|
    ensures Resent(daemon, from, pages[k..]) == MainNums(stored[low..Reach(cuts, top, k)])
  {
    var at := from + |pages| - 1 - k;
    PageReaches(daemon, stored, cuts, base, start, pages, k, at);
    var mid, high := Reach(cuts, top, k + 1), Reach(cuts, top, k);
    ResentSlice(daemon, from, pages, k, at, stored[low..mid], stored[mid..high]);
    SliceJoin(stored, low, mid, high);
  }

  lemma {:induction false} ResentReaches(daemon: Daemon, stored: seq<Item>, cuts: Cuts,
    base: nat, from: nat, start: Option<nat>, pages: seq<Cursor>, k: nat, top: nat, low: nat)
    requires Faithful(daemon, stored, cuts) && Walk(daemon, base, start, pages) && k <= |pages|
    requires top == CountBelow(stored, start) && low == Reach(cuts, top, |pages|)
    ensures low <= Reach(cuts, top, k) <= |stored|
    ensures Resent(daemon, from, pages[k..]) == MainNums(stored[low..Reach(cuts, top, k)])
    decreases |pages| - k
  {
    if k < |pages| {
      ResentReaches(daemon, stored, cuts, base, from, start, pages, k + 1, top, low);
      ResentPage(daemon, stored, cuts, base, from, start, pages, k, top, low);
    } else {
      CursorReaches(daemon, stored, cuts, base, start, pages);
      assert pages[k..] == [] && stored[low..low] == [];
    }
  }

  /** Against a daemon that serves one stored transcript truthfully, a replay that succeeds sends the
      stored items below the snapshot, each once and without a gap, down to the point the walk
      reached; that point is the beginning unless a bound stopped the walk. */
  lemma {:induction false} FaithfulReplay(daemon: Daemon, stored: seq<Item>, cuts: Cuts,
    base: nat, from: nat, start: Option<nat>, pages: seq<Cursor>, hasMore: bool)
    requires Faithful(daemon, stored, cuts) && Walk(daemon, base, start, pages)
    ensures var top := CountBelow(stored, start);
      var low := Reach(cuts, top, |pages|);
      && low <= top
      && Walked(daemon, base, from, pages) == MainNums(stored[low..top])
      && (WalkEnds(daemon, base, pages, start, hasMore) && (hasMore || top == 0) ==>
        low == 0 || Bounded(daemon, base, pages))
  {
    ResentReaches(daemon, stored, cuts, base, if |pages| == 1 then base else from, start, pages, 0,
                  CountBelow(stored, start), Reach(cuts, CountBelow(stored, start), |pages|));
    assert pages[0..] == pages;
    CursorReaches(daemon, stored, cuts, base, start, pages);
    FaithfulAcceptable(daemon, stored, cuts, base + |pages|, NextBefore(pages, start));
    if pages != [] {
      PageReaches(daemon, stored, cuts, base, start, pages, |pages| - 1, base + |pages| - 1);
    }
  }

  /** Against such a daemon the replay fails only on an unordered snapshot or a failed send. */
  lemma {:induction false} FaithfulBlame(daemon: Daemon, client: Client, stored: seq<Item>, cuts: Cuts,
    base: nat, from: nat, pages: seq<Cursor>, transcript: seq<Item>, sends: nat)
    requires Faithful(daemon, stored, cuts) && Walk(daemon, base, FirstOf(MainNums(transcript)), pages)
    requires Blamed(daemon, client, base, from, pages, transcript, sends)
    ensures !Increasing(MainNums(transcript)) || Fails(client, sends)
  {
    var start := FirstOf(MainNums(transcript));
    FaithfulAcceptable(daemon, stored, cuts, base + |pages|, NextBefore(pages, start));
    forall i | 0 <= i < |pages| ensures Matches(Answer(daemon, from + |pages| - 1 - i, pages[i].before), pages[i]) {
      PageReaches(daemon, stored, cuts, base, start, pages, i, from + |pages| - 1 - i);
    }
  }
}
