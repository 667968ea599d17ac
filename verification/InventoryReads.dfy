/** Polling for events and paging through stock, across a run. */
module InventoryReads {
  import opened Results
  import opened Text
  import opened InventoryModel
  import opened InventoryInvariant
  import opened InventoryRuns

  // ----- One poll --------------------------------------------------------------------

  /** The events of a log after number `from` up to number `to`, with their numbers. */
  ghost function Numbered(log: seq<Event>, from: nat, to: nat): (s: seq<Delivered>)
    requires from <= to <= |log|
    ensures |s| == to - from
  {
    seq(to - from, i requires 0 <= i < to - from => Delivered(from + 1 + i, log[from + i]))
  }

  ghost function Least2(a: int, b: int): int { if a < b then a else b }

  lemma {:induction false} EventsFromWindow(row: Row, events: map<nat, Event>, log: seq<Event>, from: nat, limit: nat)
    requires WindowOk(row, events, log)
    requires 1 <= from <= row.sequence + 1 && from > row.sequence - EVENT_WINDOW
    ensures EventsFrom(events, from, row.sequence, limit) ==
        Numbered(log, from - 1, Least2(from - 1 + limit, row.sequence))
    decreases row.sequence + 1 - from
  {
    if from <= row.sequence && limit > 0 {
      EventsFromWindow(row, events, log, from + 1, limit - 1);
      assert from in events;
    }
  }

  ghost predicate MayPoll(w: World, id: string, cursor: EventCursor, limit: nat) {
    Access(w, id, true).Ok? && cursor.resource == id && InRange(cursor.sequence) && 1 <= limit <= 256
  }

  /** What a poll with a cursor delivers: a resynchronization demand exactly when the cursor is
      of another incarnation, ahead of the log, or behind the window; otherwise the recorded
      events right after the cursor, none left out, up to the limit. */
  lemma PollIsContiguous(w: World, id: string, cursor: EventCursor, limit: nat)
    requires Inv(w) && MayPoll(w, id, cursor, limit)
    ensures Events(w, id, Some(cursor), limit, false).Ok?
    ensures var (poll, row, log) :=
        (Events(w, id, Some(cursor), limit, false).value, w.ledgers[id].row, w.stories[id].log);
            && (poll.resync <==> cursor.generation != row.incarnation
                                 || cursor.sequence > |log| || cursor.sequence < |log| - EVENT_WINDOW)
            && (poll.resync ==> poll.events == [] && poll.next == EventCursor(id, row.incarnation, |log|))
            && (!poll.resync ==>
                  && 0 <= cursor.sequence <= |log|
                  && poll.next == EventCursor(id, row.incarnation, Least2(cursor.sequence + limit, |log|))
                  && poll.events == Numbered(log, cursor.sequence, poll.next.sequence))
  {
    assert LedgerSound(w, id);
    var ledger, log, after := w.ledgers[id], w.stories[id].log, cursor.sequence;
    if after <= |log| && after >= |log| - EVENT_WINDOW {
      EventsFromWindow(ledger.row, ledger.events, log, after + 1, limit);
    }
  }

  /** Rows that left the window are not there to be selected. */
  lemma {:induction false} EventsFromHorizon(row: Row, events: map<nat, Event>, log: seq<Event>, from: nat, limit: nat)
    requires WindowOk(row, events, log) && from <= Horizon(row.sequence) + 1
    ensures EventsFrom(events, from, row.sequence, limit) ==
              EventsFrom(events, Horizon(row.sequence) + 1, row.sequence, limit)
    decreases Horizon(row.sequence) + 1 - from
  {
    if from <= Horizon(row.sequence) {
      assert from !in events;
      EventsFromHorizon(row, events, log, from + 1, limit);
    }
  }

  /** What a poll without a cursor delivers: the oldest events that are still stored, with no
      word on those that are not. It starts with the first event ever recorded exactly if no
      more were recorded than the window holds. */
  lemma FirstPollIsTheWindow(w: World, id: string, limit: nat)
    requires Inv(w) && Access(w, id, true).Ok? && 1 <= limit <= 256
    ensures Events(w, id, None, limit, false).Ok?
    ensures var (poll, row, log) := (Events(w, id, None, limit, false).value, w.ledgers[id].row, w.stories[id].log);
            var from := Horizon(|log|);
            && !poll.resync
            && poll.next == EventCursor(id, row.incarnation, Least2(from + limit, |log|))
            && poll.events == Numbered(log, from, poll.next.sequence)
            && (poll.events == Numbered(log, 0, Least2(limit, |log|)) <==> |log| <= EVENT_WINDOW)
  {
    assert LedgerSound(w, id);
    FirstEvents(w.ledgers[id], w.stories[id].log, limit);
    WindowStartsFirst(w.stories[id].log, limit);
  }

  lemma FirstEvents(ledger: Ledger, log: seq<Event>, limit: nat)
    requires WindowOk(ledger.row, ledger.events, log) && limit > 0
    ensures var (from, events) := (Horizon(|log|), EventsFrom(ledger.events, 1, ledger.row.sequence, limit));
            var to := Least2(from + limit, |log|);
            && ledger.row.sequence == |log| && from <= to
            && events == Numbered(log, from, to)
            && (events != [] ==> events[|events| - 1].sequence == to) && (events == [] ==> |log| == 0)
  {
    EventsFromHorizon(ledger.row, ledger.events, log, 1, limit);
    EventsFromWindow(ledger.row, ledger.events, log, Horizon(|log|) + 1, limit);
  }

  lemma WindowStartsFirst(log: seq<Event>, limit: nat)
    requires limit > 0
    ensures var from := Horizon(|log|);
            Numbered(log, from, Least2(from + limit, |log|)) == Numbered(log, 0, Least2(limit, |log|)) <==>
              |log| <= EVENT_WINDOW
  {
    if |log| > EVENT_WINDOW {
      assert Numbered(log, Horizon(|log|), Least2(Horizon(|log|) + limit, |log|))[0].sequence == Horizon(|log|) + 1;
      assert Numbered(log, 0, Least2(limit, |log|))[0].sequence == 1;
    }
  }

  // ----- A polling session -----------------------------------------------------------

  /** Poll `k` of a session is made in state `times[k]` of the run with cursor `cursors[k]`,
      demands no resynchronization, and hands out the next cursor. */
  ghost predicate PollAt(ws: seq<World>, id: string, times: seq<nat>, cursors: seq<EventCursor>, limits: seq<nat>,
                         polls: seq<Poll>, k: nat)
  {
    && k < |polls| && k < |times| && k < |limits| && k + 1 < |cursors| && times[k] < |ws|
    && MayPoll(ws[times[k]], id, cursors[k], limits[k])
    && Events(ws[times[k]], id, Some(cursors[k]), limits[k], false) == Ok(polls[k])
    && !polls[k].resync && cursors[k + 1] == polls[k].next
  }

  ghost predicate IsSession(ws: seq<World>, id: string, times: seq<nat>, cursors: seq<EventCursor>, limits: seq<nat>,
                            polls: seq<Poll>)
  {
    && |times| == |polls| == |limits| && |cursors| == |polls| + 1
    && (forall a, b :: 0 <= a < b < |times| ==> times[a] <= times[b])
    && (forall k: nat {:trigger PollAt(ws, id, times, cursors, limits, polls, k)} ::
          k < |polls| ==> PollAt(ws, id, times, cursors, limits, polls, k))
  }

  /** All events the first `n` polls delivered. */
  ghost function AllDelivered(polls: seq<Poll>, n: nat): seq<Delivered>
    requires n <= |polls|
  {
    if n == 0 then [] else AllDelivered(polls, n - 1) + polls[n - 1].events
  }

  lemma NumberedJoin(log: seq<Event>, log': seq<Event>, a: nat, b: nat, c: nat)
    requires log <= log' && a <= b <= |log| && b <= c <= |log'|
    ensures Numbered(log, a, b) + Numbered(log', b, c) == Numbered(log', a, c)
  {}

  /** Gap-free polling. However calls and polls interleave and whatever the limits, the events
      delivered by a client that follows `next_cursor` without being told to resynchronize
      are all events of the resource from its first cursor to its last, in order, each once. */
  lemma {:induction false} PollingIsGapFree(ws: seq<World>, ops: seq<Op>, id: string, times: seq<nat>,
                                            cursors: seq<EventCursor>, limits: seq<nat>, polls: seq<Poll>,
                                            n: nat, t: nat)
    requires IsRun(ws, ops) && IsSession(ws, id, times, cursors, limits, polls)
    requires 1 <= n <= |polls| && times[n - 1] <= t < |ws|
    ensures id in ws[t].stories
    ensures var log := ws[t].stories[id].log;
            && 0 <= cursors[0].sequence <= cursors[n].sequence <= |log|
            && AllDelivered(polls, n) == Numbered(log, cursors[0].sequence, cursors[n].sequence)
  {
    var m := times[n - 1];
    assert PollAt(ws, id, times, cursors, limits, polls, n - 1);
    RunIsSound(ws, ops, m);
    PollIsContiguous(ws[m], id, cursors[n - 1], limits[n - 1]);
    RunGrows(ws, ops, m, t);
    assert StoryGrows(ws[m].stories[id], ws[t].stories[id]);
    var log, log' := ws[m].stories[id].log, ws[t].stories[id].log;
    NumberedJoin(log, log', cursors[n - 1].sequence, cursors[n].sequence, cursors[n].sequence);
    if n > 1 {
      PollingIsGapFree(ws, ops, id, times, cursors, limits, polls, n - 1, m);
      NumberedJoin(log, log', cursors[0].sequence, cursors[n - 1].sequence, cursors[n].sequence);
    }
  }

  /** A client that starts without a cursor, in state `start` of a run, and follows the cursor it
      is given, without being told to resynchronize: it has received all events from the
      oldest that was stored at its start, and so all that were ever recorded exactly if no
      more had been recorded by then than the window holds. */
  lemma PollingFromScratch(ws: seq<World>, ops: seq<Op>, id: string, start: nat, limit: nat, times: seq<nat>,
                           cursors: seq<EventCursor>, limits: seq<nat>, polls: seq<Poll>, n: nat)
    requires IsRun(ws, ops) && IsSession(ws, id, times, cursors, limits, polls) && 1 <= n <= |polls|
    requires start <= times[0] && times[n - 1] < |ws| && Access(ws[start], id, true).Ok? && 1 <= limit <= 256
    requires Events(ws[start], id, None, limit, false).Ok?
    requires cursors[0] == Events(ws[start], id, None, limit, false).value.next
    ensures id in ws[start].stories && id in ws[times[n - 1]].stories
    ensures var (was, log) := (ws[start].stories[id].log, ws[times[n - 1]].stories[id].log);
            var received := Events(ws[start], id, None, limit, false).value.events + AllDelivered(polls, n);
            && Horizon(|was|) <= cursors[n].sequence <= |log|
            && received == Numbered(log, Horizon(|was|), cursors[n].sequence)
            && (received == Numbered(log, 0, cursors[n].sequence) <==> |was| <= EVENT_WINDOW)
  {
    var end := times[n - 1];
    assert times[0] <= end;
    RunIsSound(ws, ops, start);
    FirstPollIsTheWindow(ws[start], id, limit);
    RunGrows(ws, ops, start, end);
    assert LedgerSound(ws[start], id);
    assert StoryGrows(ws[start].stories[id], ws[end].stories[id]);
    var was, log := ws[start].stories[id].log, ws[end].stories[id].log;
    PollingIsGapFree(ws, ops, id, times, cursors, limits, polls, n, end);
    NumberedJoin(was, log, Horizon(|was|), cursors[0].sequence, cursors[n].sequence);
    assert |Numbered(log, Horizon(|was|), cursors[n].sequence)| == cursors[n].sequence - Horizon(|was|);
  }

  // ----- One page --------------------------------------------------------------------

  ghost predicate InOrder(items: seq<Item>) {
    forall i, j :: 0 <= i < j < |items| ==> Below(items[i].sku, items[j].sku)
  }

  lemma {:induction false} AllAfter(items: seq<Item>, sku: string)
    requires forall i :: 0 <= i < |items| ==> Below(sku, items[i].sku)
    ensures After(items, sku) == items
  {
    if items != [] { AllAfter(items[1..], sku); }
  }

  /** What comes after the n-th item of an ordered list. */
  lemma {:induction false} AfterItem(items: seq<Item>, n: nat)
    requires InOrder(items) && n < |items|
    ensures After(items, items[n].sku) == items[n + 1..]
  {
    var sku := items[n].sku;
    BelowIsStrict(items[0].sku, sku);
    BelowIsStrict(sku, sku);
    if n == 0 {
      AllAfter(items[1..], sku);
    } else {
      assert items[1..][n - 1] == items[n];
      AfterItem(items[1..], n - 1);
      assert items[1..][n..] == items[n + 1..];
    }
  }

  ghost function ItemsIn(rows: seq<PageRow>): seq<Item> {
    seq(|rows|, i requires 0 <= i < |rows| => rows[i].item)
  }

  /** How many items a cursor has behind it: all up to the one it names. */
  ghost predicate StandsAt(items: seq<Item>, cursor: Option<Cursor>, m: nat) {
    m <= |items| && if cursor.None? then m == 0 else m > 0 && cursor.value.token == items[m - 1].sku
  }

  lemma StockIsInOrder(w: World, id: string)
    requires Inv(w) && id in w.ledgers
    ensures var items := ItemsOf(w.ledgers[id].stock);
            InOrder(items) && forall i :: 0 <= i < |items| ==> items[i].sku != ""
  {
    assert LedgerSound(w, id);
    var stock := w.ledgers[id].stock;
    ItemsOfHolds(stock);
    forall i | 0 <= i < |ItemsOf(stock)| ensures ItemsOf(stock)[i].sku != "" {
      assert SkuOk(ItemsOf(stock)[i].sku, stock[ItemsOf(stock)[i].sku]);
    }
  }

  lemma AfterCursor(items: seq<Item>, cursor: Option<Cursor>, m: nat)
    requires InOrder(items) && (forall i :: 0 <= i < |items| ==> items[i].sku != "")
    requires StandsAt(items, cursor, m)
    ensures After(items, Token(cursor)) == items[m..]
  {
    if cursor.Some? { AfterItem(items, m - 1); } else { AllAfter(items, ""); }
  }

  /** What a successful observation shows, apart from the checks it passed. */
  ghost predicate Observed(w: World, q: Query, page: Page) {
    && q.resource in w.ledgers && w.ledgers[q.resource].row.enabled && 1 <= q.limit
    && (q.cursor.Some? ==> q.cursor.value.version == VersionOf(q.resource, w.ledgers[q.resource].row))
    && var ledger := w.ledgers[q.resource];
       var rest := After(ItemsOf(ledger.stock), Token(q.cursor));
       page == PageOf(VersionOf(q.resource, ledger.row), ledger.row, rest, q.limit)
  }

  lemma ObserveShows(w: World, q: Query)
    requires Observe(w, q, false).Ok?
    ensures Observed(w, q, Observe(w, q, false).value)
  {}

  /** What a page is, field by field: one row for each listed item, all with the epoch and the
      floor of the resource; no more than asked for, and a cursor to the last item, for this
      version, exactly if there is more. */
  lemma PageShows(w: World, q: Query, page: Page)
    requires Observed(w, q, page)
    ensures var row := w.ledgers[q.resource].row;
            var rest := After(ItemsOf(w.ledgers[q.resource].stock), Token(q.cursor));
            && page.version == Version(q.resource, row.incarnation, row.revision)
            && |page.items| == (if |rest| < q.limit then |rest| else q.limit)
            && (forall i :: 0 <= i < |page.items| ==>
                  page.items[i].item == rest[i] && page.items[i].epoch == row.epoch && page.items[i].floor == row.floor)
            && (page.Complete() <==> |rest| <= q.limit)
            && (!page.Complete() ==>
                  page.next == Some(Cursor(page.version, "stock", page.items[q.limit - 1].item.sku)))
  {
  }

  /** A page stops where its own cursor stands. */
  lemma PageStops(version: Version, row: Row, items: seq<Item>, m: nat, limit: nat) returns (n: nat)
    requires limit > 0 && m <= |items|
    ensures var page := PageOf(version, row, items[m..], limit);
            && m <= n <= |items| && ItemsIn(page.items) == items[m..n]
            && (if page.next.None? then n == |items| else n == m + limit && StandsAt(items, page.next, n))
  {
    n := if |items| - m > limit then m + limit else |items|;
    assert ItemsIn(PageOf(version, row, items[m..], limit).items) == Take(items[m..], limit);
    assert items[m..n] == Take(items[m..], limit);
  }

  /** A page continues where its cursor stands. */
  lemma PageContinues(w: World, q: Query, page: Page, m: nat) returns (n: nat)
    requires Inv(w) && Observed(w, q, page)
    requires StandsAt(ItemsOf(w.ledgers[q.resource].stock), q.cursor, m)
    ensures var items := ItemsOf(w.ledgers[q.resource].stock);
            && m <= n <= |items| && ItemsIn(page.items) == items[m..n]
            && (if page.next.None? then n == |items| else n == m + q.limit && StandsAt(items, page.next, n))
  {
    var ledger, items := w.ledgers[q.resource], ItemsOf(w.ledgers[q.resource].stock);
    StockIsInOrder(w, q.resource);
    AfterCursor(items, q.cursor, m);
    n := PageStops(VersionOf(q.resource, ledger.row), ledger.row, items, m, q.limit);
  }

  // ----- Paging through a stock ------------------------------------------------------

  /** Page `k` is read in state `times[k]`; every query but the first carries the cursor of the
      page before. Limits are free. */
  ghost predicate PageAt(ws: seq<World>, id: string, times: seq<nat>, queries: seq<Query>, pages: seq<Page>, k: nat) {
    && k < |pages| && k < |times| && k < |queries| && times[k] < |ws|
    && queries[k].resource == id
    && queries[k].cursor == (if k == 0 then None else pages[k - 1].next)
    && (k > 0 ==> pages[k - 1].next.Some? && times[k - 1] <= times[k])
    && Observe(ws[times[k]], queries[k], false) == Ok(pages[k])
  }

  ghost predicate IsWalk(ws: seq<World>, id: string, times: seq<nat>, queries: seq<Query>, pages: seq<Page>) {
    && |times| == |queries| == |pages|
    && (forall k: nat {:trigger PageAt(ws, id, times, queries, pages, k)} ::
          k < |pages| ==> PageAt(ws, id, times, queries, pages, k))
  }

  ghost function AllListed(pages: seq<Page>, n: nat): seq<Item>
    requires n <= |pages|
  {
    if n == 0 then [] else AllListed(pages, n - 1) + ItemsIn(pages[n - 1].items)
  }

  lemma WalkAt(ws: seq<World>, id: string, times: seq<nat>, queries: seq<Query>, pages: seq<Page>, k: nat)
    requires IsWalk(ws, id, times, queries, pages) && k < |pages|
    ensures times[k] < |ws| && queries[k].resource == id && Observed(ws[times[k]], queries[k], pages[k])
    ensures queries[k].cursor == if k == 0 then None else pages[k - 1].next
    ensures k > 0 ==> pages[k - 1].next.Some? && times[k - 1] <= times[k]
  {
    assert PageAt(ws, id, times, queries, pages, k);
    ObserveShows(ws[times[k]], queries[k]);
  }

  lemma WalkVersion(ws: seq<World>, id: string, times: seq<nat>, queries: seq<Query>, pages: seq<Page>, k: nat)
    requires IsWalk(ws, id, times, queries, pages) && k < |pages|
    ensures times[k] < |ws| && id in ws[times[k]].ledgers
    ensures pages[k].version == VersionOf(id, ws[times[k]].ledgers[id].row)
    ensures pages[k].next.Some? ==> pages[k].next.value.version == pages[k].version
    ensures k > 0 ==>
              times[k - 1] <= times[k] && pages[k - 1].next.Some? && pages[k - 1].next.value.version == pages[k].version
  {
    WalkAt(ws, id, times, queries, pages, k);
  }

  /** All pages of a walk show one version, and so one stock. */
  lemma {:induction false} WalkShowsOneStock(ws: seq<World>, ops: seq<Op>, id: string, times: seq<nat>,
                                             queries: seq<Query>, pages: seq<Page>, n: nat)
    requires IsRun(ws, ops) && IsWalk(ws, id, times, queries, pages) && 1 <= n <= |pages|
    ensures times[0] <= times[n - 1] < |ws| && (n > 1 ==> pages[n - 2].next.Some?)
    ensures id in ws[times[0]].ledgers && id in ws[times[n - 1]].ledgers
    ensures ws[times[n - 1]].ledgers[id] == ws[times[0]].ledgers[id]
    ensures pages[n - 1].version == VersionOf(id, ws[times[0]].ledgers[id].row)
    ensures pages[n - 1].next.Some? ==> pages[n - 1].next.value.version == pages[n - 1].version
  {
    WalkVersion(ws, id, times, queries, pages, n - 1);
    if n > 1 {
      WalkShowsOneStock(ws, ops, id, times, queries, pages, n - 1);
      VersionDeterminesContents(ws, ops, times[0], times[n - 1], times[n - 1], id);
    }
  }

  /** Paging loses nothing and repeats nothing. Whatever else happens to the database between
      the pages, and whatever the limits, a walk that reaches a complete page has listed
      exactly the stock of the resource at the walk's version, in order of SKU; one that has
      not is a prefix of it, at least one item longer with every page. */
  lemma {:induction false} PagingIsExact(ws: seq<World>, ops: seq<Op>, id: string, times: seq<nat>,
                                         queries: seq<Query>, pages: seq<Page>, n: nat)
    returns (m: nat)
    requires IsRun(ws, ops) && IsWalk(ws, id, times, queries, pages) && 1 <= n <= |pages|
    ensures times[0] < |ws| && id in ws[times[0]].ledgers
    ensures var items := ItemsOf(ws[times[0]].ledgers[id].stock);
            && m <= |items| && AllListed(pages, n) == items[..m]
            && (pages[n - 1].Complete() ==> AllListed(pages, n) == items)
            && (!pages[n - 1].Complete() ==> m >= n && StandsAt(items, pages[n - 1].next, m))
  {
    WalkShowsOneStock(ws, ops, id, times, queries, pages, n);
    var items, from := ItemsOf(ws[times[0]].ledgers[id].stock), 0;
    if n > 1 {
      from := PagingIsExact(ws, ops, id, times, queries, pages, n - 1);
    }
    m := WalkContinues(ws, ops, id, times, queries, pages, n - 1, items, from);
    JoinSlices(items, from, m);
  }

  lemma WalkContinues(ws: seq<World>, ops: seq<Op>, id: string, times: seq<nat>, queries: seq<Query>, pages: seq<Page>,
                      k: nat, items: seq<Item>, from: nat)
    returns (m: nat)
    requires IsRun(ws, ops) && IsWalk(ws, id, times, queries, pages) && k < |pages|
    requires times[k] < |ws| && id in ws[times[k]].ledgers && items == ItemsOf(ws[times[k]].ledgers[id].stock)
    requires StandsAt(items, if k == 0 then None else pages[k - 1].next, from)
    ensures from <= m <= |items| && ItemsIn(pages[k].items) == items[from..m]
    ensures if pages[k].next.None? then m == |items| else m > from && StandsAt(items, pages[k].next, m)
  {
    WalkAt(ws, id, times, queries, pages, k);
    RunIsSound(ws, ops, times[k]);
    m := PageContinues(ws[times[k]], queries[k], pages[k], from);
  }

  lemma JoinSlices(items: seq<Item>, a: nat, b: nat)
    requires a <= b <= |items|
    ensures items[..a] + items[a..b] == items[..b] && items[..|items|] == items
  {}

  /** If anything of the resource changed after a page was read, its continuation fails. */
  lemma ChangedStockStopsTheWalk(ws: seq<World>, ops: seq<Op>, i: nat, j: nat, q: Query, q': Query)
    requires IsRun(ws, ops) && i <= j < |ws|
    requires Observe(ws[i], q, false).Ok? && Observe(ws[i], q, false).value.next.Some?
    requires q'.resource == q.resource && q'.cursor == Observe(ws[i], q, false).value.next
    requires q.resource in ws[j].ledgers ==> ws[j].ledgers[q.resource] != ws[i].ledgers[q.resource]
    ensures Observe(ws[j], q', false).Err?
  {
    var id := q.resource;
    if id in ws[j].ledgers && VersionOf(id, ws[j].ledgers[id].row) == VersionOf(id, ws[i].ledgers[id].row) {
      VersionDeterminesContents(ws, ops, i, i, j, q.resource);
    }
  }
}
