/** What every transaction of the inventory keeps. */
module InventoryInvariant {
  import opened Results
  import opened Text
  import opened InventoryModel

  // ----- The invariant ---------------------------------------------------------------

  ghost predicate SkuOk(sku: string, level: Level) { IsSku(sku) && IsLevel(level) }

  ghost predicate StockOk(stock: map<string, Level>) {
    |stock| <= MAX_ITEMS && forall sku {:trigger SkuOk(sku, stock[sku])} :: sku in stock ==> SkuOk(sku, stock[sku])
  }

  /** The stored events are the last 128 of all recorded, under their own numbers. */
  ghost predicate WindowOk(row: Row, events: map<nat, Event>, log: seq<Event>) {
    && |log| == row.sequence <= MAX_SAFE
    && (forall n :: n in events <==> 1 <= n <= row.sequence && n > row.sequence - EVENT_WINDOW)
    && (forall n :: n in events ==> events[n] == log[n - 1])
  }

  /** All committed requests by key. */
  ghost function Committed(commits: seq<Commit>): map<Key, Stored> {
    if commits == [] then map[] else
      var last := commits[|commits| - 1];
      Committed(commits[..|commits| - 1])[last.key := last.stored]
  }

  ghost predicate OnceEach(commits: seq<Commit>) {
    forall i, j :: 0 <= i < j < |commits| ==> commits[i].key != commits[j].key
  }

  /** The committed requests whose epoch is at least the floor. */
  ghost function Retained(commits: seq<Commit>, floor: nat): map<Key, Stored> {
    map k | k in Committed(commits) && k.epoch >= floor :: Committed(commits)[k]
  }

  ghost function InEpoch(receipts: map<Key, Stored>, epoch: int): set<Key> {
    set k | k in receipts && k.epoch == epoch
  }

  /** The stored receipts are the retained part of all commits: the current epoch, as full as
      `used` says, and the one before it, full. */
  ghost predicate ReceiptsOk(row: Row, receipts: map<Key, Stored>, commits: seq<Commit>) {
    && OnceEach(commits)
    && row.epoch <= MAX_SAFE
    && row.floor == (if row.epoch == 0 then 0 else row.epoch - 1)
    && row.used < RECEIPTS_PER_EPOCH
    && (forall i :: 0 <= i < |commits| ==> 0 <= commits[i].key.epoch <= row.epoch)
    && receipts == Retained(commits, row.floor)
    && |InEpoch(receipts, row.epoch)| == row.used
    && (row.epoch > 0 ==> |InEpoch(receipts, row.epoch - 1)| == RECEIPTS_PER_EPOCH)
  }

  ghost predicate LedgerOk(ledger: Ledger, story: Story) {
    && StockOk(ledger.stock)
    && WindowOk(ledger.row, ledger.events, story.log)
    && ReceiptsOk(ledger.row, ledger.receipts, story.commits)
  }

  ghost predicate ItemsOk(items: seq<Item>) {
    && |items| <= MAX_ITEMS
    && (forall i {:trigger SkuOk(items[i].sku, items[i].level)} ::
          0 <= i < |items| ==> SkuOk(items[i].sku, items[i].level))
    && Distinct(items)
  }

  ghost predicate Distinct(items: seq<Item>) {
    forall i, j :: 0 <= i < j < |items| ==> items[i].sku != items[j].sku
  }

  /** A stored snapshot is filed under its digest, and was numbered when it was taken. */
  ghost predicate SnapshotOk(id: Digest, s: SnapshotRow, stories: map<string, Story>, slack: Option<string>) {
    && OfSnapshot(s.data) == id
    && ItemsOk(s.data.items)
    && s.resource == s.data.source.resource
    && s.resource in stories
    && 1 <= s.serial <= |stories[s.resource].log| + if slack == Some(s.resource) then 1 else 0
  }

  ghost predicate SerialsApart(a: SnapshotRow, b: SnapshotRow) {
    a.resource == b.resource ==> a.serial != b.serial
  }

  ghost predicate SerialsDiffer(snapshots: map<Digest, SnapshotRow>) {
    forall a, b {:trigger SerialsApart(snapshots[a], snapshots[b])} ::
      a in snapshots && b in snapshots && a != b ==> SerialsApart(snapshots[a], snapshots[b])
  }

  ghost predicate IsId(id: string, minted: set<string>) {
    id == "inventory" || id == "spare" || exists u :: u in minted && id == Workspace(u)
  }

  ghost predicate LedgerSound(w: World, id: string) {
    && id in w.ledgers && id in w.stories
    && LedgerOk(w.ledgers[id], w.stories[id])
    && w.ledgers[id].row.incarnation in w.minted
  }

  ghost predicate DerivationOk(w: World, child: string) {
    child in w.ledgers && child in w.derivations && w.derivations[child].snapshot in w.snapshots
  }

  /** A snapshot shows a revision its resource has left behind. */
  ghost predicate TakenBefore(w: World, s: SnapshotRow, slack: Option<string>) {
    s.resource in w.ledgers ==>
      s.data.source.revision < w.ledgers[s.resource].row.revision + if slack == Some(s.resource) then 1 else 0
  }

  /** The invariant. While a request on a resource is under way (`slack`), that resource may
      have one snapshot whose event is not recorded yet. */
  ghost predicate Sound(w: World, slack: Option<string>) {
    && w.ledgers.Keys <= w.stories.Keys
    && (forall id {:trigger LedgerSound(w, id)} :: id in w.ledgers ==> LedgerSound(w, id))
    && (forall id {:trigger IsId(id, w.minted)} :: id in w.stories ==> IsId(id, w.minted))
    && (forall id {:trigger SnapshotOk(id, w.snapshots[id], w.stories, slack)} ::
          id in w.snapshots ==> SnapshotOk(id, w.snapshots[id], w.stories, slack))
    && (forall id {:trigger TakenBefore(w, w.snapshots[id], slack)} ::
          id in w.snapshots ==> TakenBefore(w, w.snapshots[id], slack))
    && SerialsDiffer(w.snapshots)
    && (forall child {:trigger DerivationOk(w, child)} :: child in w.derivations ==> DerivationOk(w, child))
  }

  ghost predicate Inv(w: World) { Sound(w, None) }

  // ----- Stock and snapshots ---------------------------------------------------------

  /** `stock` holds exactly the levels of the items, under their SKUs. */
  ghost predicate Holds(stock: map<string, Level>, items: seq<Item>) {
    && |stock| == |items|
    && (forall i :: 0 <= i < |items| ==> items[i].sku in stock && stock[items[i].sku] == items[i].level)
    && (forall sku :: sku in stock ==> Item(sku, stock[sku]) in items)
  }

  lemma HoldsOneMore(stock: map<string, Level>, items: seq<Item>, last: Item)
    requires Holds(stock, items) && forall i :: 0 <= i < |items| ==> items[i].sku != last.sku
    ensures last.sku !in stock
    ensures Holds(stock[last.sku := last.level], items + [last])
  {
    assert forall sku :: sku in stock ==> Item(sku, stock[sku]) in items;
    assert (stock[last.sku := last.level]).Keys == stock.Keys + {last.sku};
  }

  lemma {:induction false} InsertedItems(items: seq<Item>)
    requires forall i :: 0 <= i < |items| ==> IsItem(items[i])
    requires Distinct(items)
    ensures Inserted(items).Ok? && Holds(Inserted(items).value, items)
  {
    if items != [] {
      var front, last := items[..|items| - 1], items[|items| - 1];
      InsertedItems(front);
      HoldsOneMore(Inserted(front).value, front, last);
      assert front + [last] == items;
      InsertedOneMore(front, last);
    }
  }

  lemma InsertedOneMore(front: seq<Item>, last: Item)
    requires Inserted(front).Ok? && last.sku !in Inserted(front).value && IsItem(last)
    ensures Inserted(front + [last]) == Ok(Inserted(front).value[last.sku := last.level])
  {
    assert (front + [last])[..|front|] == front;
  }

  lemma SkusAreText(items: seq<Item>)
    requires ItemsOk(items)
    ensures forall i :: 0 <= i < |items| ==> IsItem(items[i])
  {
    forall i | 0 <= i < |items| ensures IsItem(items[i]) {
      assert SkuOk(items[i].sku, items[i].level);
    }
  }

  /** The stock left by replacing it with a stored snapshot's items. */
  lemma ReplacedStockIsOk(items: seq<Item>)
    requires ItemsOk(items)
    ensures ReplacedStock(items).Ok? && StockOk(ReplacedStock(items).value)
    ensures Holds(ReplacedStock(items).value, items)
  {
    SkusAreText(items);
    InsertedItems(items);
    var stock := ReplacedStock(items).value;
    forall sku | sku in stock ensures SkuOk(sku, stock[sku]) {
      var i :| 0 <= i < |items| && items[i] == Item(sku, stock[sku]);
      assert SkuOk(items[i].sku, items[i].level);
    }
  }

  lemma ItemsOfHolds(stock: map<string, Level>)
    ensures Holds(stock, ItemsOf(stock))
    ensures forall i, j :: 0 <= i < j < |ItemsOf(stock)| ==> Below(ItemsOf(stock)[i].sku, ItemsOf(stock)[j].sku)
  {
    var skus, items := Sorted(stock.Keys), ItemsOf(stock);
    assert forall i :: 0 <= i < |skus| ==> skus[i] in skus;
    forall sku | sku in stock ensures Item(sku, stock[sku]) in items {
      var i :| 0 <= i < |skus| && skus[i] == sku;
      assert items[i] == Item(sku, stock[sku]);
    }
  }

  lemma ItemsOfStock(stock: map<string, Level>)
    requires StockOk(stock)
    ensures ItemsOk(ItemsOf(stock))
  {
    ItemsOfHolds(stock);
    var items := ItemsOf(stock);
    forall i, j | 0 <= i < j < |items| ensures items[i].sku != items[j].sku {
      BelowIsStrict(items[i].sku, items[j].sku);
    }
    forall i | 0 <= i < |items| ensures SkuOk(items[i].sku, items[i].level) {
      assert SkuOk(items[i].sku, stock[items[i].sku]);
    }
  }

  lemma HeldOnce(a: map<string, Level>, b: map<string, Level>, items: seq<Item>)
    requires Holds(a, items) && Holds(b, items)
    ensures a == b
  {}

  /** Listing a stock and inserting the list restores the stock. */
  lemma ItemsRestoreStock(stock: map<string, Level>)
    requires StockOk(stock)
    ensures ReplacedStock(ItemsOf(stock)) == Ok(stock)
  {
    ItemsOfHolds(stock);
    ItemsOfStock(stock);
    SkusAreText(ItemsOf(stock));
    InsertedItems(ItemsOf(stock));
    HeldOnce(stock, Inserted(ItemsOf(stock)).value, ItemsOf(stock));
  }

  // ----- Receipts and events ---------------------------------------------------------

  lemma {:induction false} CommittedHasAll(commits: seq<Commit>)
    ensures forall k :: k in Committed(commits) <==> exists i :: 0 <= i < |commits| && commits[i].key == k
    ensures OnceEach(commits) ==>
              forall i :: 0 <= i < |commits| ==>
                commits[i].key in Committed(commits) && Committed(commits)[commits[i].key] == commits[i].stored
  {
    if commits != [] {
      var front := commits[..|commits| - 1];
      CommittedHasAll(front);
      forall i | 0 <= i < |front| ensures commits[i] == front[i] {}
      forall k | k in Committed(front) ensures exists i :: 0 <= i < |commits| && commits[i].key == k {
        var i :| 0 <= i < |front| && front[i].key == k;
        assert commits[i].key == k;
      }
      forall i | 0 <= i < |commits| ensures commits[i].key in Committed(commits) {
        if i < |front| { assert front[i].key in Committed(front); }
      }
    }
  }

  lemma CommittedMore(commits: seq<Commit>, c: Commit)
    ensures Committed(commits + [c]) == Committed(commits)[c.key := c.stored]
  {
    assert (commits + [c])[..|commits|] == commits;
  }

  /** A key of the current epoch that has no receipt was never committed. */
  lemma NewKey(row: Row, receipts: map<Key, Stored>, commits: seq<Commit>, key: Key)
    requires ReceiptsOk(row, receipts, commits)
    requires key.epoch >= row.floor && key !in receipts
    ensures key !in Committed(commits)
    ensures forall i :: 0 <= i < |commits| ==> commits[i].key != key
  {
    CommittedHasAll(commits);
  }

  lemma RetainedMore(commits: seq<Commit>, c: Commit, floor: nat)
    requires c.key.epoch >= floor
    ensures Retained(commits + [c], floor) == Retained(commits, floor)[c.key := c.stored]
  {
    CommittedMore(commits, c);
  }

  lemma RetainedLess(commits: seq<Commit>, floor: nat, next: nat)
    requires floor <= next
    ensures Retained(commits, next) ==
              map k | k in Retained(commits, floor) && k.epoch >= next :: Retained(commits, floor)[k]
  {}

  lemma EpochOneMore(receipts: map<Key, Stored>, key: Key, stored: Stored, e: int)
    requires key !in receipts
    ensures |InEpoch(receipts[key := stored], e)| == |InEpoch(receipts, e)| + if e == key.epoch then 1 else 0
  {
    assert InEpoch(receipts[key := stored], e)
        == if e == key.epoch then InEpoch(receipts, e) + {key} else InEpoch(receipts, e);
  }

  lemma OnceMore(commits: seq<Commit>, c: Commit)
    requires OnceEach(commits) && forall i :: 0 <= i < |commits| ==> commits[i].key != c.key
    ensures OnceEach(commits + [c])
  {}

  /** Filing a receipt keeps the receipts a window of the commits, through the rollover too. */
  lemma FiledKeepsReceipts(ledger: Ledger, key: Key, stored: Stored, commits: seq<Commit>)
    requires ReceiptsOk(ledger.row, ledger.receipts, commits)
    requires key.epoch == ledger.row.epoch && key !in ledger.receipts
    requires Filed(ledger, ledger.row.used, key, stored).Ok?
    ensures var filed := Filed(ledger, ledger.row.used, key, stored).value;
            ReceiptsOk(filed.row, filed.receipts, commits + [Commit(key, stored)])
  {
    var row, filed := ledger.row, Filed(ledger, ledger.row.used, key, stored).value;
    var c := Commit(key, stored);
    var receipts, more := ledger.receipts[key := stored], commits + [c];
    NewKey(row, ledger.receipts, commits, key);
    OnceMore(commits, c);
    RetainedMore(commits, c, row.floor);
    EpochOneMore(ledger.receipts, key, stored, row.epoch);
    if row.used + 1 >= RECEIPTS_PER_EPOCH {
      RetainedLess(more, row.floor, row.epoch);
      Rolled(receipts, row.epoch, more);
    } else if row.epoch > 0 {
      EpochOneMore(ledger.receipts, key, stored, row.epoch - 1);
    }
  }

  /** Nothing is committed in an epoch that has not begun. */
  lemma Rolled(receipts: map<Key, Stored>, epoch: nat, commits: seq<Commit>)
    requires forall i :: 0 <= i < |commits| ==> commits[i].key.epoch <= epoch
    requires forall k :: k in receipts ==> k in Committed(commits)
    ensures var kept := map k | k in receipts && k.epoch >= epoch :: receipts[k];
            InEpoch(kept, epoch) == InEpoch(receipts, epoch) && InEpoch(kept, epoch + 1) == {}
  {
    CommittedHasAll(commits);
  }

  lemma RecordedKeepsWindow(ledger: Ledger, payload: Payload, log: seq<Event>)
    requires WindowOk(ledger.row, ledger.events, log)
    requires Recorded(ledger, payload).Ok?
    ensures var recorded := Recorded(ledger, payload).value;
            WindowOk(recorded.row, recorded.events, log + [Event(ledger.row.incarnation, payload)])
  {}

  // ----- Updating one ledger ---------------------------------------------------------

  /** Put a sound ledger and a longer story in place of one resource's. */
  lemma LedgerUpdated(w: World, w': World, id: string, ledger: Ledger, story: Story, slack: Option<string>,
                      slack': Option<string>)
    requires Sound(w, slack)
    requires w'.ledgers == w.ledgers[id := ledger] && w'.stories == w.stories[id := story]
    requires w'.snapshots == w.snapshots && w'.derivations == w.derivations && w'.minted == w.minted
    requires LedgerOk(ledger, story) && ledger.row.incarnation in w.minted && IsId(id, w.minted)
    requires id in w.stories ==> |story.log| >= |w.stories[id].log|
    requires if id in w.ledgers then ledger.row.revision >= w.ledgers[id].row.revision else id !in w.stories
    requires slack' == slack
          || (slack == Some(id) && slack' == None && id in w.ledgers && id in w.stories
              && |story.log| > |w.stories[id].log| && ledger.row.revision > w.ledgers[id].row.revision)
    ensures Sound(w', slack')
  {
    forall x | x in w.snapshots ensures TakenBefore(w', w'.snapshots[x], slack') {
      assert TakenBefore(w, w.snapshots[x], slack) && SnapshotOk(x, w.snapshots[x], w.stories, slack);
    }
    forall x | x in w'.ledgers ensures LedgerSound(w', x) {
      if x != id { assert LedgerSound(w, x); }
    }
    forall x | x in w'.stories ensures IsId(x, w'.minted) {
      if x != id { assert IsId(x, w.minted); }
    }
    forall x | x in w.snapshots ensures SnapshotOk(x, w'.snapshots[x], w'.stories, slack') {
      assert SnapshotOk(x, w.snapshots[x], w.stories, slack);
    }
    forall child | child in w.derivations ensures DerivationOk(w', child) { assert DerivationOk(w, child); }
  }

  lemma MoreMinted(w: World, minted: set<string>)
    requires Inv(w)
    ensures Inv(w.(minted := w.minted + minted))
  {
    var w' := w.(minted := w.minted + minted);
    forall x | x in w.snapshots ensures TakenBefore(w', w'.snapshots[x], None) {
      assert TakenBefore(w, w.snapshots[x], None);
    }
    forall x | x in w'.ledgers ensures LedgerSound(w', x) { assert LedgerSound(w, x); }
    forall x | x in w.stories ensures IsId(x, w'.minted) { assert IsId(x, w.minted); }
    forall x | x in w.snapshots ensures SnapshotOk(x, w'.snapshots[x], w'.stories, None) {
      assert SnapshotOk(x, w.snapshots[x], w.stories, None);
    }
    forall child | child in w.derivations ensures DerivationOk(w', child) { assert DerivationOk(w, child); }
  }

  lemma SlackIsWeaker(w: World, slack: Option<string>)
    requires Inv(w)
    ensures Sound(w, slack)
  {
    forall x | x in w.snapshots
      ensures SnapshotOk(x, w.snapshots[x], w.stories, slack) && TakenBefore(w, w.snapshots[x], slack)
    {
      assert SnapshotOk(x, w.snapshots[x], w.stories, None) && TakenBefore(w, w.snapshots[x], None);
    }
  }

  // ----- What the effects keep -------------------------------------------------------

  /** An effect leaves the resource's books alone: only the incarnation of its row may change. */
  ghost predicate SameBooks(a: Ledger, b: Ledger) {
    b.row == a.row.(incarnation := b.row.incarnation) && b.receipts == a.receipts && b.events == a.events
  }

  /** What an effect on a resource keeps. */
  ghost predicate Kept(w: World, w': World, id: string) {
    && Sound(w', Some(id))
    && id in w.ledgers && id in w'.ledgers && SameBooks(w.ledgers[id], w'.ledgers[id])
    && id in w.stories && id in w'.stories && w'.stories[id] == w.stories[id]
  }

  /** The common case: only the stock and perhaps the incarnation of the resource change. */
  lemma LedgerReplaced(w: World, id: string, ledger: Ledger)
    requires Inv(w) && id in w.ledgers
    requires SameBooks(w.ledgers[id], ledger) && StockOk(ledger.stock) && ledger.row.incarnation in w.minted
    ensures Kept(w, w.(ledgers := w.ledgers[id := ledger]), id)
  {
    var w' := w.(ledgers := w.ledgers[id := ledger]);
    assert LedgerSound(w, id) && IsId(id, w.minted);
    assert w'.stories == w.stories[id := w.stories[id]];
    SlackIsWeaker(w, Some(id));
    LedgerUpdated(w, w', id, ledger, w.stories[id], Some(id), Some(id));
  }

  lemma StockWithLevel(stock: map<string, Level>, sku: string, level: Level)
    requires StockOk(stock) && sku in stock && IsLevel(level)
    ensures StockOk(stock[sku := level])
  {
    var stock' := stock[sku := level];
    assert stock'.Keys == stock.Keys;
    assert |stock'.Keys| == |stock'| && |stock.Keys| == |stock|;
    forall x | x in stock' ensures SkuOk(x, stock'[x]) { assert SkuOk(x, stock[x]); }
  }

  lemma ShiftKeeps(w: World, id: string, command: Command, p: Parameters)
    requires Inv(w) && id in w.ledgers
    requires ApplyShift(w, id, command, p).Ok?
    ensures Kept(w, ApplyShift(w, id, command, p).value.0, id)
  {
    var w' := ApplyShift(w, id, command, p).value.0;
    assert LedgerSound(w, id);
    StockWithLevel(w.ledgers[id].stock, p.sku, w'.ledgers[id].stock[p.sku]);
    LedgerReplaced(w, id, w'.ledgers[id]);
  }

  lemma ContentIsOk(w: World, slack: Option<string>, id: Digest)
    requires Sound(w, slack) && Content(w.snapshots, id).Ok?
    ensures var data := Content(w.snapshots, id).value;
            && id in w.snapshots && data == w.snapshots[id].data && ItemsOk(data.items)
            && ReplacedStock(data.items).Ok? && StockOk(ReplacedStock(data.items).value)
  {
    assert SnapshotOk(id, w.snapshots[id], w.stories, slack);
    ReplacedStockIsOk(w.snapshots[id].data.items);
  }

  lemma ReplaceKeeps(w: World, id: string, command: Command, p: Parameters, uuid: string)
    requires Inv(w) && id in w.ledgers && uuid in w.minted
    requires ApplyReplace(w, id, command, p, uuid).Ok?
    ensures Kept(w, ApplyReplace(w, id, command, p, uuid).value.0, id)
  {
    ContentIsOk(w, None, p.snapshot);
    assert LedgerSound(w, id);
    LedgerReplaced(w, id, ApplyReplace(w, id, command, p, uuid).value.0.ledgers[id]);
  }

  lemma NewWorkspaceId(w: World, uuid: string)
    requires Inv(w) && uuid !in w.minted
    ensures Workspace(uuid) !in w.stories
  {
    if Workspace(uuid) in w.stories {
      assert IsId(Workspace(uuid), w.minted);
      assert Workspace(uuid)[0] == 'w';
      var u :| u in w.minted && Workspace(uuid) == Workspace(u);
      WorkspaceIsInjective(u, uuid);
    }
  }

  lemma WorkspaceIsInjective(u: string, v: string)
    requires Workspace(u) == Workspace(v)
    ensures u == v
  {
    assert Workspace(u)[10..] == u && Workspace(v)[10..] == v;
  }

  lemma NewLedgerIsOk(row: Row, stock: map<string, Level>)
    requires StockOk(stock) && row.epoch == row.floor == row.used == row.sequence == 0
    ensures LedgerOk(Ledger(row, stock, map[], map[]), Story([], []))
  {
    assert InEpoch(map[], 0) == {};
    assert Retained([], 0) == map[];
  }

  lemma ForkKeeps(w: World, id: string, p: Parameters, child: string, uuid: string)
    requires Inv(w) && id in w.ledgers && child !in w.stories && IsId(child, w.minted) && uuid in w.minted
    requires ApplyFork(w, p, child, uuid).Ok?
    ensures Kept(w, ApplyFork(w, p, child, uuid).value.0, id)
  {
    var w' := ApplyFork(w, p, child, uuid).value.0;
    ContentIsOk(w, None, p.snapshot);
    var ledger := w'.ledgers[child];
    NewLedgerIsOk(ledger.row, ledger.stock);
    SlackIsWeaker(w, Some(id));
    assert LedgerSound(w, id);
    var grown := w'.(derivations := w.derivations);
    LedgerUpdated(w, grown, child, ledger, Story([], []), Some(id), Some(id));
    WithDerivation(grown, Some(id), child, w'.derivations[child]);
  }

  lemma WithDerivation(w: World, slack: Option<string>, child: string, d: Derivation)
    requires Sound(w, slack) && child in w.ledgers && d.snapshot in w.snapshots
    ensures Sound(w.(derivations := w.derivations[child := d]), slack)
  {
    var w' := w.(derivations := w.derivations[child := d]);
    forall x | x in w.snapshots ensures TakenBefore(w', w'.snapshots[x], slack) {
      assert TakenBefore(w, w.snapshots[x], slack);
    }
    forall x | x in w'.ledgers ensures LedgerSound(w', x) { assert LedgerSound(w, x); }
    forall x | x in w.stories ensures IsId(x, w'.minted) { assert IsId(x, w.minted); }
    forall x | x in w.snapshots ensures SnapshotOk(x, w'.snapshots[x], w'.stories, slack) {
      assert SnapshotOk(x, w.snapshots[x], w.stories, slack);
    }
    forall x | x in w'.derivations ensures DerivationOk(w', x) {
      if x != child { assert DerivationOk(w, x); }
    }
  }

  // ----- Snapshots -------------------------------------------------------------------

  /** Other snapshots in place of the stored ones, if they are sound and cover the derivations. */
  lemma WithSnapshots(w: World, slack: Option<string>, slack': Option<string>, snapshots: map<Digest, SnapshotRow>)
    requires Sound(w, slack)
    requires forall id :: id in snapshots ==> SnapshotOk(id, snapshots[id], w.stories, slack')
    requires forall id :: id in snapshots ==> TakenBefore(w, snapshots[id], slack')
    requires SerialsDiffer(snapshots)
    requires forall child :: child in w.derivations ==> w.derivations[child].snapshot in snapshots
    ensures Sound(w.(snapshots := snapshots), slack')
  {
    var w' := w.(snapshots := snapshots);
    forall x | x in w'.snapshots ensures TakenBefore(w', w'.snapshots[x], slack') {
      assert TakenBefore(w, snapshots[x], slack');
    }
    forall x | x in w'.ledgers ensures LedgerSound(w', x) { assert LedgerSound(w, x); }
    forall x | x in w.stories ensures IsId(x, w'.minted) { assert IsId(x, w.minted); }
    forall x | x in w.derivations ensures DerivationOk(w', x) { assert DerivationOk(w, x); }
  }

  /** The current version of a resource was never captured before. */
  lemma NotTakenYet(w: World, id: string)
    requires Inv(w) && id in w.ledgers
    ensures OfSnapshot(TakenRow(w, id).data) !in w.snapshots
  {
    var digest := OfSnapshot(TakenRow(w, id).data);
    forall x | x in w.snapshots ensures x != digest {
      assert SnapshotOk(x, w.snapshots[x], w.stories, None) && TakenBefore(w, w.snapshots[x], None);
    }
  }

  lemma SnapshotTaken(w: World, id: string, row: SnapshotRow)
    requires Inv(w) && id in w.ledgers
    requires row == TakenRow(w, id)
    ensures OfSnapshot(row.data) !in w.snapshots
    ensures Sound(w.(snapshots := w.snapshots[OfSnapshot(row.data) := row]), Some(id))
  {
    var snapshots := w.snapshots[OfSnapshot(row.data) := row];
    assert LedgerSound(w, id);
    NotTakenYet(w, id);
    ItemsOfStock(w.ledgers[id].stock);
    forall x | x in snapshots
      ensures SnapshotOk(x, snapshots[x], w.stories, Some(id)) && TakenBefore(w, snapshots[x], Some(id))
    {
      if x in w.snapshots {
        assert SnapshotOk(x, w.snapshots[x], w.stories, None) && TakenBefore(w, w.snapshots[x], None);
      }
    }
    forall a, b | a in snapshots && b in snapshots && a != b ensures SerialsApart(snapshots[a], snapshots[b]) {
      if a in w.snapshots { assert SnapshotOk(a, w.snapshots[a], w.stories, None); }
      if b in w.snapshots { assert SnapshotOk(b, w.snapshots[b], w.stories, None); }
      if a in w.snapshots && b in w.snapshots { assert SerialsApart(w.snapshots[a], w.snapshots[b]); }
    }
    forall child | child in w.derivations ensures w.derivations[child].snapshot in snapshots {
      assert DerivationOk(w, child);
    }
    WithSnapshots(w, None, Some(id), snapshots);
  }

  /** The row a snapshot of a resource inserts. */
  ghost function TakenRow(w: World, id: string): SnapshotRow
    requires id in w.ledgers
  {
    var ledger := w.ledgers[id];
    SnapshotRow(id, ledger.row.revision, SnapshotData(VersionOf(id, ledger.row), ItemsOf(ledger.stock)),
                ledger.row.sequence + 1)
  }

  lemma PruningKeeps(w: World, slack: Option<string>, id: string)
    requires Sound(w, slack)
    ensures Sound(w.(snapshots := Pruned(w.snapshots, w.derivations, id)), slack)
  {
    var kept := Pruned(w.snapshots, w.derivations, id);
    forall x | x in kept ensures SnapshotOk(x, kept[x], w.stories, slack) && TakenBefore(w, kept[x], slack) {
      assert SnapshotOk(x, w.snapshots[x], w.stories, slack) && TakenBefore(w, w.snapshots[x], slack);
    }
    forall a, b | a in kept && b in kept && a != b ensures SerialsApart(kept[a], kept[b]) {
      assert SerialsApart(w.snapshots[a], w.snapshots[b]);
    }
    forall child | child in w.derivations ensures w.derivations[child].snapshot in kept {
      assert DerivationOk(w, child);
      assert Referenced(w.derivations, w.derivations[child].snapshot);
    }
    WithSnapshots(w, slack, slack, kept);
  }

  lemma SnapshotKeeps(w: World, id: string, p: Parameters)
    requires Inv(w) && id in w.ledgers
    requires ApplySnapshot(w, id, p).Ok?
    ensures Kept(w, ApplySnapshot(w, id, p).value.0, id)
  {
    var row := TakenRow(w, id);
    var digest := OfSnapshot(row.data);
    assert LedgerSound(w, id);
    SnapshotTaken(w, id, row);
    PruningKeeps(w.(snapshots := w.snapshots[digest := row]), Some(id), id);
  }

  lemma ApplyKeeps(w: World, id: string, command: Command, p: Parameters, child: string, uuid: string)
    requires Inv(w) && id in w.ledgers && child !in w.stories && IsId(child, w.minted) && uuid in w.minted
    requires Apply(w, id, command, p, child, uuid).Ok?
    ensures Kept(w, Apply(w, id, command, p, child, uuid).value.0, id)
  {
    match command {
      case Reserve => ShiftKeeps(w, id, command, p);
      case Release => ShiftKeeps(w, id, command, p);
      case Snapshot => SnapshotKeeps(w, id, p);
      case Fork => ForkKeeps(w, id, p, child, uuid);
      case Restore => ReplaceKeeps(w, id, command, p, uuid);
      case PublishPrivate => ReplaceKeeps(w, id, command, p, uuid);
    }
  }

  // ----- What the transactions keep --------------------------------------------------

  /** Filing a receipt and recording its event, for a key without a receipt. */
  lemma EntryKept(ledger: Ledger, story: Story, key: Key, stored: Stored, payload: Payload)
    requires LedgerOk(ledger, story) && key.epoch == ledger.row.epoch && key !in ledger.receipts
    requires Filed(ledger, ledger.row.used, key, stored).Ok?
    requires Recorded(Filed(ledger, ledger.row.used, key, stored).value, payload).Ok?
    ensures LedgerOk(Recorded(Filed(ledger, ledger.row.used, key, stored).value, payload).value,
                     Story(story.commits + [Commit(key, stored)], story.log + [Event(ledger.row.incarnation, payload)]))
  {
    var filed := Filed(ledger, ledger.row.used, key, stored).value;
    FiledKeepsReceipts(ledger, key, stored, story.commits);
    RecordedKeepsWindow(filed, payload, story.log);
  }

  ghost function Bumped(ledger: Ledger): Ledger { ledger.(row := ledger.row.(revision := ledger.row.revision + 1)) }

  lemma BookedParts(id: string, ledger: Ledger, command: Command, request: Identity, effect: Effect)
    requires Booked(id, ledger, command, request, effect).Ok?
    ensures var (ledger', commit, event) := Booked(id, ledger, command, request, effect).value;
            var filed := Filed(Bumped(ledger), ledger.row.used, commit.key, commit.stored);
            && commit.key == Key(request.epoch, request.key)
            && event == Event(ledger.row.incarnation, event.payload)
            && filed.Ok? && Recorded(filed.value, event.payload) == Ok(ledger')
            && ledger'.row.incarnation == ledger.row.incarnation
            && ledger'.row.revision == ledger.row.revision + 1 && ledger'.stock == ledger.stock
  {}

  lemma BooksKept(id: string, ledger: Ledger, story: Story, command: Command, request: Identity, effect: Effect)
    requires LedgerOk(ledger, story)
    requires request.epoch == ledger.row.epoch && Key(request.epoch, request.key) !in ledger.receipts
    requires Booked(id, ledger, command, request, effect).Ok?
    ensures var (ledger', commit, event) := Booked(id, ledger, command, request, effect).value;
            && LedgerOk(ledger', Story(story.commits + [commit], story.log + [event]))
            && ledger'.row.incarnation == ledger.row.incarnation
            && ledger'.row.revision == ledger.row.revision + 1
  {
    var (_, commit, event) := Booked(id, ledger, command, request, effect).value;
    BookedParts(id, ledger, command, request, effect);
    BumpedIsOk(ledger, story);
    EntryKept(Bumped(ledger), story, commit.key, commit.stored, event.payload);
  }

  lemma BumpedIsOk(ledger: Ledger, story: Story)
    requires LedgerOk(ledger, story)
    ensures LedgerOk(Bumped(ledger), story)
  {}

  lemma FinishedKeeps(w: World, id: string, command: Command, request: Identity, effect: Effect)
    requires Sound(w, Some(id)) && id in w.ledgers
    requires request.epoch == w.ledgers[id].row.epoch && Key(request.epoch, request.key) !in w.ledgers[id].receipts
    requires Finished(w, id, command, request, effect).Ok?
    ensures Inv(Finished(w, id, command, request, effect).value.0)
  {
    var w' := Finished(w, id, command, request, effect).value.0;
    assert LedgerSound(w, id) && IsId(id, w.minted);
    BooksKept(id, w.ledgers[id], w.stories[id], command, request, effect);
    LedgerUpdated(w, w', id, w'.ledgers[id], w'.stories[id], Some(id), None);
  }

  lemma PerformedKeeps(w: World, command: Command, request: Identity, p: Parameters, expected: Version,
                       uuid: string, uuid': string)
    requires Inv(w) && uuid !in w.minted && request.resource in w.ledgers
    requires Key(request.epoch, request.key) !in w.ledgers[request.resource].receipts
    requires Performed(w, w.ledgers[request.resource].row, command, request, p, expected, uuid, uuid').Ok?
    ensures Inv(Performed(w, w.ledgers[request.resource].row, command, request, p, expected, uuid, uuid').value.0)
  {
    var id, w0 := request.resource, w.(minted := w.minted + {uuid, uuid'});
    MoreMinted(w, {uuid, uuid'});
    NewWorkspaceId(w, uuid);
    assert IsId(Workspace(uuid), w0.minted);
    ApplyKeeps(w0, id, command, p, Workspace(uuid), uuid');
    var (applied, effect) := Apply(w0, id, command, p, Workspace(uuid), uuid').value;
    FinishedKeeps(applied, id, command, request, effect);
  }

  lemma AdjustKeeps(w: World, readOnly: bool, id: string, sku: string, available: int, expected: Option<Version>)
    requires Inv(w) && ManualAdjust(w, readOnly, id, sku, available, expected).Ok?
    ensures Inv(ManualAdjust(w, readOnly, id, sku, available, expected).value)
  {
    var w' := ManualAdjust(w, readOnly, id, sku, available, expected).value;
    assert LedgerSound(w, id) && IsId(id, w.minted);
    AdjustedBooksAreOk(w.ledgers[id], w.stories[id], sku, available);
    var ledger := Recorded(WithAvailable(w.ledgers[id], sku, available), Adjusted(sku, available)).value;
    assert w'.ledgers == w.ledgers[id := ledger] && w'.stories == w.stories[id := w'.stories[id]];
    LedgerUpdated(w, w', id, ledger, w'.stories[id], None, None);
  }

  ghost function WithAvailable(ledger: Ledger, sku: string, available: int): Ledger
    requires sku in ledger.stock
  {
    Bumped(ledger).(stock := ledger.stock[sku := ledger.stock[sku].(available := available)])
  }

  lemma AdjustedBooksAreOk(ledger: Ledger, story: Story, sku: string, available: int)
    requires LedgerOk(ledger, story) && sku in ledger.stock && InRange(available)
    requires Recorded(WithAvailable(ledger, sku, available), Adjusted(sku, available)).Ok?
    ensures LedgerOk(Recorded(WithAvailable(ledger, sku, available), Adjusted(sku, available)).value,
                     story.(log := story.log + [Event(ledger.row.incarnation, Adjusted(sku, available))]))
  {
    assert SkuOk(sku, ledger.stock[sku]);
    StockWithLevel(ledger.stock, sku, ledger.stock[sku].(available := available));
    RecordedKeepsWindow(WithAvailable(ledger, sku, available), Adjusted(sku, available), story.log);
  }

  lemma SetAccessKeeps(w: World, readOnly: bool, id: string, enabled: bool)
    requires Inv(w) && OwnerSetAccess(w, readOnly, id, enabled).Ok?
    ensures Inv(OwnerSetAccess(w, readOnly, id, enabled).value)
  {
    var w' := OwnerSetAccess(w, readOnly, id, enabled).value;
    assert LedgerSound(w, id) && IsId(id, w.minted);
    assert w'.stories == w.stories[id := w.stories[id]];
    LedgerUpdated(w, w', id, w'.ledgers[id], w.stories[id], None, None);
  }

  lemma CloseKeeps(w: World, readOnly: bool, id: string)
    requires Inv(w) && OwnerCloseWorkspace(w, readOnly, id).Ok?
    ensures Inv(OwnerCloseWorkspace(w, readOnly, id).value)
  {
    var w' := OwnerCloseWorkspace(w, readOnly, id).value;
    forall x | x in w'.ledgers ensures LedgerSound(w', x) { assert LedgerSound(w, x); }
    forall x | x in w'.derivations ensures DerivationOk(w', x) { assert DerivationOk(w, x); }
    forall x | x in w.snapshots ensures TakenBefore(w', w'.snapshots[x], None) {
      assert TakenBefore(w, w.snapshots[x], None);
    }
  }

  /** Every write transaction, on whatever arguments, keeps the invariant. */
  lemma NextKeeps(w: World, op: Op)
    requires Inv(w) && Legal(w, op)
    ensures Inv(Next(w, op))
  {
    match op {
      case Change(readOnly, command, request, p, context, uuid, uuid') =>
        var r := Mutate(w, readOnly, command, request, p, context, uuid, uuid');
        if r.Ok? && !r.value.1.deduplicated {
          PerformedKeeps(w, command, request, p, context.expected.value, uuid, uuid');
        }
      case Adjust(readOnly, id, sku, available, expected) =>
        if ManualAdjust(w, readOnly, id, sku, available, expected).Ok? {
          AdjustKeeps(w, readOnly, id, sku, available, expected);
        }
      case SetAccess(readOnly, id, enabled) =>
        if OwnerSetAccess(w, readOnly, id, enabled).Ok? { SetAccessKeeps(w, readOnly, id, enabled); }
      case Close(readOnly, id) =>
        if OwnerCloseWorkspace(w, readOnly, id).Ok? { CloseKeeps(w, readOnly, id); }
    }
  }

  lemma ProvisionedIsSound(uuid: string, uuid': string)
    ensures Inv(Provisioned(uuid, uuid'))
  {
    var w := Provisioned(uuid, uuid');
    SeedSkus();
    forall id | id in w.ledgers ensures LedgerSound(w, id) {
      var ledger := w.ledgers[id];
      forall sku | sku in ledger.stock ensures SkuOk(sku, ledger.stock[sku]) {}
      NewLedgerIsOk(ledger.row, ledger.stock);
    }
  }

  lemma SeedSkus()
    ensures IsSku("alpha") && IsSku("beta") && IsSku("omega")
  {
    assert ByteLength("alpha") <= 128 by { ShortText("alpha"); }
    assert ByteLength("beta") <= 128 by { ShortText("beta"); }
    assert ByteLength("omega") <= 128 by { ShortText("omega"); }
  }

  lemma {:induction false} ShortText(s: string)
    ensures ByteLength(s) <= 4 * |s|
  {
    if s != "" { ShortText(s[1..]); }
  }
}
