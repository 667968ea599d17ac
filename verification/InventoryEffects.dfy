/** What each call of a write transaction leaves behind and answers, table by table, in terms of
    the rows before the call and its arguments. */
module InventoryEffects {
  import opened Results
  import opened Text
  import opened InventoryModel
  import opened InventoryInvariant
  import opened InventoryRuns
  import opened InventoryStock

  // ----- A committed request, taken apart --------------------------------------------

  /** The tables after the effect of a request and before its books. */
  ghost function EffectOf(w: World, op: Op): Result<(World, Effect)>
    requires op.Change? && op.request.resource in w.ledgers
  {
    Apply(w.(minted := w.minted + {op.uuid, op.uuid'}), op.request.resource, op.command, op.parameters,
          Workspace(op.uuid), op.uuid')
  }

  lemma CommittedApplies(w: World, op: Op)
    requires Inv(w) && Legal(w, op) && CommitOf(w, op).Some?
    ensures op.request.resource in w.ledgers && EffectOf(w, op).Ok?
    ensures op.request.resource in EffectOf(w, op).value.0.ledgers
  {
    NewWorkspaceId(w, op.uuid);
    var w0 := w.(minted := w.minted + {op.uuid, op.uuid'});
    EffectIsLocal(w0, op.request.resource, op.command, op.parameters, Workspace(op.uuid), op.uuid');
  }

  lemma CommittedSteps(w: World, op: Op)
    requires Inv(w) && Legal(w, op) && CommitOf(w, op).Some?
    ensures var id := op.request.resource;
            && id in w.ledgers && EffectOf(w, op).Ok? && id in EffectOf(w, op).value.0.ledgers
            && var (applied, effect) := EffectOf(w, op).value;
               var booked := Booked(id, applied.ledgers[id], op.command, op.request, effect);
               && booked.Ok? && CommitOf(w, op).value == booked.value.1
               && Next(w, op).ledgers == applied.ledgers[id := booked.value.0]
               && Next(w, op).snapshots == applied.snapshots && Next(w, op).derivations == applied.derivations
  {
    var id := op.request.resource;
    CommittedApplies(w, op);
    var (applied, effect) := EffectOf(w, op).value;
    BookedReceipt(id, applied.ledgers[id], op.command, op.request, effect);
  }

  // ----- The row and the receipt -----------------------------------------------------

  /** The row after the books of a request: another revision and event, and another use of the
      epoch, or a new epoch whose predecessor alone stays recoverable. */
  ghost predicate IsBooked(was: Row, now: Row, incarnation: string) {
    && now.incarnation == incarnation && now.revision == was.revision + 1 && now.sequence == was.sequence + 1
    && now.enabled == was.enabled && now.isPrivate == was.isPrivate
    && if was.used + 1 < RECEIPTS_PER_EPOCH
       then now.used == was.used + 1 && now.epoch == was.epoch && now.floor == was.floor
       else now.used == 0 && now.epoch == was.epoch + 1 && now.floor == was.epoch
  }

  lemma BookedIsBooked(id: string, ledger: Ledger, command: Command, request: Identity, effect: Effect)
    requires Booked(id, ledger, command, request, effect).Ok?
    ensures var (ledger', commit, event) := Booked(id, ledger, command, request, effect).value;
            && IsBooked(ledger.row, ledger'.row, ledger.row.incarnation) && ledger'.stock == ledger.stock
            && var committed := Version(id, ledger'.row.incarnation, ledger'.row.revision);
               commit == Commit(Key(request.epoch, request.key),
                                Stored(request.digest, Receipt(command, request, committed, effect)))
  {
  }

  /** A committed request leaves the row of its resource booked, under a new incarnation only if
      it restored, and answers with a receipt for the version it leaves. */
  lemma CommittedBooks(w: World, op: Op)
    requires Inv(w) && Legal(w, op) && CommitOf(w, op).Some?
    ensures var id := op.request.resource;
            && id in w.ledgers && id in Next(w, op).ledgers
            && var (was, now) := (w.ledgers[id].row, Next(w, op).ledgers[id].row);
               var commit := CommitOf(w, op).value;
               var receipt := commit.stored.receipt;
               && IsBooked(was, now, if op.command.Restore? then op.uuid' else was.incarnation)
               && commit == Commit(Key(op.request.epoch, op.request.key), Stored(op.request.digest, receipt))
               && receipt.command == op.command && receipt.request == op.request
               && receipt.committed == Version(id, now.incarnation, now.revision)
               && OutcomeAt(w, op) == Ok((Next(w, op), Reply(false, receipt)))
  {
    var id := op.request.resource;
    CommittedSteps(w, op);
    NewWorkspaceId(w, op.uuid);
    var w0 := w.(minted := w.minted + {op.uuid, op.uuid'});
    EffectIsLocal(w0, id, op.command, op.parameters, Workspace(op.uuid), op.uuid');
    var (applied, effect) := EffectOf(w, op).value;
    BookedIsBooked(id, applied.ledgers[id], op.command, op.request, effect);
  }

  // ----- The effects -----------------------------------------------------------------

  lemma ShiftMoves(w: World, id: string, command: Command, p: Parameters)
    requires id in w.ledgers && (command.Reserve? || command.Release?) && ApplyShift(w, id, command, p).Ok?
    ensures p.Units? && p.sku in w.ledgers[id].stock
    ensures var (was, quantity) := (w.ledgers[id].stock, if command.Reserve? then p.quantity else -p.quantity);
            var level := Level(was[p.sku].available - quantity, was[p.sku].reserved + quantity);
            var (w', effect) := ApplyShift(w, id, command, p).value;
            && w' == w.(ledgers := w.ledgers[id := w.ledgers[id].(stock := was[p.sku := level])])
            && effect == Moved(p.sku, level)
  {
  }

  lemma ShiftEffect(w: World, op: Op)
    requires op.Change? && op.request.resource in w.ledgers && (op.command.Reserve? || op.command.Release?)
    requires EffectOf(w, op).Ok?
    ensures var (id, p, (w', effect)) := (op.request.resource, op.parameters, EffectOf(w, op).value);
            && p.Units? && p.sku in w.ledgers[id].stock && id in w'.ledgers
            && var (was, quantity) := (w.ledgers[id].stock, if op.command.Reserve? then p.quantity else -p.quantity);
               var level := Level(was[p.sku].available - quantity, was[p.sku].reserved + quantity);
               w'.ledgers[id].stock == was[p.sku := level] && effect == Moved(p.sku, level)
  {
    ShiftMoves(w.(minted := w.minted + {op.uuid, op.uuid'}), op.request.resource, op.command, op.parameters);
  }

  /** Reserve and release move the requested units of the requested SKU, in opposite directions,
      leave all other levels alone, and report the new level. */
  lemma UnitsMove(w: World, op: Op)
    requires Inv(w) && Legal(w, op) && CommitOf(w, op).Some? && (op.command.Reserve? || op.command.Release?)
    ensures var (id, p, w') := (op.request.resource, op.parameters, Next(w, op));
            && id in w.ledgers && id in w'.ledgers && p.Units? && p.sku in w.ledgers[id].stock
            && var (was, quantity) := (w.ledgers[id].stock, if op.command.Reserve? then p.quantity else -p.quantity);
               var level := Level(was[p.sku].available - quantity, was[p.sku].reserved + quantity);
               && w'.ledgers[id].stock == was[p.sku := level]
               && CommitOf(w, op).value.stored.receipt.effect == Moved(p.sku, level)
  {
    CommittedSteps(w, op);
    ShiftEffect(w, op);
    var (applied, effect) := EffectOf(w, op).value;
    BookedIsBooked(op.request.resource, applied.ledgers[op.request.resource], op.command, op.request, effect);
  }

  /** What a snapshot of a resource is of. */
  ghost function DataOf(w: World, id: string): SnapshotData
    requires id in w.ledgers
  {
    var row := w.ledgers[id].row;
    SnapshotData(Version(id, row.incarnation, row.revision), ItemsOf(w.ledgers[id].stock))
  }

  /** The snapshots with one of a resource added, under its digest, with the revision it is of and
      the number of the event that will tell of it. */
  ghost function WithTaken(w: World, id: string): map<Digest, SnapshotRow>
    requires id in w.ledgers
  {
    var row, data := w.ledgers[id].row, DataOf(w, id);
    w.snapshots[OfSnapshot(data) := SnapshotRow(id, row.revision, data, row.sequence + 1)]
  }

  lemma SnapshotCaptures(w: World, id: string, p: Parameters)
    requires Inv(w) && id in w.ledgers && ApplySnapshot(w, id, p).Ok?
    ensures ApplySnapshot(w, id, p).value.0 == w.(snapshots := Pruned(WithTaken(w, id), w.derivations, id))
    ensures ApplySnapshot(w, id, p).value.1 == Captured(OfSnapshot(DataOf(w, id)), DataOf(w, id).source)
  {
    NotTakenYet(w, id);
  }

  lemma SnapshotEffect(w: World, op: Op)
    requires Inv(w) && op.Change? && op.command.Snapshot? && op.request.resource in w.ledgers && EffectOf(w, op).Ok?
    ensures var (id, w') := (op.request.resource, EffectOf(w, op).value.0);
            && w'.snapshots == Pruned(WithTaken(w, id), w.derivations, id) && w'.ledgers == w.ledgers
            && EffectOf(w, op).value.1 == Captured(OfSnapshot(DataOf(w, id)), DataOf(w, id).source)
  {
    MoreMinted(w, {op.uuid, op.uuid'});
    var w0 := w.(minted := w.minted + {op.uuid, op.uuid'});
    SnapshotCaptures(w0, op.request.resource, op.parameters);
    assert WithTaken(w0, op.request.resource) == WithTaken(w, op.request.resource);
  }

  /** A snapshot stores the stock as it is and prunes; the stock itself stays, and the receipt
      names the digest and the version it is of. */
  lemma StockIsCaptured(w: World, op: Op)
    requires Inv(w) && Legal(w, op) && CommitOf(w, op).Some? && op.command.Snapshot?
    ensures var (id, w') := (op.request.resource, Next(w, op));
            && id in w.ledgers && id in w'.ledgers && w'.ledgers[id].stock == w.ledgers[id].stock
            && w'.snapshots == Pruned(WithTaken(w, id), w.derivations, id)
            && CommitOf(w, op).value.stored.receipt.effect == Captured(OfSnapshot(DataOf(w, id)), DataOf(w, id).source)
  {
    CommittedSteps(w, op);
    var id := op.request.resource;
    var (applied, effect) := EffectOf(w, op).value;
    SnapshotEffect(w, op);
    BookedIsBooked(id, applied.ledgers[id], op.command, op.request, effect);
  }

  /** A fork creates one resource: private, enabled, at revision 1 of a new incarnation, without
      receipts or events, holding the items of the snapshot, and filed as derived from it. */
  lemma WorkspaceIsForked(w: World, op: Op)
    requires Inv(w) && Legal(w, op) && CommitOf(w, op).Some? && op.command.Fork?
    ensures var (id, child, w', p) := (op.request.resource, Workspace(op.uuid), Next(w, op), op.parameters);
            && id in w.ledgers && id in w'.ledgers && w'.ledgers[id].stock == w.ledgers[id].stock
            && p.Source? && p.snapshot in w.snapshots && child !in w.stories && child in w'.ledgers
            && var (data, fork) := (w.snapshots[p.snapshot].data, w'.ledgers[child]);
               && fork.row == Row(op.uuid', 1, 0, 0, 0, 0, true, true)
               && fork.receipts == map[] && fork.events == map[] && Holds(fork.stock, data.items)
               && w'.derivations == w.derivations[child := Derivation(data.source, p.snapshot)]
               && CommitOf(w, op).value.stored.receipt.effect
                    == Forked(Version(child, op.uuid', 1), data.source, p.snapshot)
  {
    CommittedSteps(w, op);
    NewWorkspaceId(w, op.uuid);
    var id, p := op.request.resource, op.parameters;
    var (applied, effect) := EffectOf(w, op).value;
    SnapshotHolds(w, p.snapshot);
    BookedIsBooked(id, applied.ledgers[id], op.command, op.request, effect);
  }

  lemma SnapshotHolds(w: World, d: Digest)
    requires Inv(w) && Content(w.snapshots, d).Ok?
    ensures d in w.snapshots && Content(w.snapshots, d).value == w.snapshots[d].data
    ensures ReplacedStock(w.snapshots[d].data.items).Ok?
    ensures Holds(ReplacedStock(w.snapshots[d].data.items).value, w.snapshots[d].data.items)
  {
    assert SnapshotOk(d, w.snapshots[d], w.stories, None);
    ReplacedStockIsOk(w.snapshots[d].data.items);
  }

  /** Restore and private publication put the items of the snapshot in place of the stock, and say
      which of the two it was. */
  lemma StockIsReplaced(w: World, op: Op)
    requires Inv(w) && Legal(w, op) && CommitOf(w, op).Some? && (op.command.Restore? || op.command.PublishPrivate?)
    ensures var (id, w', p) := (op.request.resource, Next(w, op), op.parameters);
            && id in w.ledgers && id in w'.ledgers
            && (if op.command.Restore? then p.Source?
                else p.Publication? && p.candidate == p.snapshot && w.ledgers[id].row.isPrivate)
            && p.snapshot in w.snapshots && Holds(w'.ledgers[id].stock, w.snapshots[p.snapshot].data.items)
            && CommitOf(w, op).value.stored.receipt.effect == Replaced(p.snapshot, id, op.command.PublishPrivate?)
  {
    CommittedSteps(w, op);
    var id, p := op.request.resource, op.parameters;
    var (applied, effect) := EffectOf(w, op).value;
    SnapshotHolds(w, p.snapshot);
    BookedIsBooked(id, applied.ledgers[id], op.command, op.request, effect);
  }

  lemma EffectKeepsOthers(w: World, id: string, command: Command, p: Parameters, child: string, uuid: string)
    requires id in w.ledgers && Apply(w, id, command, p, child, uuid).Ok?
    ensures var w' := Apply(w, id, command, p, child, uuid).value.0;
            && (!command.Snapshot? ==> w'.snapshots == w.snapshots)
            && (!command.Fork? ==> w'.derivations == w.derivations)
  {
  }

  /** All that a committed request leaves alone: other resources but a forked one, snapshots but
      for a snapshot, derivations but for a fork. */
  lemma OthersAreKept(w: World, op: Op)
    requires Inv(w) && Legal(w, op) && CommitOf(w, op).Some?
    ensures var w' := Next(w, op);
            && w'.ledgers.Keys == w.ledgers.Keys + (if op.command.Fork? then {Workspace(op.uuid)} else {})
            && (forall x :: x in w.ledgers && x != op.request.resource ==> w'.ledgers[x] == w.ledgers[x])
            && (!op.command.Snapshot? ==> w'.snapshots == w.snapshots)
            && (!op.command.Fork? ==> w'.derivations == w.derivations)
  {
    CommittedSteps(w, op);
    NewWorkspaceId(w, op.uuid);
    var w0 := w.(minted := w.minted + {op.uuid, op.uuid'});
    EffectIsLocal(w0, op.request.resource, op.command, op.parameters, Workspace(op.uuid), op.uuid');
    EffectKeepsOthers(w0, op.request.resource, op.command, op.parameters, Workspace(op.uuid), op.uuid');
  }

  /** A call that commits nothing changes nothing. */
  lemma UncommittedChangesNothing(w: World, op: Op)
    requires w.ledgers.Keys <= w.stories.Keys && op.Change? && CommitOf(w, op).None?
    ensures Next(w, op) == w
  {
  }

  // ----- The owner's calls -----------------------------------------------------------

  /** What `manualAdjust` asks for. */
  ghost predicate MayAdjust(w: World, op: Op)
    requires op.Adjust?
  {
    && 0 <= op.available <= MAX_SAFE && IsText(op.sku, 128) && !op.readOnly
    && IsText(op.id, 512) && op.id in w.ledgers
    && var ledger := w.ledgers[op.id];
       && ledger.row.enabled && op.expected == Some(Version(op.id, ledger.row.incarnation, ledger.row.revision))
       && op.sku in ledger.stock && ledger.row.sequence < MAX_SAFE
  }

  /** An adjustment sets the available units of one SKU, makes another revision and records
      another event, all else unchanged, exactly if it may; otherwise it changes nothing. */
  lemma AdjustmentsAdjust(w: World, op: Op)
    requires Inv(w) && op.Adjust?
    ensures ManualAdjust(w, op.readOnly, op.id, op.sku, op.available, op.expected).Ok? <==> MayAdjust(w, op)
    ensures !MayAdjust(w, op) ==> Next(w, op) == w
    ensures MayAdjust(w, op) ==>
              var (was, w') := (w.ledgers[op.id], Next(w, op));
              && w'.ledgers.Keys == w.ledgers.Keys && w'.snapshots == w.snapshots && w'.derivations == w.derivations
              && (forall x :: x in w.ledgers && x != op.id ==> w'.ledgers[x] == w.ledgers[x])
              && var now := w'.ledgers[op.id];
                 && now.row == was.row.(revision := was.row.revision + 1, sequence := was.row.sequence + 1)
                 && now.stock == was.stock[op.sku := Level(op.available, was.stock[op.sku].reserved)]
                 && now.receipts == was.receipts
                 && was.row.sequence + 1 in now.events
                 && now.events[was.row.sequence + 1] == Event(was.row.incarnation, Adjusted(op.sku, op.available))
  {
    if op.id in w.ledgers { assert LedgerSound(w, op.id); }
  }

  /** An access change sets access as told and makes another revision, exactly on a writable
      connection and a resource that exists, enabled or not. */
  lemma AccessIsSet(w: World, op: Op)
    requires Inv(w) && op.SetAccess?
    ensures var may := !op.readOnly && IsText(op.id, 512) && op.id in w.ledgers;
            && (OwnerSetAccess(w, op.readOnly, op.id, op.enabled).Ok? <==> may)
            && (!may ==> Next(w, op) == w)
            && (may ==>
                  var (was, w') := (w.ledgers[op.id], Next(w, op));
                  && w'.ledgers == w.ledgers[op.id := was.(row :=
                       was.row.(enabled := op.enabled, revision := was.row.revision + 1))]
                  && w'.snapshots == w.snapshots && w'.derivations == w.derivations)
  {
  }

  /** Closing removes a workspace with all its rows and its derivation, and nothing else. */
  lemma WorkspaceIsClosed(w: World, op: Op)
    requires Inv(w) && op.Close?
    ensures var may := !op.readOnly && "workspace-" <= op.id && IsText(op.id, 512) && op.id in w.ledgers
                       && w.ledgers[op.id].row.enabled;
            && (OwnerCloseWorkspace(w, op.readOnly, op.id).Ok? <==> may)
            && (!may ==> Next(w, op) == w)
            && (may ==>
                  var w' := Next(w, op);
                  && w'.ledgers == w.ledgers - {op.id} && w'.derivations == w.derivations - {op.id}
                  && w'.snapshots == w.snapshots)
  {
    assert "workspace-" + "" == "workspace-";
  }

  // ----- Reading and inserting stored content ----------------------------------------

  /** Whatever is stored: content is read only under a well-formed identity it really has, and with
      a source that is a version. */
  lemma ContentIsChecked(snapshots: map<Digest, SnapshotRow>, id: Digest)
    ensures Content(snapshots, id) ==
              if id.Foreign? && (|id.text| != 64 || exists i :: 0 <= i < 64 && !IsHex(id.text[i]))
              then Err(InvalidArgument)
              else if id !in snapshots then Err(NotFound)
              else if id != OfSnapshot(snapshots[id].data) then Err(Conflict)
              else if !IsVersion(snapshots[id].data.source) then Err(InvalidArgument)
              else Ok(snapshots[id].data)
  {
  }

  /** Whatever is listed: items make a stock exactly if they are at most 256, each in range under a
      SKU of its own; and the stock is then those items. */
  lemma ItemsAreChecked(items: seq<Item>)
    ensures ReplacedStock(items).Ok? <==>
              && |items| <= 256 && Distinct(items)
              && forall i :: 0 <= i < |items| ==> IsText(items[i].sku, 128) && IsLevel(items[i].level)
    ensures |items| > 256 ==> ReplacedStock(items) == Err(ResourceExhausted)
    ensures ReplacedStock(items).Ok? ==> Holds(ReplacedStock(items).value, items)
  {
    if Inserted(items).Ok? { InsertedAreGood(items); }
    if Distinct(items) && forall i :: 0 <= i < |items| ==> IsItem(items[i]) { InsertedItems(items); }
  }

  lemma InsertedLast(front: seq<Item>, last: Item)
    requires Inserted(front + [last]).Ok?
    ensures Inserted(front).Ok? && IsItem(last) && last.sku !in Inserted(front).value
    ensures Inserted(front + [last]).value == Inserted(front).value[last.sku := last.level]
  {
    assert (front + [last])[..|front|] == front;
  }

  ghost predicate AllItems(items: seq<Item>) { forall i :: 0 <= i < |items| ==> IsItem(items[i]) }

  lemma OneMoreIsGood(stock: map<string, Level>, front: seq<Item>, last: Item)
    requires Distinct(front) && AllItems(front) && Holds(stock, front) && IsItem(last) && last.sku !in stock
    ensures Distinct(front + [last]) && AllItems(front + [last]) && Holds(stock[last.sku := last.level], front + [last])
  {
    forall i | 0 <= i < |front| ensures front[i].sku != last.sku { assert front[i].sku in stock; }
    HoldsOneMore(stock, front, last);
  }

  lemma {:induction false} InsertedAreGood(items: seq<Item>)
    requires Inserted(items).Ok?
    ensures Distinct(items) && AllItems(items) && Holds(Inserted(items).value, items)
  {
    if items != [] {
      var front, last := items[..|items| - 1], items[|items| - 1];
      assert items == front + [last];
      InsertedLast(front, last);
      InsertedAreGood(front);
      OneMoreIsGood(Inserted(front).value, front, last);
    }
  }

  /** What is provisioned. */
  lemma InventoryIsProvisioned(u: string, v: string)
    ensures var w := Provisioned(u, v);
            && w.ledgers.Keys == {"inventory", "spare"} && w.snapshots == map[] && w.derivations == map[]
            && w.ledgers["inventory"]
                 == Ledger(Row(u, 9_007_199_254_740_993, 0, 0, 0, 0, true, true),
                           map["alpha" := Level(100_000, 0), "beta" := Level(200, 0)], map[], map[])
            && w.ledgers["spare"]
                 == Ledger(Row(v, 9_007_199_254_740_993, 0, 0, 0, 0, true, true),
                           map["omega" := Level(7, 0)], map[], map[])
  {
  }

  // ----- Derivations over runs -------------------------------------------------------

  /** A derivation stays filed as long as its workspace lives. */
  lemma DerivationStays(w: World, op: Op, child: string)
    requires Inv(w) && Legal(w, op) && child in w.derivations && child in Next(w, op).ledgers
    ensures child in Next(w, op).derivations && Next(w, op).derivations[child] == w.derivations[child]
  {
    assert DerivationOk(w, child);
    if op.Change? && CommitOf(w, op).Some? {
      OthersAreKept(w, op);
      if op.command.Fork? { WorkspaceIsForked(w, op); }
    }
  }

  lemma {:induction false} DerivationLasts(ws: seq<World>, ops: seq<Op>, i: nat, j: nat, child: string)
    requires IsRun(ws, ops) && i <= j < |ws| && child in ws[i].derivations && child in ws[j].ledgers
    ensures child in ws[j].derivations && ws[j].derivations[child] == ws[i].derivations[child]
    decreases j
  {
    if j > i {
      RunIsSound(ws, ops, i);
      assert DerivationOk(ws[i], child);
      LivesBetween(ws, ops, i, j - 1, j, child);
      DerivationLasts(ws, ops, i, j - 1, child);
      RunIsSound(ws, ops, j - 1);
      NextIsStep(ws, ops, j - 1);
      DerivationStays(ws[j - 1], ops[j - 1], child);
    }
  }

  /** The workspace a fork made is filed as derived from the snapshot the fork was of. */
  ghost predicate IsFiled(w: World, fork: Op, later: World) {
    && fork.Change? && fork.parameters.Source? && fork.parameters.snapshot in w.snapshots
    && var (child, d) := (Workspace(fork.uuid), fork.parameters.snapshot);
       child in later.derivations && later.derivations[child] == Derivation(w.snapshots[d].data.source, d)
  }

  ghost predicate IsStored(fork: Op, w: World) {
    fork.Change? && fork.parameters.Source? && fork.parameters.snapshot in w.snapshots
  }

  lemma ForkFilesDerivation(ws: seq<World>, ops: seq<Op>, i: nat)
    requires IsRun(ws, ops) && i < |ops| && CommitAt(ws, ops, i).Some? && ops[i].command.Fork?
    ensures IsFiled(ws[i], ops[i], ws[i + 1])
  {
    RunIsSound(ws, ops, i);
    NextIsStep(ws, ops, i);
    WorkspaceIsForked(ws[i], ops[i]);
  }

  lemma FiledLasts(ws: seq<World>, ops: seq<Op>, fork: Op, w: World, i: nat, j: nat)
    requires IsRun(ws, ops) && i < j < |ws| && IsFiled(w, fork, ws[i + 1]) && Workspace(fork.uuid) in ws[j].ledgers
    ensures IsFiled(w, fork, ws[j]) && IsStored(fork, ws[j])
  {
    DerivationLasts(ws, ops, i + 1, j, Workspace(fork.uuid));
    DerivedSnapshotsAreKept(ws, ops, j, Workspace(fork.uuid));
  }

  /** From a committed fork on, in every state in which its workspace lives, the workspace is filed
      as derived from the snapshot, and the snapshot is stored: it can be restored at any time. */
  lemma ForksKeepTheirSnapshot(ws: seq<World>, ops: seq<Op>, i: nat, j: nat)
    requires IsRun(ws, ops) && i < j < |ws| && CommitAt(ws, ops, i).Some? && ops[i].command.Fork?
    requires Workspace(ops[i].uuid) in ws[j].ledgers
    ensures IsFiled(ws[i], ops[i], ws[j]) && IsStored(ops[i], ws[j])
  {
    ForkFilesDerivation(ws, ops, i);
    FiledLasts(ws, ops, ops[i], ws[i], i, j);
  }
}
