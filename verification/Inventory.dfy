/** The inventory as the application writes it: rows updated in place inside transactions that
    roll back on error. Every method is proved against `InventoryModel`. */
module InventoryStore {
  import opened Results
  import opened Text
  import opened InventoryModel

  class Inventory {
    const readOnly: bool
    var ledgers: map<string, Ledger>
    var snapshots: map<Digest, SnapshotRow>
    var derivations: map<string, Derivation>
    ghost var minted: set<string>
    ghost var stories: map<string, Story>

    ghost predicate Valid()
      reads this
    {
      ledgers.Keys <= stories.Keys
    }

    ghost function State(): World
      reads this
    {
      World(ledgers, snapshots, derivations, minted, stories)
    }

    constructor (readOnly: bool, uuid: string, uuid': string)
      ensures Valid() && State() == Provisioned(uuid, uuid') && this.readOnly == readOnly
    {
      this.readOnly := readOnly;
      var row := NEW_ROW.(revision := FIRST_REVISION);
      ledgers := map["inventory" := Ledger(row.(incarnation := uuid),
                                           map["alpha" := Level(100_000, 0), "beta" := Level(200, 0)], map[], map[]),
                     "spare" := Ledger(row.(incarnation := uuid'), map["omega" := Level(7, 0)], map[], map[])];
      snapshots, derivations := map[], map[];
      minted, stories := {uuid, uuid'}, map["inventory" := Story([], []), "spare" := Story([], [])];
    }

    // ----- Statements on one resource --------------------------------------------------

    /** `UPDATE resources ... WHERE id=?`. */
    method UpdateRow(id: string, row: Row)
      requires id in ledgers
      modifies this`ledgers
      ensures ledgers == old(ledgers)[id := old(ledgers)[id].(row := row)]
    {
      ledgers := ledgers[id := ledgers[id].(row := row)];
    }

    /** `UPDATE stock`, `DELETE FROM stock` or `INSERT INTO stock` for one resource. */
    method UpdateStock(id: string, stock: map<string, Level>)
      requires id in ledgers
      modifies this`ledgers
      ensures ledgers == old(ledgers)[id := old(ledgers)[id].(stock := stock)]
    {
      ledgers := ledgers[id := ledgers[id].(stock := stock)];
    }

    /** `resource`. */
    method Resource(id: string, requireAccess: bool) returns (r: Result<Row>)
      ensures r == Access(State(), id, requireAccess)
    {
      if !IsText(id, 512) { return Err(InvalidArgument); }
      if id !in ledgers { return Err(NotFound); }
      if requireAccess && !ledgers[id].row.enabled { return Err(PermissionDenied); }
      return Ok(ledgers[id].row);
    }

    /** `recordEvent`: number the event, insert it, delete what left the window. */
    method RecordEvent(id: string, payload: Payload) returns (r: Result<Unit>)
      requires id in ledgers
      modifies this`ledgers
      ensures match Recorded(old(ledgers)[id], payload)
              case Ok(ledger) => r == Ok(Unit) && ledgers == old(ledgers)[id := ledger]
              case Err(code) => r == Err(code)
    {
      var row := ledgers[id].row;
      var sequence := row.sequence + 1;
      if sequence > MAX_SAFE { return Err(InvalidArgument); }
      UpdateRow(id, row.(sequence := sequence));
      var events := ledgers[id].events[sequence := Event(row.incarnation, payload)];
      ledgers := ledgers[id := ledgers[id].(events := events)];
      ledgers := ledgers[id := ledgers[id].(events := map n | n in events && !(n <= Horizon(sequence)) :: events[n])];
      assert ledgers[id].events == Recorded(old(ledgers)[id], payload).value.events;
      r := Ok(Unit);
    }

    /** The receipt, the use count, and the rollover that deletes what fell below the floor. */
    method FileReceipt(id: string, used: nat, key: Key, stored: Stored) returns (r: Result<Unit>)
      requires id in ledgers
      modifies this`ledgers
      ensures match Filed(old(ledgers)[id], used, key, stored)
              case Ok(ledger) => r == Ok(Unit) && ledgers == old(ledgers)[id := ledger]
              case Err(code) => r == Err(code)
    {
      var row, receipts := ledgers[id].row, ledgers[id].receipts[key := stored];
      ledgers := ledgers[id := ledgers[id].(receipts := receipts)];
      if used + 1 >= RECEIPTS_PER_EPOCH {
        var epoch := row.epoch + 1;
        if epoch > MAX_SAFE { return Err(InvalidArgument); }
        var floor := if epoch - 1 > 0 then epoch - 1 else 0;
        UpdateRow(id, row.(epoch := epoch, floor := floor, used := 0));
        ledgers := ledgers[id := ledgers[id].(receipts := map k | k in receipts && !(k.epoch < floor) :: receipts[k])];
        assert ledgers[id].receipts == Filed(old(ledgers)[id], used, key, stored).value.receipts;
      } else {
        UpdateRow(id, row.(used := used + 1));
      }
      r := Ok(Unit);
    }

    /** `replaceStock`: delete all rows, then insert the items one by one. */
    method ReplaceStock(id: string, items: seq<Item>) returns (r: Result<Unit>)
      requires id in ledgers
      modifies this`ledgers
      ensures match ReplacedStock(items)
              case Ok(stock) => r == Ok(Unit) && ledgers == old(ledgers)[id := old(ledgers)[id].(stock := stock)]
              case Err(code) => r == Err(code)
    {
      if |items| > MAX_ITEMS { return Err(ResourceExhausted); }
      UpdateStock(id, map[]);
      for i := 0 to |items|
        invariant Inserted(items[..i]).Ok?
        invariant ledgers == old(ledgers)[id := old(ledgers)[id].(stock := Inserted(items[..i]).value)]
      {
        InsertedNext(items, i);
        if !IsItem(items[i]) { return Err(InvalidArgument); }
        if items[i].sku in ledgers[id].stock { return Err(BackendFailed); }
        UpdateStock(id, ledgers[id].stock[items[i].sku := items[i].level]);
      }
      assert items[..|items|] == items;
      r := Ok(Unit);
    }

    // ----- Effects ---------------------------------------------------------------------

    /** Reserve and release. */
    method Shift(id: string, command: Command, p: Parameters) returns (r: Result<Effect>)
      requires id in ledgers
      modifies this`ledgers
      ensures match ApplyShift(old(State()), id, command, p)
              case Ok((w, effect)) => r == Ok(effect) && State() == w
              case Err(code) => r == Err(code)
    {
      if !(p.Units? && IsText(p.sku, 128) && 1 <= p.quantity <= 10_000) { return Err(InvalidArgument); }
      if p.sku !in ledgers[id].stock { return Err(NotFound); }
      var level := ledgers[id].stock[p.sku];
      if (if command == Reserve then level.available else level.reserved) < p.quantity { return Err(Conflict); }
      var delta := if command == Reserve then p.quantity else -p.quantity;
      var next := Level(level.available - delta, level.reserved + delta);
      if !InRange(next.available) || !InRange(next.reserved) { return Err(InvalidArgument); }
      UpdateStock(id, ledgers[id].stock[p.sku := next]);
      r := Ok(Moved(p.sku, next));
    }

    method TakeSnapshot(id: string, p: Parameters) returns (r: Result<Effect>)
      requires id in ledgers
      modifies this`snapshots
      ensures match ApplySnapshot(old(State()), id, p)
              case Ok((w, effect)) => r == Ok(effect) && State() == w
              case Err(code) => r == Err(code)
    {
      if !p.Nothing? { return Err(InvalidArgument); }
      var row := ledgers[id].row;
      var data := SnapshotData(VersionOf(id, row), ItemsOf(ledgers[id].stock));
      var digest := OfSnapshot(data);
      if digest !in snapshots {
        snapshots := snapshots[digest := SnapshotRow(id, row.revision, data, row.sequence + 1)];
      }
      ghost var captured := snapshots;
      snapshots := Pruned(snapshots, derivations, id);
      assert State() == old(State()).(snapshots := Pruned(captured, derivations, id));
      r := Ok(Captured(digest, data.source));
    }

    method ForkWorkspace(p: Parameters, child: string, uuid: string) returns (r: Result<Effect>)
      requires Valid()
      modifies this
      ensures match ApplyFork(old(State()), p, child, uuid)
              case Ok((w, effect)) => r == Ok(effect) && State() == w
              case Err(code) => r == Err(code)
    {
      if !p.Source? { return Err(InvalidArgument); }
      var content := Content(snapshots, p.snapshot);
      if content.Err? { return Err(content.code); }
      var data := content.value;
      if !(|ledgers| < MAX_RESOURCES) { return Err(ResourceExhausted); }
      if child in ledgers { return Err(BackendFailed); }
      var row := NEW_ROW.(incarnation := uuid);
      ledgers := ledgers[child := Ledger(row, map[], map[], map[])];
      var replaced := ReplaceStock(child, data.items);
      if replaced.Err? { return Err(replaced.code); }
      derivations := derivations[child := Derivation(data.source, p.snapshot)];
      stories := stories[child := Story([], [])];
      r := Ok(Forked(VersionOf(child, row), data.source, p.snapshot));
    }

    /** Restore and private publication. */
    method ReplaceContent(id: string, command: Command, p: Parameters, uuid: string) returns (r: Result<Effect>)
      requires id in ledgers
      modifies this`ledgers
      ensures match ApplyReplace(old(State()), id, command, p, uuid)
              case Ok((w, effect)) => r == Ok(effect) && State() == w
              case Err(code) => r == Err(code)
    {
      if !(if command == PublishPrivate then p.Publication? else p.Source?) { return Err(InvalidArgument); }
      var content := Content(snapshots, p.snapshot);
      if content.Err? { return Err(content.code); }
      if command == PublishPrivate {
        if !ledgers[id].row.isPrivate { return Err(PermissionDenied); }
        if p.candidate != p.snapshot { return Err(Conflict); }
      }
      var replaced := ReplaceStock(id, content.value.items);
      if replaced.Err? { return Err(replaced.code); }
      if command != PublishPrivate { UpdateRow(id, ledgers[id].row.(incarnation := uuid)); }
      r := Ok(Replaced(p.snapshot, id, command == PublishPrivate));
    }

    /** `apply`. */
    method ApplyCommand(id: string, command: Command, p: Parameters, child: string, uuid: string)
      returns (r: Result<Effect>)
      requires Valid() && id in ledgers
      modifies this
      ensures match Apply(old(State()), id, command, p, child, uuid)
              case Ok((w, effect)) => r == Ok(effect) && State() == w
              case Err(code) => r == Err(code)
      ensures r.Ok? ==> Valid() && id in ledgers
    {
      match command {
        case Reserve => r := Shift(id, command, p);
        case Release => r := Shift(id, command, p);
        case Snapshot => r := TakeSnapshot(id, p);
        case Fork => r := ForkWorkspace(p, child, uuid);
        case Restore => r := ReplaceContent(id, command, p, uuid);
        case PublishPrivate => r := ReplaceContent(id, command, p, uuid);
      }
    }

    // ----- Write transactions ----------------------------------------------------------

    /** What `mutate` writes for the resource after the effect. */
    method Book(id: string, command: Command, request: Identity, effect: Effect) returns (r: Result<Receipt>)
      requires id in ledgers
      modifies this`ledgers
      ensures match Booked(id, old(ledgers)[id], command, request, effect)
              case Ok((ledger, commit, event)) => r == Ok(commit.stored.receipt)
                  && ledgers == old(ledgers)[id := ledger]
              case Err(code) => r == Err(code)
    {
      var row := ledgers[id].row;
      var revision := row.revision + 1;
      if !IsRevision(revision) { return Err(ResourceExhausted); }
      UpdateRow(id, row.(revision := revision));
      var committed := VersionOf(id, ledgers[id].row);
      var receipt := Receipt(command, request, committed, effect);
      var filed := FileReceipt(id, row.used, Key(request.epoch, request.key), Stored(request.digest, receipt));
      if filed.Err? { return Err(filed.code); }
      var recorded := RecordEvent(id, Requested(command, request.key, committed));
      if recorded.Err? { return Err(recorded.code); }
      r := Ok(receipt);
    }

    /** The rows, and the story kept beside them. */
    method Finish(id: string, command: Command, request: Identity, effect: Effect) returns (r: Result<Receipt>)
      requires id in ledgers && id in stories
      modifies this`ledgers, this`stories
      ensures match Finished(old(State()), id, command, request, effect)
              case Ok((w, receipt)) => r == Ok(receipt) && State() == w
              case Err(code) => r == Err(code)
    {
      ghost var booked, story := Booked(id, ledgers[id], command, request, effect), stories[id];
      r := Book(id, command, request, effect);
      if r.Ok? {
        stories := stories[id := Story(story.commits + [booked.value.1], story.log + [booked.value.2])];
      }
    }

    /** The body of the transaction of `mutate`. It may leave half-written rows on error. */
    method MutateRows(command: Command, request: Identity, p: Parameters, expected: Version, uuid: string,
                      uuid': string)
      returns (r: Result<Reply>)
      requires Valid()
      modifies this
      ensures match Mutated(old(State()), command, request, p, expected, uuid, uuid')
              case Ok((w, reply)) => r == Ok(reply) && State() == w
              case Err(code) => r == Err(code)
    {
      var id, key := request.resource, Key(request.epoch, request.key);
      var row := Resource(id, true);
      if row.Err? { return Err(row.code); }
      if key in ledgers[id].receipts {
        var stored := ledgers[id].receipts[key];
        if stored.digest != request.digest { return Err(Conflict); }
        return Ok(Reply(true, stored.receipt));
      }
      r := PerformRows(row.value, command, request, p, expected, uuid, uuid');
    }

    /** The rest of it, for a key without a receipt. */
    method PerformRows(row: Row, command: Command, request: Identity, p: Parameters, expected: Version, uuid: string,
                       uuid': string)
      returns (r: Result<Reply>)
      requires Valid() && request.resource in ledgers
      modifies this
      ensures match Performed(old(State()), row, command, request, p, expected, uuid, uuid')
              case Ok((w, reply)) => r == Ok(reply) && State() == w
              case Err(code) => r == Err(code)
    {
      var id := request.resource;
      if request.epoch != row.epoch { return Err(Conflict); }
      if VersionOf(id, row) != expected { return Err(StaleReference); }
      minted := minted + {uuid, uuid'};
      var effect := ApplyCommand(id, command, p, Workspace(uuid), uuid');
      if effect.Err? { return Err(effect.code); }
      var receipt := Finish(id, command, request, effect.value);
      if receipt.Err? { return Err(receipt.code); }
      r := Ok(Reply(false, receipt.value));
    }

    /** `mutate`: a committed request, a replayed receipt, or an error and the rows as before. */
    method MutateRequest(command: Command, request: Identity, p: Parameters, context: Context, uuid: string,
                         uuid': string)
      returns (r: Result<Reply>)
      requires Valid()
      requires Legal(State(), Change(readOnly, command, request, p, context, uuid, uuid'))
      modifies this
      ensures match Mutate(old(State()), readOnly, command, request, p, context, uuid, uuid')
              case Ok((w, reply)) => r == Ok(reply) && State() == w
              case Err(code) => r == Err(code) && State() == old(State())
      ensures State() == Next(old(State()), Change(readOnly, command, request, p, context, uuid, uuid'))
    {
      var prepared := Prepared(command, request, p, context);
      if prepared.Err? { return Err(prepared.code); }
      if readOnly { return Err(PermissionDenied); }
      var begin := (ledgers, snapshots, derivations);
      ghost var begun := (minted, stories);
      r := MutateRows(command, request, p, prepared.value, uuid, uuid');
      if r.Err? {
        ledgers, snapshots, derivations := begin.0, begin.1, begin.2;
        minted, stories := begun.0, begun.1;
      }
    }

    /** `manualAdjust`. */
    method AdjustStock(id: string, sku: string, available: int, expected: Option<Version>) returns (r: Result<Unit>)
      requires Valid()
      modifies this
      ensures r.Err? <==> ManualAdjust(old(State()), readOnly, id, sku, available, expected).Err?
      ensures r.Err? ==> r.code == ManualAdjust(old(State()), readOnly, id, sku, available, expected).code
      ensures State() == Next(old(State()), Adjust(readOnly, id, sku, available, expected))
    {
      if !InRange(available) || !IsText(sku, 128) { return Err(InvalidArgument); }
      if readOnly { return Err(PermissionDenied); }
      var begin := ledgers;
      var row := Resource(id, true);
      if row.Err? { return Err(row.code); }
      if Some(VersionOf(id, row.value)) != expected { return Err(StaleReference); }
      if sku !in ledgers[id].stock { return Err(NotFound); }
      UpdateStock(id, ledgers[id].stock[sku := ledgers[id].stock[sku].(available := available)]);
      UpdateRow(id, row.value.(revision := row.value.revision + 1));
      r := RecordEvent(id, Adjusted(sku, available));
      if r.Err? {
        ledgers := begin;
      } else {
        var event := Event(row.value.incarnation, Adjusted(sku, available));
        stories := stories[id := stories[id].(log := stories[id].log + [event])];
      }
    }

    /** `ownerSetAccess`. */
    method SetAccessTo(id: string, enabled: bool) returns (r: Result<Unit>)
      requires Valid()
      modifies this`ledgers
      ensures r.Err? <==> OwnerSetAccess(old(State()), readOnly, id, enabled).Err?
      ensures r.Err? ==> r.code == OwnerSetAccess(old(State()), readOnly, id, enabled).code
      ensures State() == Next(old(State()), SetAccess(readOnly, id, enabled))
    {
      if readOnly { return Err(PermissionDenied); }
      var row := Resource(id, false);
      if row.Err? { return Err(row.code); }
      UpdateRow(id, row.value.(enabled := enabled, revision := row.value.revision + 1));
      r := Ok(Unit);
    }

    /** `ownerCloseWorkspace`. */
    method CloseWorkspace(id: string) returns (r: Result<Unit>)
      requires Valid()
      modifies this`ledgers, this`derivations
      ensures r.Err? <==> OwnerCloseWorkspace(old(State()), readOnly, id).Err?
      ensures r.Err? ==> r.code == OwnerCloseWorkspace(old(State()), readOnly, id).code
      ensures State() == Next(old(State()), Close(readOnly, id))
    {
      if !(Workspace("") <= id) { return Err(InvalidArgument); }
      if readOnly { return Err(PermissionDenied); }
      var row := Resource(id, true);
      if row.Err? { return Err(row.code); }
      ledgers, derivations := ledgers - {id}, derivations - {id};
      r := Ok(Unit);
    }

    // ----- Read transactions -----------------------------------------------------------

    /** Select one row more than asked for, to know whether there are more. */
    method SelectPage(id: string, current: Version, row: Row, after: string, limit: nat) returns (page: Page)
      requires id in ledgers && limit > 0
      ensures page == PageOf(current, row, After(ItemsOf(ledgers[id].stock), after), limit)
    {
      var rest := After(ItemsOf(ledgers[id].stock), after);
      var values := Take(rest, limit + 1);
      TakeTwice(rest, limit);
      var more, selected := |values| > limit, Take(values, limit);
      page := Page(current, PageRows(selected, row),
                   if more then Some(Cursor(current, "stock", selected[|selected| - 1].sku)) else None);
    }

    /** `observe`. */
    method ObserveStock(q: Query, aborted: bool) returns (r: Result<Page>)
      ensures r == Observe(State(), q, aborted)
    {
      if aborted { return Err(Cancelled); }
      var checked := CheckedQuery(q);
      if checked.Err? { return Err(checked.code); }
      if q.scope != "stock" { return Err(NotFound); }
      var row := Resource(q.resource, true);
      if row.Err? { return Err(row.code); }
      var current, after := VersionOf(q.resource, row.value), "";
      if q.cursor.Some? {
        if q.cursor.value.version != current { return Err(StaleReference); }
        after := q.cursor.value.token;
        if !IsSku(after) { return Err(InvalidArgument); }
      }
      var page := SelectPage(q.resource, current, row.value, after, q.limit);
      return Ok(page);
    }

    /** `lookup`. */
    method LookUp(request: Identity, context: Context) returns (r: Result<Recovery>)
      ensures r == Lookup(State(), request, context)
    {
      if context.aborted { return Err(Cancelled); }
      if !IsIdentity(request) { return Err(InvalidArgument); }
      var row := Resource(request.resource, true);
      if row.Err? { return Err(row.code); }
      if context.expected.Some? && context.expected.value.resource != request.resource { return Err(StaleReference); }
      if request.epoch < row.value.floor { return Ok(RetentionExpired(row.value.epoch)); }
      var receipts, key := ledgers[request.resource].receipts, Key(request.epoch, request.key);
      if key !in receipts { return Ok(OutcomeUnknown); }
      if receipts[key].digest != request.digest { return Err(Conflict); }
      return Ok(Found(receipts[key].receipt));
    }

    /** `events`. */
    method PollEvents(id: string, cursor: Option<EventCursor>, limit: nat, aborted: bool) returns (r: Result<Poll>)
      ensures r == Events(State(), id, cursor, limit, aborted)
    {
      if aborted { return Err(Cancelled); }
      if !(1 <= limit <= 256) { return Err(InvalidArgument); }
      var found := Resource(id, true);
      if found.Err? { return Err(found.code); }
      var row, after: nat, resync := found.value, 0, false;
      if cursor.Some? {
        if cursor.value.resource != id { return Err(StaleReference); }
        if !InRange(cursor.value.sequence) { return Err(InvalidArgument); }
        after := cursor.value.sequence;
        resync := cursor.value.generation != row.incarnation || after < Horizon(row.sequence) || after > row.sequence;
      }
      var events := if resync then [] else EventsFrom(ledgers[id].events, after + 1, row.sequence, limit);
      var sequence := if resync then row.sequence
                      else if |events| > 0 then events[|events| - 1].sequence
                      else if after < row.sequence then after else row.sequence;
      return Ok(Poll(EventCursor(id, row.incarnation, sequence), resync, events));
    }
  }

  lemma TakeTwice<T>(s: seq<T>, n: nat)
    ensures Take(Take(s, n + 1), n) == Take(s, n)
    ensures |Take(s, n + 1)| > n <==> |s| > n
  {}

  // ----- Inserting one by one ----------------------------------------------------------

  /** What the next insertion makes of the rows so far, and that a failure stands. */
  lemma InsertedNext(items: seq<Item>, i: nat)
    requires i < |items| && Inserted(items[..i]).Ok?
    ensures var stock, item := Inserted(items[..i]).value, items[i];
            if !IsItem(item) then Inserted(items) == Err(InvalidArgument)
            else if item.sku in stock then Inserted(items) == Err(BackendFailed)
            else Inserted(items[..i + 1]) == Ok(stock[item.sku := item.level])
  {
    assert items[..i + 1][..i] == items[..i];
    if Inserted(items[..i + 1]).Err? { InsertedFails(items, i + 1); }
  }

  lemma {:induction false} InsertedFails(items: seq<Item>, n: nat)
    requires n <= |items| && Inserted(items[..n]).Err?
    ensures Inserted(items) == Inserted(items[..n])
  {
    if n < |items| {
      assert items[..|items| - 1][..n] == items[..n];
      InsertedFails(items[..|items| - 1], n);
    } else {
      assert items[..n] == items;
    }
  }
}
