/** The inventory application's tables as values, and what each transaction makes of them.
    The class `Inventory` is proved against these functions; the lemmas about runs are
    proved about them. */
module InventoryModel {
  import opened Results
  import opened Text
  import Canonical = CanonicalJson

  const MAX_SAFE := 9_007_199_254_740_991
  const RECEIPTS_PER_EPOCH := 128
  const EVENT_WINDOW := 128
  const SPARE_SNAPSHOTS := 128
  const MAX_RESOURCES := 64
  const MAX_ITEMS := 256
  const FIRST_REVISION := 9_007_199_254_740_993

  // ----- Values ----------------------------------------------------------------------

  /** A revision token is the canonical decimal of a number; it is compared as that number. */
  datatype Version = Version(resource: string, generation: string, revision: nat)

  datatype Level = Level(available: int, reserved: int)
  datatype Item = Item(sku: string, level: Level)

  /** A row of `resources`. */
  datatype Row = Row(incarnation: string, revision: nat, epoch: nat, floor: nat, used: nat,
                     sequence: nat, enabled: bool, isPrivate: bool)

  datatype Command = Reserve | Release | Snapshot | Fork | Restore | PublishPrivate

  /** The parameters of a request. `Malformed` is any JSON without the shape of one of these. */
  datatype Parameters =
    | Units(sku: string, quantity: int)
    | Nothing
    | Source(snapshot: Digest)
    | Publication(snapshot: Digest, candidate: Digest)
    | Malformed(json: Canonical.Json)

  /** Exact request digests as one-to-one functions of what they are taken of. `Foreign` is
      any other text given where a digest is expected. */
  datatype Digest =
    | OfRequest(command: Command, expected: Version, epoch: int, key: string, parameters: Parameters)
    | OfSnapshot(data: SnapshotData)
    | Foreign(text: string)

  datatype Identity = Identity(resource: string, epoch: int, key: string, digest: Digest)
  datatype Context = Context(expected: Option<Version>, aborted: bool)

  datatype Effect =
    | Moved(sku: string, level: Level)
    | Captured(snapshot: Digest, source: Version)
    | Forked(workspace: Version, source: Version, snapshot: Digest)
    | Replaced(snapshot: Digest, destination: string, published: bool)

  datatype Receipt = Receipt(command: Command, request: Identity, committed: Version, effect: Effect)
  datatype Reply = Reply(deduplicated: bool, receipt: Receipt)

  /** The primary key of `receipts` within one resource, and the rest of the row. */
  datatype Key = Key(epoch: int, name: string)
  datatype Stored = Stored(digest: Digest, receipt: Receipt)

  datatype Payload =
    | Requested(command: Command, key: string, committed: Version)
    | Adjusted(sku: string, available: int)
  datatype Event = Event(generation: string, payload: Payload)

  datatype SnapshotData = SnapshotData(source: Version, items: seq<Item>)
  datatype SnapshotRow = SnapshotRow(resource: string, revision: nat, data: SnapshotData, serial: nat)
  datatype Derivation = Derivation(source: Version, snapshot: Digest)

  /** The rows of all tables that belong to one resource and go with it. */
  datatype Ledger = Ledger(row: Row, stock: map<string, Level>, receipts: map<Key, Stored>, events: map<nat, Event>)

  /** All that ever happened to one resource: committed requests and recorded events. Not
      stored anywhere; kept for the proofs, and kept when the resource is closed. */
  datatype Commit = Commit(key: Key, stored: Stored)
  datatype Story = Story(commits: seq<Commit>, log: seq<Event>)

  /** The database, with the UUIDs ever drawn and the story of every resource. */
  datatype World = World(ledgers: map<string, Ledger>, snapshots: map<Digest, SnapshotRow>,
                         derivations: map<string, Derivation>,
                         minted: set<string>, stories: map<string, Story>)

  // ----- Checks on single values -----------------------------------------------------

  predicate InRange(n: int) { 0 <= n <= MAX_SAFE }

  predicate IsLevel(level: Level) { InRange(level.available) && InRange(level.reserved) }

  /** What a page token must look like: `/^[a-z0-9-]+$/` and at most 128 bytes. */
  predicate IsSku(s: string) {
    IsText(s, 128) && forall i :: 0 <= i < |s| ==> 'a' <= s[i] <= 'z' || IsDigit(s[i]) || s[i] == '-'
  }

  /** Revisions of at most 512 digits. */
  predicate IsRevision(n: nat) { |Decimal(n)| <= 512 }

  predicate IsVersion(v: Version) {
    IsText(v.resource, 512) && IsText(v.generation, 256) && IsRevision(v.revision)
  }

  predicate IsHex(c: char) { IsDigit(c) || 'a' <= c <= 'f' }

  /** 64 hexadecimal digits, as every digest has. */
  predicate IsDigest(d: Digest) {
    d.Foreign? ==> |d.text| == 64 && forall i :: 0 <= i < 64 ==> IsHex(d.text[i])
  }

  predicate IsIdentity(i: Identity) {
    IsText(i.resource, 512) && InRange(i.epoch) && IsText(i.key, 128) && IsDigest(i.digest)
  }

  function VersionOf(id: string, row: Row): Version {
    Version(id, row.incarnation, row.revision)
  }

  // ----- Stock -----------------------------------------------------------------------

  /** `SELECT ... ORDER BY sku`. */
  function ItemsOf(stock: map<string, Level>): (items: seq<Item>)
    ensures |items| == |stock|
  {
    var skus := Sorted(stock.Keys);
    seq(|skus|, i requires 0 <= i < |skus| => Item(skus[i], stock[skus[i]]))
  }

  predicate IsItem(item: Item) { IsText(item.sku, 128) && IsLevel(item.level) }

  /** The stock rows after inserting items one by one into an empty table. */
  function Inserted(items: seq<Item>): Result<map<string, Level>> {
    if items == [] then Ok(map[]) else
      var last := items[|items| - 1];
      var stock :- Inserted(items[..|items| - 1]);
      var _ :- Require(IsItem(last), InvalidArgument);
      var _ :- Require(last.sku !in stock, BackendFailed);
      Ok(stock[last.sku := last.level])
  }

  /** `replaceStock`. */
  function ReplacedStock(items: seq<Item>): Result<map<string, Level>> {
    if |items| > MAX_ITEMS then Err(ResourceExhausted) else Inserted(items)
  }

  // ----- Snapshots -------------------------------------------------------------------

  predicate Referenced(derivations: map<string, Derivation>, id: Digest) {
    exists child :: child in derivations && derivations[child].snapshot == id
  }

  /** The snapshots of a resource that no derivation refers to. */
  function Spare(snapshots: map<Digest, SnapshotRow>, derivations: map<string, Derivation>,
                 resource: string): set<Digest>
  {
    set id | id in snapshots && snapshots[id].resource == resource && !Referenced(derivations, id)
  }

  function Newer(snapshots: map<Digest, SnapshotRow>, ids: set<Digest>, id: Digest): set<Digest>
    requires ids <= snapshots.Keys && id in snapshots
  {
    set x | x in ids && snapshots[x].serial > snapshots[id].serial
  }

  /** Delete the spare snapshots of a resource beyond the newest 128. */
  function Pruned(snapshots: map<Digest, SnapshotRow>, derivations: map<string, Derivation>, resource: string)
    : map<Digest, SnapshotRow>
  {
    var spare := Spare(snapshots, derivations, resource);
    map id | id in snapshots && !(id in spare && |Newer(snapshots, spare, id)| >= SPARE_SNAPSHOTS) :: snapshots[id]
  }

  /** `snapshot`: the stored content behind a snapshot identity. */
  function Content(snapshots: map<Digest, SnapshotRow>, id: Digest): Result<SnapshotData> {
    var _ :- Require(IsDigest(id), InvalidArgument);
    var _ :- Require(id in snapshots, NotFound);
    var data := snapshots[id].data;
    var _ :- Require(OfSnapshot(data) == id, Conflict);
    var _ :- Require(IsVersion(data.source), InvalidArgument);
    Ok(data)
  }

  // ----- The effect of a command: `apply` --------------------------------------------

  /** Reserve and release: `delta` units from available to reserved. */
  function Shifted(stock: map<string, Level>, sku: string, delta: int): Result<map<string, Level>> {
    var _ :- Require(sku in stock, NotFound);
    var level := stock[sku];
    var _ :- Require(if delta >= 0 then level.available >= delta else level.reserved >= -delta, Conflict);
    var next := Level(level.available - delta, level.reserved + delta);
    var _ :- Require(IsLevel(next), InvalidArgument);
    Ok(stock[sku := next])
  }

  function ApplyShift(w: World, id: string, command: Command, p: Parameters): Result<(World, Effect)>
    requires id in w.ledgers
  {
    var _ :- Require(p.Units? && IsText(p.sku, 128) && 1 <= p.quantity <= 10_000, InvalidArgument);
    var ledger := w.ledgers[id];
    var stock :- Shifted(ledger.stock, p.sku, if command == Reserve then p.quantity else -p.quantity);
    Ok((w.(ledgers := w.ledgers[id := ledger.(stock := stock)]), Moved(p.sku, stock[p.sku])))
  }

  function ApplySnapshot(w: World, id: string, p: Parameters): Result<(World, Effect)>
    requires id in w.ledgers
  {
    var _ :- Require(p.Nothing?, InvalidArgument);
    var ledger := w.ledgers[id];
    var source := VersionOf(id, ledger.row);
    var data := SnapshotData(source, ItemsOf(ledger.stock));
    var digest := OfSnapshot(data);
    var captured :=
      if digest in w.snapshots then w.snapshots
      else w.snapshots[digest := SnapshotRow(id, source.revision, data, ledger.row.sequence + 1)];
    Ok((w.(snapshots := Pruned(captured, w.derivations, id)), Captured(digest, source)))
  }

  const NEW_ROW := Row("", 1, 0, 0, 0, 0, true, true)

  function ApplyFork(w: World, p: Parameters, child: string, uuid: string): Result<(World, Effect)> {
    var _ :- Require(p.Source?, InvalidArgument);
    var data :- Content(w.snapshots, p.snapshot);
    var _ :- Require(|w.ledgers| < MAX_RESOURCES, ResourceExhausted);
    var _ :- Require(child !in w.ledgers, BackendFailed);
    var stock :- ReplacedStock(data.items);
    var row := NEW_ROW.(incarnation := uuid);
    Ok((w.(ledgers := w.ledgers[child := Ledger(row, stock, map[], map[])],
           derivations := w.derivations[child := Derivation(data.source, p.snapshot)],
           stories := w.stories[child := Story([], [])]),
        Forked(VersionOf(child, row), data.source, p.snapshot)))
  }

  function ApplyReplace(w: World, id: string, command: Command, p: Parameters, uuid: string): Result<(World, Effect)>
    requires id in w.ledgers
  {
    var publish := command == PublishPrivate;
    var _ :- Require(if publish then p.Publication? else p.Source?, InvalidArgument);
    var data :- Content(w.snapshots, p.snapshot);
    var ledger := w.ledgers[id];
    var _ :- Require(!publish || ledger.row.isPrivate, PermissionDenied);
    var _ :- Require(!publish || p.candidate == p.snapshot, Conflict);
    var stock :- ReplacedStock(data.items);
    var row := if publish then ledger.row else ledger.row.(incarnation := uuid);
    Ok((w.(ledgers := w.ledgers[id := ledger.(row := row, stock := stock)]), Replaced(p.snapshot, id, publish)))
  }

  /** `child` and `uuid` are the new resource id and the new incarnation a command may need. */
  function Apply(w: World, id: string, command: Command, p: Parameters, child: string, uuid: string)
    : Result<(World, Effect)>
    requires id in w.ledgers
  {
    match command
    case Reserve => ApplyShift(w, id, command, p)
    case Release => ApplyShift(w, id, command, p)
    case Snapshot => ApplySnapshot(w, id, p)
    case Fork => ApplyFork(w, p, child, uuid)
    case Restore => ApplyReplace(w, id, command, p, uuid)
    case PublishPrivate => ApplyReplace(w, id, command, p, uuid)
  }

  // ----- Receipts and events ---------------------------------------------------------

  /** The last event number that has left the window. */
  function Horizon(sequence: nat): nat {
    if sequence > EVENT_WINDOW then sequence - EVENT_WINDOW else 0
  }

  /** `recordEvent`: append, and drop what left the window. */
  function Recorded(ledger: Ledger, payload: Payload): Result<Ledger> {
    var sequence := ledger.row.sequence + 1;
    var _ :- Require(sequence <= MAX_SAFE, InvalidArgument);
    var events := ledger.events[sequence := Event(ledger.row.incarnation, payload)];
    Ok(ledger.(row := ledger.row.(sequence := sequence),
               events := map n | n in events && n > Horizon(sequence) :: events[n]))
  }

  /** The receipt's row, and the epoch rollover when the epoch is full. */
  function Filed(ledger: Ledger, used: nat, key: Key, stored: Stored): Result<Ledger> {
    var receipts := ledger.receipts[key := stored];
    if used + 1 >= RECEIPTS_PER_EPOCH then
      var _ :- Require(ledger.row.epoch + 1 <= MAX_SAFE, InvalidArgument);
      var epoch, floor := ledger.row.epoch + 1, ledger.row.epoch;
      Ok(ledger.(row := ledger.row.(epoch := epoch, floor := floor, used := 0),
                 receipts := map k | k in receipts && k.epoch >= floor :: receipts[k]))
    else
      Ok(ledger.(row := ledger.row.(used := used + 1), receipts := receipts))
  }

  /** What `mutate` writes for the resource once the effect is in place. */
  function Booked(id: string, ledger: Ledger, command: Command, request: Identity, effect: Effect)
    : Result<(Ledger, Commit, Event)>
  {
    var row := ledger.row.(revision := ledger.row.revision + 1);
    var _ :- Require(IsRevision(row.revision), ResourceExhausted);
    var committed := VersionOf(id, row);
    var key := Key(request.epoch, request.key);
    var stored := Stored(request.digest, Receipt(command, request, committed, effect));
    var payload := Requested(command, request.key, committed);
    var filed :- Filed(ledger.(row := row), row.used, key, stored);
    var recorded :- Recorded(filed, payload);
    Ok((recorded, Commit(key, stored), Event(row.incarnation, payload)))
  }

  function Finished(w: World, id: string, command: Command, request: Identity, effect: Effect): Result<(World, Receipt)>
    requires id in w.ledgers && id in w.stories
  {
    var (ledger, commit, event) :- Booked(id, w.ledgers[id], command, request, effect);
    var story := w.stories[id];
    Ok((w.(ledgers := w.ledgers[id := ledger],
           stories := w.stories[id := Story(story.commits + [commit], story.log + [event])]),
        commit.stored.receipt))
  }

  // ----- The write transactions ------------------------------------------------------

  /** `resource`: the row, once its text and access are checked. */
  function Access(w: World, id: string, requireAccess: bool): Result<Row> {
    var _ :- Require(IsText(id, 512), InvalidArgument);
    var _ :- Require(id in w.ledgers, NotFound);
    var row := w.ledgers[id].row;
    var _ :- Require(!requireAccess || row.enabled, PermissionDenied);
    Ok(row)
  }

  /** The checks `mutate` makes before it opens a transaction. */
  function Prepared(command: Command, request: Identity, p: Parameters, context: Context): Result<Version> {
    var _ :- Require(!context.aborted, Cancelled);
    var _ :- Require(IsIdentity(request), InvalidArgument);
    var _ :- Require(context.expected.Some? && request.resource == context.expected.value.resource, StaleReference);
    var expected := context.expected.value;
    var _ :- Require(IsVersion(expected), InvalidArgument);
    var _ :- Require(OfRequest(command, expected, request.epoch, request.key, p) == request.digest, Conflict);
    Ok(expected)
  }

  function Workspace(uuid: string): string { "workspace-" + uuid }

  /** The transaction of `mutate` once there is no receipt for the key. Two UUIDs are set
      aside for it, whether or not the command draws them. */
  function Performed(w: World, row: Row, command: Command, request: Identity, p: Parameters, expected: Version,
                     uuid: string, uuid': string): Result<(World, Reply)>
    requires w.ledgers.Keys <= w.stories.Keys && request.resource in w.ledgers
  {
    var id := request.resource;
    var _ :- Require(request.epoch == row.epoch, Conflict);
    var _ :- Require(VersionOf(id, row) == expected, StaleReference);
    var (applied, effect) :- Apply(w.(minted := w.minted + {uuid, uuid'}), id, command, p, Workspace(uuid), uuid');
    var (finished, receipt) :- Finished(applied, id, command, request, effect);
    Ok((finished, Reply(false, receipt)))
  }

  /** The transaction of `mutate`: replay the receipt, or perform the request. */
  function Mutated(w: World, command: Command, request: Identity, p: Parameters, expected: Version,
                   uuid: string, uuid': string): Result<(World, Reply)>
    requires w.ledgers.Keys <= w.stories.Keys
  {
    var row :- Access(w, request.resource, true);
    var receipts, key := w.ledgers[request.resource].receipts, Key(request.epoch, request.key);
    if key in receipts then
      var _ :- Require(receipts[key].digest == request.digest, Conflict);
      Ok((w, Reply(true, receipts[key].receipt)))
    else
      Performed(w, row, command, request, p, expected, uuid, uuid')
  }

  function Mutate(w: World, readOnly: bool, command: Command, request: Identity, p: Parameters, context: Context,
                  uuid: string, uuid': string): Result<(World, Reply)>
    requires w.ledgers.Keys <= w.stories.Keys
  {
    var expected :- Prepared(command, request, p, context);
    var _ :- Require(!readOnly, PermissionDenied);
    Mutated(w, command, request, p, expected, uuid, uuid')
  }

  function ManualAdjust(w: World, readOnly: bool, id: string, sku: string, available: int, expected: Option<Version>)
    : Result<World>
    requires w.ledgers.Keys <= w.stories.Keys
  {
    var _ :- Require(InRange(available) && IsText(sku, 128), InvalidArgument);
    var _ :- Require(!readOnly, PermissionDenied);
    var row :- Access(w, id, true);
    var _ :- Require(Some(VersionOf(id, row)) == expected, StaleReference);
    var ledger, story := w.ledgers[id], w.stories[id];
    var _ :- Require(sku in ledger.stock, NotFound);
    var adjusted := ledger.(row := row.(revision := row.revision + 1),
                            stock := ledger.stock[sku := ledger.stock[sku].(available := available)]);
    var recorded :- Recorded(adjusted, Adjusted(sku, available));
    Ok(w.(ledgers := w.ledgers[id := recorded],
          stories := w.stories[id := story.(log := story.log + [Event(row.incarnation, Adjusted(sku, available))])]))
  }

  function OwnerSetAccess(w: World, readOnly: bool, id: string, enabled: bool): Result<World> {
    var _ :- Require(!readOnly, PermissionDenied);
    var row :- Access(w, id, false);
    Ok(w.(ledgers := w.ledgers[id := w.ledgers[id].(row := row.(enabled := enabled, revision := row.revision + 1))]))
  }

  /** Closing a workspace deletes its rows everywhere; its snapshots stay. */
  function OwnerCloseWorkspace(w: World, readOnly: bool, id: string): Result<World> {
    var _ :- Require(Workspace("") <= id, InvalidArgument);
    var _ :- Require(!readOnly, PermissionDenied);
    var _ :- Access(w, id, true);
    Ok(w.(ledgers := w.ledgers - {id}, derivations := w.derivations - {id}))
  }

  // ----- The read transactions -------------------------------------------------------

  datatype Cursor = Cursor(version: Version, scope: string, token: string)
  datatype Query = Query(resource: string, scope: string, limit: int, cursor: Option<Cursor>)

  datatype PageRow = PageRow(item: Item, epoch: nat, floor: nat)
  datatype Page = Page(version: Version, items: seq<PageRow>, next: Option<Cursor>) {
    predicate Complete() { next.None? }
  }

  /** The SDK's `query`. */
  function CheckedQuery(q: Query): Result<Unit> {
    var _ :- Require(IsText(q.resource, 512) && IsText(q.scope, 128) && 1 <= q.limit <= 256, InvalidArgument);
    if q.cursor.None? then Ok(Unit) else
      var c := q.cursor.value;
      var _ :- Require(IsVersion(c.version) && IsText(c.scope, 128) && IsText(c.token, 1024), InvalidArgument);
      Require(c.scope == q.scope && c.version.resource == q.resource, StaleReference)
  }

  /** The rows after a SKU in order, at most `limit` of them. */
  function After(items: seq<Item>, sku: string): seq<Item> {
    if items == [] then [] else
      (if Below(sku, items[0].sku) then [items[0]] else []) + After(items[1..], sku)
  }

  function Take<T>(s: seq<T>, n: nat): seq<T> { if |s| <= n then s else s[..n] }

  function Token(cursor: Option<Cursor>): string { if cursor.Some? then cursor.value.token else "" }

  function PageRows(items: seq<Item>, row: Row): seq<PageRow> {
    seq(|items|, i requires 0 <= i < |items| => PageRow(items[i], row.epoch, row.floor))
  }

  /** The first `limit` of the remaining rows, and a cursor if there are more. */
  function PageOf(version: Version, row: Row, rest: seq<Item>, limit: nat): Page
    requires limit > 0
  {
    var selected := Take(rest, limit);
    Page(version, PageRows(selected, row),
         if |rest| > limit then Some(Cursor(version, "stock", selected[limit - 1].sku)) else None)
  }

  /** `observe`. */
  function Observe(w: World, q: Query, aborted: bool): Result<Page> {
    var _ :- Require(!aborted, Cancelled);
    var _ :- CheckedQuery(q);
    var _ :- Require(q.scope == "stock", NotFound);
    var row :- Access(w, q.resource, true);
    var version := VersionOf(q.resource, row);
    var _ :- Require(q.cursor.Some? ==> q.cursor.value.version == version, StaleReference);
    var _ :- Require(q.cursor.Some? ==> IsSku(q.cursor.value.token), InvalidArgument);
    Ok(PageOf(version, row, After(ItemsOf(w.ledgers[q.resource].stock), Token(q.cursor)), q.limit))
  }

  datatype Recovery =
    | Found(result: Receipt)
    | OutcomeUnknown
    | RetentionExpired(current: nat)

  function Lookup(w: World, request: Identity, context: Context): Result<Recovery> {
    var _ :- Require(!context.aborted, Cancelled);
    var _ :- Require(IsIdentity(request), InvalidArgument);
    var row :- Access(w, request.resource, true);
    var _ :- Require(context.expected.Some? ==> context.expected.value.resource == request.resource, StaleReference);
    if request.epoch < row.floor then Ok(RetentionExpired(row.epoch)) else
      var receipts, key := w.ledgers[request.resource].receipts, Key(request.epoch, request.key);
      if key !in receipts then Ok(OutcomeUnknown) else
        var _ :- Require(receipts[key].digest == request.digest, Conflict);
        Ok(Found(receipts[key].receipt))
  }

  datatype EventCursor = EventCursor(resource: string, generation: string, sequence: int)
  datatype Delivered = Delivered(sequence: nat, event: Event)
  datatype Poll = Poll(next: EventCursor, resync: bool, events: seq<Delivered>)

  /** The stored events from `from` on, in order, while they last and at most `limit`. */
  function EventsFrom(events: map<nat, Event>, from: nat, last: nat, limit: nat): seq<Delivered>
    decreases last + 1 - from
  {
    if from > last || limit == 0 then []
    else if from in events then [Delivered(from, events[from])] + EventsFrom(events, from + 1, last, limit - 1)
    else EventsFrom(events, from + 1, last, limit)
  }

  function Events(w: World, id: string, cursor: Option<EventCursor>, limit: nat, aborted: bool): Result<Poll>
  {
    var _ :- Require(!aborted, Cancelled);
    var _ :- Require(1 <= limit <= 256, InvalidArgument);
    var row :- Access(w, id, true);
    var _ :- Require(cursor.Some? ==> cursor.value.resource == id, StaleReference);
    var _ :- Require(cursor.Some? ==> InRange(cursor.value.sequence), InvalidArgument);
    var after: nat := if cursor.Some? then cursor.value.sequence else 0;
    var resync := cursor.Some? && (cursor.value.generation != row.incarnation
                                   || after < row.sequence - EVENT_WINDOW || after > row.sequence);
    var events := if resync then [] else EventsFrom(w.ledgers[id].events, after + 1, row.sequence, limit);
    var sequence := if resync then row.sequence
                    else if events != [] then events[|events| - 1].sequence
                    else if after < row.sequence then after else row.sequence;
    Ok(Poll(EventCursor(id, row.incarnation, sequence), resync, events))
  }

  // ----- Provisioning and steps ------------------------------------------------------

  /** The database `provision` makes with two fresh UUIDs. */
  function Provisioned(uuid: string, uuid': string): World {
    var row := NEW_ROW.(revision := FIRST_REVISION);
    World(map["inventory" := Ledger(row.(incarnation := uuid),
                                    map["alpha" := Level(100_000, 0), "beta" := Level(200, 0)], map[], map[]),
              "spare" := Ledger(row.(incarnation := uuid'), map["omega" := Level(7, 0)], map[], map[])],
          map[], map[], {uuid, uuid'},
          map["inventory" := Story([], []), "spare" := Story([], [])])
  }

  /** One call of a write transaction, on a connection that may be read-only. */
  datatype Op =
    | Change(readOnly: bool, command: Command, request: Identity, parameters: Parameters, context: Context,
             uuid: string, uuid': string)
    | Adjust(readOnly: bool, id: string, sku: string, available: int, expected: Option<Version>)
    | SetAccess(readOnly: bool, id: string, enabled: bool)
    | Close(readOnly: bool, id: string)

  /** The UUIDs an operation would draw have never been drawn. */
  ghost predicate Legal(w: World, op: Op) {
    op.Change? ==> op.uuid !in w.minted && op.uuid' !in w.minted && op.uuid != op.uuid'
  }

  /** The database after a call: what the transaction committed, or the database as it was. */
  function Next(w: World, op: Op): World
    requires w.ledgers.Keys <= w.stories.Keys
  {
    match op
    case Change(readOnly, command, request, parameters, context, uuid, uuid') =>
      var r := Mutate(w, readOnly, command, request, parameters, context, uuid, uuid');
      if r.Ok? then r.value.0 else w
    case Adjust(readOnly, id, sku, available, expected) =>
      var r := ManualAdjust(w, readOnly, id, sku, available, expected);
      if r.Ok? then r.value else w
    case SetAccess(readOnly, id, enabled) =>
      var r := OwnerSetAccess(w, readOnly, id, enabled);
      if r.Ok? then r.value else w
    case Close(readOnly, id) =>
      var r := OwnerCloseWorkspace(w, readOnly, id);
      if r.Ok? then r.value else w
  }
}
