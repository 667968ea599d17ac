/** With which error a mutation is refused: an independent account, over all histories, of the
    first obstacle a request meets. */
module InventoryRefusals {
  import opened Results
  import opened Text
  import opened InventoryModel
  import opened InventoryInvariant
  import opened InventoryRuns
  import opened InventoryProgress

  /** What stands in the way of the effect of a command. */
  ghost function Obstacle(w: World, id: string, command: Command, p: Parameters): Option<ErrorCode>
    requires id in w.ledgers
  {
    var stock := w.ledgers[id].stock;
    match command
    case Reserve =>
      if !p.Units? || !IsText(p.sku, 128) || !(1 <= p.quantity <= 10_000) then Some(InvalidArgument)
      else if p.sku !in stock then Some(NotFound)
      else if p.quantity > stock[p.sku].available then Some(Conflict)
      else if stock[p.sku].reserved + p.quantity > MAX_SAFE then Some(InvalidArgument)
      else None
    case Release =>
      if !p.Units? || !IsText(p.sku, 128) || !(1 <= p.quantity <= 10_000) then Some(InvalidArgument)
      else if p.sku !in stock then Some(NotFound)
      else if p.quantity > stock[p.sku].reserved then Some(Conflict)
      else if stock[p.sku].available + p.quantity > MAX_SAFE then Some(InvalidArgument)
      else None
    case Snapshot => if p.Nothing? then None else Some(InvalidArgument)
    case Fork =>
      if !p.Source? || !IsDigest(p.snapshot) then Some(InvalidArgument)
      else if p.snapshot !in w.snapshots then Some(NotFound)
      else if |w.ledgers| >= MAX_RESOURCES then Some(ResourceExhausted)
      else None
    case Restore =>
      if !p.Source? || !IsDigest(p.snapshot) then Some(InvalidArgument)
      else if p.snapshot !in w.snapshots then Some(NotFound)
      else None
    case PublishPrivate =>
      if !p.Publication? || !IsDigest(p.snapshot) then Some(InvalidArgument)
      else if p.snapshot !in w.snapshots then Some(NotFound)
      else if !w.ledgers[id].row.isPrivate then Some(PermissionDenied)
      else if p.candidate != p.snapshot then Some(Conflict)
      else None
  }

  /** What stands in the way of the books of a request. */
  ghost function Exhaustion(row: Row): Option<ErrorCode> {
    if !IsRevision(row.revision + 1) then Some(ResourceExhausted)
    else if row.used + 1 >= RECEIPTS_PER_EPOCH && row.epoch >= MAX_SAFE then Some(InvalidArgument)
    else if row.sequence >= MAX_SAFE then Some(InvalidArgument)
    else None
  }

  /** The identity of a request: names within their bounds, an exact epoch, and a digest. */
  ghost predicate IsNamed(request: Identity) {
    && IsText(request.resource, 512) && IsText(request.key, 128) && 0 <= request.epoch <= 9_007_199_254_740_991
    && (request.digest.Foreign? ==>
          |request.digest.text| == 64
          && forall i :: 0 <= i < 64 ==> '0' <= request.digest.text[i] <= '9' || 'a' <= request.digest.text[i] <= 'f')
  }

  /** A version that can be named. */
  ghost predicate IsNameable(v: Version) {
    IsText(v.resource, 512) && IsText(v.generation, 256) && |Decimal(v.revision)| <= 512
  }

  /** A token is 1 to 128 small letters, digits and hyphens. */
  lemma SkuExactly(s: string)
    ensures IsSku(s) <==>
              && 1 <= |s| <= 128
              && forall i :: 0 <= i < |s| ==> 'a' <= s[i] <= 'z' || '0' <= s[i] <= '9' || s[i] == '-'
  {
    if forall i :: 0 <= i < |s| ==> 'a' <= s[i] <= 'z' || '0' <= s[i] <= '9' || s[i] == '-' { PlainLength(s); }
  }

  lemma {:induction false} PlainLength(s: string)
    requires forall i :: 0 <= i < |s| ==> s[i] as int < 0x80
    ensures ByteLength(s) == |s|
  {
    if s != "" { PlainLength(s[1..]); }
  }

  /** What is wrong with a request whatever the database holds. */
  ghost function Malformation(op: Op): Option<ErrorCode>
    requires op.Change?
  {
    var (request, expected) := (op.request, op.context.expected);
    if op.context.aborted then Some(Cancelled)
    else if !IsNamed(request) then Some(InvalidArgument)
    else if expected.None? || expected.value.resource != request.resource then Some(StaleReference)
    else if !IsNameable(expected.value) then Some(InvalidArgument)
    else if request.digest != OfRequest(op.command, expected.value, request.epoch, request.key, op.parameters)
    then Some(Conflict)
    else None
  }

  /** Why a request is refused, if it is. */
  ghost function Refusal(w: World, op: Op): Option<ErrorCode>
    requires op.Change?
  {
    var (id, key) := (op.request.resource, Key(op.request.epoch, op.request.key));
    if Malformation(op).Some? then Malformation(op)
    else if op.readOnly then Some(PermissionDenied)
    else if id !in w.ledgers then Some(NotFound)
    else if !w.ledgers[id].row.enabled then Some(PermissionDenied)
    else
      var row := w.ledgers[id].row;
      if key.epoch >= row.floor && !NeverCommitted(w, id, key)
      then if exists receipt :: HasCommit(w, id, key, Stored(op.request.digest, receipt)) then None else Some(Conflict)
      else if key.epoch != row.epoch then Some(Conflict)
      else if op.context.expected != Some(Version(id, row.incarnation, row.revision)) then Some(StaleReference)
      else if Obstacle(w, id, op.command, op.parameters).Some? then Obstacle(w, id, op.command, op.parameters)
      else Exhaustion(row)
  }

  lemma ApplyIsObstructed(w: World, id: string, command: Command, p: Parameters, child: string, uuid: string)
    requires Inv(w) && Sources(w) && id in w.ledgers && child !in w.ledgers
    ensures var (r, code) := (Apply(w, id, command, p, child, uuid), Obstacle(w, id, command, p));
            if code.Some? then r == Err(code.value) else r.Ok?
  {
    assert LedgerSound(w, id);
    if p.Units? && p.sku in w.ledgers[id].stock { assert SkuOk(p.sku, w.ledgers[id].stock[p.sku]); }
    if p.Source? || p.Publication? { StoredContentIsGood(w, p.snapshot); }
  }

  lemma BooksAreExhausted(id: string, ledger: Ledger, command: Command, request: Identity, effect: Effect)
    ensures var (r, code) := (Booked(id, ledger, command, request, effect), Exhaustion(ledger.row));
            if code.Some? then r == Err(code.value) else r.Ok?
  {
  }

  lemma PreparedIsWellFormed(op: Op)
    requires op.Change?
    ensures var (r, code) := (Prepared(op.command, op.request, op.parameters, op.context), Malformation(op));
            if code.Some? then r == Err(code.value) else r == Ok(op.context.expected.value)
  {
  }

  lemma EffectIsObstructed(w: World, op: Op)
    requires Inv(w) && Sources(w) && Legal(w, op) && op.Change? && op.request.resource in w.ledgers
    ensures var id := op.request.resource;
            var w0 := w.(minted := w.minted + {op.uuid, op.uuid'});
            var r := Apply(w0, id, op.command, op.parameters, Workspace(op.uuid), op.uuid');
            var code := Obstacle(w, id, op.command, op.parameters);
            if code.Some? then r == Err(code.value)
            else
              && r.Ok? && id in r.value.0.ledgers && id in r.value.0.stories
              && Exhaustion(r.value.0.ledgers[id].row) == Exhaustion(w.ledgers[id].row)
  {
    var id := op.request.resource;
    var w0, child := w.(minted := w.minted + {op.uuid, op.uuid'}), Workspace(op.uuid);
    NewWorkspaceId(w, op.uuid);
    MoreMinted(w, {op.uuid, op.uuid'});
    forall x | x in w0.snapshots ensures SourceOk(w0.snapshots[x]) { assert SourceOk(w.snapshots[x]); }
    ApplyIsObstructed(w0, id, op.command, op.parameters, child, op.uuid');
    assert Obstacle(w0, id, op.command, op.parameters) == Obstacle(w, id, op.command, op.parameters);
    if Apply(w0, id, op.command, op.parameters, child, op.uuid').Ok? {
      EffectIsLocal(w0, id, op.command, op.parameters, child, op.uuid');
    }
  }

  lemma PerformanceIsRefused(w: World, op: Op)
    requires Inv(w) && Sources(w) && Legal(w, op) && op.Change? && op.request.resource in w.ledgers
    requires op.context.expected.Some?
    ensures var (id, row) := (op.request.resource, w.ledgers[op.request.resource].row);
            var expected := op.context.expected.value;
            var r := Performed(w, row, op.command, op.request, op.parameters, expected, op.uuid, op.uuid');
            if op.request.epoch != row.epoch then r == Err(Conflict)
            else if expected != Version(id, row.incarnation, row.revision) then r == Err(StaleReference)
            else
              var obstacle := Obstacle(w, id, op.command, op.parameters);
              if obstacle.Some? then r == Err(obstacle.value)
              else if Exhaustion(row).Some? then r == Err(Exhaustion(row).value)
              else r.Ok?
  {
    var id := op.request.resource;
    EffectIsObstructed(w, op);
    var w0 := w.(minted := w.minted + {op.uuid, op.uuid'});
    var applied := Apply(w0, id, op.command, op.parameters, Workspace(op.uuid), op.uuid');
    if applied.Ok? {
      BooksAreExhausted(id, applied.value.0.ledgers[id], op.command, op.request, applied.value.1);
    }
  }

  /** A mutation is refused with exactly the error of the first obstacle, and succeeds, as a commit
      or as a replay, exactly where there is none. */
  lemma RefusedExactlyBecause(w: World, op: Op)
    requires Inv(w) && Sources(w) && Legal(w, op) && op.Change?
    ensures match Refusal(w, op)
            case Some(code) => OutcomeAt(w, op) == Err(code)
            case None => OutcomeAt(w, op).Ok?
  {
    var id, key := op.request.resource, Key(op.request.epoch, op.request.key);
    PreparedIsWellFormed(op);
    if Malformation(op).None? && !op.readOnly {
      AccessExactly(w, id, true);
      if id in w.ledgers && w.ledgers[id].row.enabled {
        ReceiptsAreTheWindow(w, id, key);
        assert LedgerSound(w, id);
        if key in w.ledgers[id].receipts {
          ReplayIsExact(w, op);
        } else {
          PerformanceIsRefused(w, op);
        }
      }
    }
  }

  lemma ReplayIsExact(w: World, op: Op)
    requires Inv(w) && op.Change? && op.request.resource in w.ledgers
    requires Key(op.request.epoch, op.request.key) in w.ledgers[op.request.resource].receipts
    ensures var (id, key) := (op.request.resource, Key(op.request.epoch, op.request.key));
            (exists receipt :: HasCommit(w, id, key, Stored(op.request.digest, receipt))) <==>
              w.ledgers[id].receipts[key].digest == op.request.digest
  {
    var id, key := op.request.resource, Key(op.request.epoch, op.request.key);
    ReceiptsAreTheWindow(w, id, key);
    var stored := w.ledgers[id].receipts[key];
    assert HasCommit(w, id, key, Stored(stored.digest, stored.receipt));
  }

  // ----- The owner's calls and the reads ---------------------------------------------

  /** Why a resource may not be written or read. */
  ghost function Barred(w: World, id: string, requireAccess: bool): Option<ErrorCode> {
    if !IsText(id, 512) then Some(InvalidArgument)
    else if id !in w.ledgers then Some(NotFound)
    else if requireAccess && !w.ledgers[id].row.enabled then Some(PermissionDenied)
    else None
  }

  ghost function OwnerRefusal(w: World, op: Op): Option<ErrorCode>
    requires !op.Change?
  {
    match op
    case Adjust(readOnly, id, sku, available, expected) =>
      if !(0 <= available <= MAX_SAFE) || !IsText(sku, 128) then Some(InvalidArgument)
      else if readOnly then Some(PermissionDenied)
      else if Barred(w, id, true).Some? then Barred(w, id, true)
      else
        var ledger := w.ledgers[id];
        if expected != Some(Version(id, ledger.row.incarnation, ledger.row.revision)) then Some(StaleReference)
        else if sku !in ledger.stock then Some(NotFound)
        else if ledger.row.sequence >= MAX_SAFE then Some(InvalidArgument)
        else None
    case SetAccess(readOnly, id, _) => if readOnly then Some(PermissionDenied) else Barred(w, id, false)
    case Close(readOnly, id) =>
      if !("workspace-" <= id) then Some(InvalidArgument)
      else if readOnly then Some(PermissionDenied)
      else Barred(w, id, true)
  }

  ghost function OwnerOutcome(w: World, op: Op): Option<ErrorCode>
    requires !op.Change? && w.ledgers.Keys <= w.stories.Keys
  {
    match op
    case Adjust(readOnly, id, sku, available, expected) =>
      var r := ManualAdjust(w, readOnly, id, sku, available, expected);
      if r.Ok? then None else Some(r.code)
    case SetAccess(readOnly, id, enabled) =>
      var r := OwnerSetAccess(w, readOnly, id, enabled);
      if r.Ok? then None else Some(r.code)
    case Close(readOnly, id) =>
      var r := OwnerCloseWorkspace(w, readOnly, id);
      if r.Ok? then None else Some(r.code)
  }

  /** The owner's calls are refused with exactly the error of the first obstacle. */
  lemma OwnerRefusedExactlyBecause(w: World, op: Op)
    requires !op.Change? && w.ledgers.Keys <= w.stories.Keys
    ensures OwnerOutcome(w, op) == OwnerRefusal(w, op)
  {
    assert Workspace("") == "workspace-";
    if op.Adjust? {
      AccessExactly(w, op.id, true);
    } else {
      AccessExactly(w, op.id, op.Close?);
    }
  }

  ghost function ObserveRefusal(w: World, q: Query, aborted: bool): Option<ErrorCode> {
    var c := q.cursor;
    if aborted then Some(Cancelled)
    else if !IsText(q.resource, 512) || !IsText(q.scope, 128) || !(1 <= q.limit <= 256) then Some(InvalidArgument)
    else if c.Some? && (!IsNameable(c.value.version) || !IsText(c.value.scope, 128) || !IsText(c.value.token, 1024))
    then Some(InvalidArgument)
    else if c.Some? && (c.value.scope != q.scope || c.value.version.resource != q.resource) then Some(StaleReference)
    else if q.scope != "stock" then Some(NotFound)
    else if Barred(w, q.resource, true).Some? then Barred(w, q.resource, true)
    else
      var row := w.ledgers[q.resource].row;
      if c.Some? && c.value.version != Version(q.resource, row.incarnation, row.revision) then Some(StaleReference)
      else if c.Some? && !IsSku(c.value.token) then Some(InvalidArgument)
      else None
  }

  /** An observation is refused with exactly the error of the first obstacle. */
  lemma ObserveRefusedExactlyBecause(w: World, q: Query, aborted: bool)
    ensures match ObserveRefusal(w, q, aborted)
            case Some(code) => Observe(w, q, aborted) == Err(code)
            case None => Observe(w, q, aborted).Ok?
  {
    AccessExactly(w, q.resource, true);
  }

  ghost function PollRefusal(w: World, id: string, cursor: Option<EventCursor>, limit: nat, aborted: bool)
    : Option<ErrorCode>
  {
    if aborted then Some(Cancelled)
    else if !(1 <= limit <= 256) then Some(InvalidArgument)
    else if Barred(w, id, true).Some? then Barred(w, id, true)
    else if cursor.Some? && cursor.value.resource != id then Some(StaleReference)
    else if cursor.Some? && !(0 <= cursor.value.sequence <= MAX_SAFE) then Some(InvalidArgument)
    else None
  }

  /** A poll is refused with exactly the error of the first obstacle. */
  lemma PollRefusedExactlyBecause(w: World, id: string, cursor: Option<EventCursor>, limit: nat, aborted: bool)
    ensures match PollRefusal(w, id, cursor, limit, aborted)
            case Some(code) => Events(w, id, cursor, limit, aborted) == Err(code)
            case None => Events(w, id, cursor, limit, aborted).Ok?
  {
    AccessExactly(w, id, true);
  }

  ghost function LookupRefusal(w: World, request: Identity, context: Context): Option<ErrorCode> {
    var (id, key) := (request.resource, Key(request.epoch, request.key));
    if context.aborted then Some(Cancelled)
    else if !IsNamed(request) then Some(InvalidArgument)
    else if Barred(w, id, true).Some? then Barred(w, id, true)
    else if context.expected.Some? && context.expected.value.resource != id then Some(StaleReference)
    else if request.epoch < w.ledgers[id].row.floor || NeverCommitted(w, id, key) then None
    else if exists receipt :: HasCommit(w, id, key, Stored(request.digest, receipt)) then None
    else Some(Conflict)
  }

  /** A lookup is refused with exactly the error of the first obstacle. */
  lemma LookupRefusedExactlyBecause(w: World, request: Identity, context: Context)
    requires Inv(w)
    ensures match LookupRefusal(w, request, context)
            case Some(code) => Lookup(w, request, context) == Err(code)
            case None => Lookup(w, request, context).Ok?
  {
    AccessExactly(w, request.resource, true);
    if MayLookUp(w, request, context) {
      LookupIsExact(w, request, context);
      ReceiptsAreTheWindow(w, request.resource, Key(request.epoch, request.key));
    }
  }
}
