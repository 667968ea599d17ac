/** When a request commits: exactly when the conditions a caller can know are met. No check of
    stored content, no budget but the documented ones, and no clash of ids ever stops it. */
module InventoryProgress {
  import opened Results
  import opened Text
  import opened Sets
  import opened InventoryModel
  import opened InventoryInvariant
  import opened InventoryRuns

  // ----- The sources of stored snapshots ---------------------------------------------

  ghost predicate SourceOk(s: SnapshotRow) { IsVersion(s.data.source) }

  /** Every stored snapshot shows a version that can be named in a request. */
  ghost predicate Sources(w: World) {
    forall id {:trigger SourceOk(w.snapshots[id])} :: id in w.snapshots ==> SourceOk(w.snapshots[id])
  }

  lemma ApplyKeepsSources(w: World, id: string, command: Command, p: Parameters, child: string, uuid: string)
    requires Sources(w) && id in w.ledgers && Apply(w, id, command, p, child, uuid).Ok?
    requires IsVersion(VersionOf(id, w.ledgers[id].row))
    ensures Sources(Apply(w, id, command, p, child, uuid).value.0)
  {
    var w' := Apply(w, id, command, p, child, uuid).value.0;
    forall x | x in w'.snapshots ensures SourceOk(w'.snapshots[x]) {
      if x in w.snapshots { assert SourceOk(w.snapshots[x]); }
    }
  }

  lemma NextKeepsSources(w: World, op: Op)
    requires w.ledgers.Keys <= w.stories.Keys && Sources(w)
    ensures Sources(Next(w, op))
  {
    if CommitOf(w, op).Some? {
      var w0 := w.(minted := w.minted + {op.uuid, op.uuid'});
      forall x | x in w0.snapshots ensures SourceOk(w0.snapshots[x]) { assert SourceOk(w.snapshots[x]); }
      ApplyKeepsSources(w0, op.request.resource, op.command, op.parameters, Workspace(op.uuid), op.uuid');
      var w1 := Apply(w0, op.request.resource, op.command, op.parameters, Workspace(op.uuid), op.uuid').value.0;
      forall x | x in Next(w, op).snapshots ensures SourceOk(Next(w, op).snapshots[x]) {
        assert SourceOk(w1.snapshots[x]);
      }
    } else {
      forall x | x in Next(w, op).snapshots ensures SourceOk(Next(w, op).snapshots[x]) {
        assert SourceOk(w.snapshots[x]);
      }
    }
  }

  lemma {:induction false} RunKeepsSources(ws: seq<World>, ops: seq<Op>, i: nat)
    requires IsRun(ws, ops) && i < |ws|
    ensures Sources(ws[i])
  {
    if i > 0 {
      RunKeepsSources(ws, ops, i - 1);
      RunIsSound(ws, ops, i - 1);
      NextIsStep(ws, ops, i - 1);
      NextKeepsSources(ws[i - 1], ops[i - 1]);
    }
  }

  // ----- When an effect is possible --------------------------------------------------

  /** What a command needs of its parameters, its resource and the database. */
  ghost predicate Feasible(w: World, id: string, command: Command, p: Parameters)
    requires id in w.ledgers
  {
    var ledger := w.ledgers[id];
    match command
    case Reserve =>
      && p.Units? && 1 <= p.quantity <= 10_000 && p.sku in ledger.stock
      && p.quantity <= ledger.stock[p.sku].available && ledger.stock[p.sku].reserved + p.quantity <= MAX_SAFE
    case Release =>
      && p.Units? && 1 <= p.quantity <= 10_000 && p.sku in ledger.stock
      && p.quantity <= ledger.stock[p.sku].reserved && ledger.stock[p.sku].available + p.quantity <= MAX_SAFE
    case Snapshot => p.Nothing?
    case Fork => p.Source? && p.snapshot in w.snapshots && |w.ledgers| < MAX_RESOURCES
    case Restore => p.Source? && p.snapshot in w.snapshots
    case PublishPrivate =>
      && p.Publication? && p.snapshot in w.snapshots && ledger.row.isPrivate
      && p.candidate == p.snapshot
  }

  /** A stored snapshot always passes the checks made when it is read: it matches its identity,
      and its items go into an empty table without error. */
  lemma StoredContentIsGood(w: World, d: Digest)
    requires Inv(w) && Sources(w)
    ensures Content(w.snapshots, d).Ok? <==> d in w.snapshots
    ensures d in w.snapshots ==>
              Content(w.snapshots, d) == Ok(w.snapshots[d].data) && ReplacedStock(w.snapshots[d].data.items).Ok?
  {
    if d in w.snapshots {
      assert SnapshotOk(d, w.snapshots[d], w.stories, None);
      assert SourceOk(w.snapshots[d]);
      ContentIsOk(w, None, d);
    }
  }

  lemma ShiftExactly(w: World, id: string, command: Command, p: Parameters)
    requires Inv(w) && id in w.ledgers && (command.Reserve? || command.Release?)
    ensures ApplyShift(w, id, command, p).Ok? <==> Feasible(w, id, command, p)
  {
    assert LedgerSound(w, id);
    if p.Units? && p.sku in w.ledgers[id].stock { assert SkuOk(p.sku, w.ledgers[id].stock[p.sku]); }
  }

  /** An effect is possible exactly when the command is feasible. */
  lemma ApplyExactly(w: World, id: string, command: Command, p: Parameters, child: string, uuid: string)
    requires Inv(w) && Sources(w) && id in w.ledgers && child !in w.ledgers
    ensures Apply(w, id, command, p, child, uuid).Ok? <==> Feasible(w, id, command, p)
  {
    if command.Reserve? || command.Release? {
      ShiftExactly(w, id, command, p);
    } else if p.Source? || p.Publication? {
      StoredContentIsGood(w, p.snapshot);
    }
  }

  /** Numbers are left for another revision, epoch and event. */
  ghost predicate HasRoom(row: Row) {
    && IsRevision(row.revision + 1)
    && (row.used + 1 < RECEIPTS_PER_EPOCH || row.epoch < MAX_SAFE)
    && row.sequence < MAX_SAFE
  }

  lemma BookedExactly(id: string, ledger: Ledger, command: Command, request: Identity, effect: Effect)
    ensures Booked(id, ledger, command, request, effect).Ok? <==> HasRoom(ledger.row)
  {
  }

  /** What stands before a write to a resource, or a read that needs access. */
  lemma AccessExactly(w: World, id: string, requireAccess: bool)
    ensures Access(w, id, requireAccess) ==
              if !IsText(id, 512) then Err(InvalidArgument)
              else if id !in w.ledgers then Err(NotFound)
              else if requireAccess && !w.ledgers[id].row.enabled then Err(PermissionDenied)
              else Ok(w.ledgers[id].row)
  {
  }

  /** The caller's side: a well-formed request, bound to the current version and epoch of an
      accessible resource, under a key that was never committed. */
  ghost predicate IsCurrent(w: World, op: Op)
    requires op.Change?
  {
    var (id, request) := (op.request.resource, op.request);
    && !op.context.aborted && !op.readOnly
    && IsText(id, 512) && IsText(request.key, 128) && 0 <= request.epoch <= MAX_SAFE
    && id in w.ledgers && w.ledgers[id].row.enabled && request.epoch == w.ledgers[id].row.epoch
    && var version := Version(id, w.ledgers[id].row.incarnation, w.ledgers[id].row.revision);
       && op.context.expected == Some(version) && IsText(version.generation, 256) && IsRevision(version.revision)
       && request.digest == OfRequest(op.command, version, request.epoch, request.key, op.parameters)
       && NeverCommitted(w, id, Key(request.epoch, request.key))
  }

  /** A request commits exactly when it is current, its command is feasible, and there is room. */
  lemma CommitsExactlyWhen(w: World, op: Op)
    requires Inv(w) && Sources(w) && Legal(w, op) && op.Change?
    ensures CommitOf(w, op).Some? <==>
              && IsCurrent(w, op)
              && Feasible(w, op.request.resource, op.command, op.parameters)
              && HasRoom(w.ledgers[op.request.resource].row)
  {
    var id, key := op.request.resource, Key(op.request.epoch, op.request.key);
    if Prepared(op.command, op.request, op.parameters, op.context).Ok? && !op.readOnly && Access(w, id, true).Ok? {
      ReceiptsAreTheWindow(w, id, key);
      assert LedgerSound(w, id);
      if key !in w.ledgers[id].receipts { PerformedExactly(w, op); }
    }
  }

  lemma PerformedExactly(w: World, op: Op)
    requires Inv(w) && Sources(w) && Legal(w, op) && op.Change? && op.request.resource in w.ledgers
    requires op.context.expected.Some?
    ensures var (id, row) := (op.request.resource, w.ledgers[op.request.resource].row);
            var expected := op.context.expected.value;
            Performed(w, row, op.command, op.request, op.parameters, expected, op.uuid, op.uuid').Ok? <==>
              && op.request.epoch == row.epoch && VersionOf(id, row) == op.context.expected.value
              && Feasible(w, id, op.command, op.parameters) && HasRoom(row)
  {
    var id := op.request.resource;
    var w0, child := w.(minted := w.minted + {op.uuid, op.uuid'}), Workspace(op.uuid);
    NewWorkspaceId(w, op.uuid);
    MoreMinted(w, {op.uuid, op.uuid'});
    forall x | x in w0.snapshots ensures SourceOk(w0.snapshots[x]) { assert SourceOk(w.snapshots[x]); }
    ApplyExactly(w0, id, op.command, op.parameters, child, op.uuid');
    var applied := Apply(w0, id, op.command, op.parameters, child, op.uuid');
    if applied.Ok? {
      EffectIsLocal(w0, id, op.command, op.parameters, child, op.uuid');
      BookedExactly(id, applied.value.0.ledgers[id], op.command, op.request, applied.value.1);
    }
  }

  /** The same in every state of every run. */
  lemma CommitsExactlyInRuns(ws: seq<World>, ops: seq<Op>, i: nat)
    requires IsRun(ws, ops) && i < |ops| && ops[i].Change?
    ensures CommitAt(ws, ops, i).Some? <==>
              && IsCurrent(ws[i], ops[i])
              && Feasible(ws[i], ops[i].request.resource, ops[i].command, ops[i].parameters)
              && HasRoom(ws[i].ledgers[ops[i].request.resource].row)
  {
    RunIsSound(ws, ops, i);
    RunKeepsSources(ws, ops, i);
    NextIsStep(ws, ops, i);
    CommitsExactlyWhen(ws[i], ops[i]);
  }

  // ----- The budget of resources -----------------------------------------------------

  lemma PerformedIsBounded(w: World, op: Op)
    requires Inv(w) && Legal(w, op) && op.Change? && CommitOf(w, op).Some? && |w.ledgers| <= MAX_RESOURCES
    ensures |Next(w, op).ledgers| <= MAX_RESOURCES
  {
    var id, w0, child := op.request.resource, w.(minted := w.minted + {op.uuid, op.uuid'}), Workspace(op.uuid);
    NewWorkspaceId(w, op.uuid);
    EffectIsLocal(w0, id, op.command, op.parameters, child, op.uuid');
    var applied := Apply(w0, id, op.command, op.parameters, child, op.uuid').value.0;
    assert Next(w, op).ledgers.Keys == applied.ledgers.Keys;
    SameSize(Next(w, op).ledgers, applied.ledgers);
    SameSize(w.ledgers, w0.ledgers);
    if op.command.Fork? {
      assert |w.ledgers| < MAX_RESOURCES;
      assert applied.ledgers.Keys == w.ledgers.Keys + {child};
    } else {
      SameSize(applied.ledgers, w.ledgers);
    }
    assert |applied.ledgers| == |applied.ledgers.Keys| && |w.ledgers| == |w.ledgers.Keys|;
  }

  lemma SameSize(a: map<string, Ledger>, b: map<string, Ledger>)
    requires a.Keys == b.Keys
    ensures |a| == |b|
  {
    assert |a| == |a.Keys| && |b| == |b.Keys|;
  }

  lemma NextIsBounded(w: World, op: Op)
    requires Inv(w) && Legal(w, op) && |w.ledgers| <= MAX_RESOURCES
    ensures |Next(w, op).ledgers| <= MAX_RESOURCES
  {
    if CommitOf(w, op).Some? {
      PerformedIsBounded(w, op);
    } else {
      var keys := Next(w, op).ledgers.Keys;
      assert keys <= w.ledgers.Keys;
      SubsetIsSmaller(keys, w.ledgers.Keys);
      assert |Next(w, op).ledgers| == |keys| && |w.ledgers| == |w.ledgers.Keys|;
    }
  }

  /** In no state of any run are there more resources than the budget allows. */
  lemma {:induction false} ResourcesAreBounded(ws: seq<World>, ops: seq<Op>, i: nat)
    requires IsRun(ws, ops) && i < |ws|
    ensures |ws[i].ledgers| <= MAX_RESOURCES
  {
    if i > 0 {
      ResourcesAreBounded(ws, ops, i - 1);
      RunIsSound(ws, ops, i - 1);
      NextIsStep(ws, ops, i - 1);
      NextIsBounded(ws[i - 1], ops[i - 1]);
    }
  }

  // ----- A run in which a request commits and is repeated ----------------------------

  /** Any legal call continues a run. */
  lemma Continue(ws: seq<World>, ops: seq<Op>, op: Op)
    requires IsRun(ws, ops) && Inv(ws[|ops|]) && Legal(ws[|ops|], op)
    ensures IsRun(ws + [Next(ws[|ops|], op)], ops + [op])
  {
    var ws', ops' := ws + [Next(ws[|ops|], op)], ops + [op];
    forall i: nat | i < |ops'| ensures StepAt(ws', ops', i) {
      if i < |ops| { assert StepAt(ws, ops, i); }
    }
  }

  /** A snapshot of the inventory as it was provisioned. */
  function FirstSnapshot(incarnation: string, key: string, uuid: string, uuid': string): Op {
    var version := Version("inventory", incarnation, FIRST_REVISION);
    Change(false, Snapshot, Identity("inventory", 0, key, OfRequest(Snapshot, version, 0, key, Nothing)), Nothing,
           Context(Some(version), false), uuid, uuid')
  }

  function Power(k: nat): nat { if k == 0 then 1 else 10 * Power(k - 1) }

  lemma {:induction false} DecimalLength(n: nat, k: nat)
    requires k > 0 && n < Power(k)
    ensures |Decimal(n)| <= k
  {
    if n >= 10 { DecimalLength(n / 10, k - 1); }
  }

  lemma FirstRevisions()
    ensures IsRevision(FIRST_REVISION) && IsRevision(FIRST_REVISION + 1)
  {
    assert Power(10) == 10_000_000_000;
    assert Power(16) == 10_000_000_000_000_000;
    DecimalLength(FIRST_REVISION, 16);
    DecimalLength(FIRST_REVISION + 1, 16);
  }

  lemma InventoryIsText()
    ensures IsText("inventory", 512)
  {
    ShortText("inventory");
  }

  lemma FirstSnapshotIsPrepared(op: Op, incarnation: string, key: string)
    requires op.Change? && op == FirstSnapshot(incarnation, key, op.uuid, op.uuid')
    requires IsText(incarnation, 256) && IsText(key, 128)
    ensures Prepared(op.command, op.request, op.parameters, op.context).Ok?
  {
    InventoryIsText();
    FirstRevisions();
  }

  lemma BookedRow(id: string, ledger: Ledger, command: Command, request: Identity, effect: Effect)
    requires Booked(id, ledger, command, request, effect).Ok? && ledger.row.used + 1 < RECEIPTS_PER_EPOCH
    ensures var row, row' := ledger.row, Booked(id, ledger, command, request, effect).value.0.row;
            row'.enabled == row.enabled && row'.floor == row.floor
  {
  }

  lemma ProvisionedRow(u: string, v: string, key: string)
    ensures var w := Provisioned(u, v);
            && w.ledgers["inventory"].row == NEW_ROW.(revision := FIRST_REVISION, incarnation := u)
            && Access(w, "inventory", true).Ok? && NeverCommitted(w, "inventory", Key(0, key))
            && w.minted == {u, v} && w.ledgers.Keys <= w.stories.Keys
  {
    InventoryIsText();
  }

  lemma FirstSnapshotIsCurrent(u: string, v: string, key: string, uuid: string, uuid': string)
    requires IsText(u, 256) && IsText(key, 128)
    ensures var (w, op) := (Provisioned(u, v), FirstSnapshot(u, key, uuid, uuid'));
            IsCurrent(w, op) && Feasible(w, "inventory", Snapshot, Nothing) && HasRoom(w.ledgers["inventory"].row)
  {
    ProvisionedRow(u, v, key);
    FirstSnapshotIsPrepared(FirstSnapshot(u, key, uuid, uuid'), u, key);
    FirstRevisions();
  }

  lemma ProvisionedIsLegal(u: string, v: string, op: Op)
    requires op.Change? && op.uuid !in {u, v} && op.uuid' !in {u, v} && op.uuid != op.uuid'
    ensures Legal(Provisioned(u, v), op) && Sources(Provisioned(u, v))
  {
  }

  lemma FirstCall(u: string, v: string, op: Op)
    requires u != v && Inv(Provisioned(u, v)) && Legal(Provisioned(u, v), op)
    ensures IsRun([Provisioned(u, v), Next(Provisioned(u, v), op)], [op])
  {
    var ws, ops := [Provisioned(u, v), Next(Provisioned(u, v), op)], [op];
    forall i: nat | i < |ops| ensures StepAt(ws, ops, i) {}
  }

  lemma FirstSnapshotCommits(u: string, v: string, key: string, uuid: string, uuid': string)
    requires IsText(u, 256) && IsText(key, 128) && uuid !in {u, v} && uuid' !in {u, v} && uuid != uuid'
    ensures var (w, op) := (Provisioned(u, v), FirstSnapshot(u, key, uuid, uuid'));
            Inv(w) && Legal(w, op) && CommitOf(w, op).Some?
  {
    var w, op := Provisioned(u, v), FirstSnapshot(u, key, uuid, uuid');
    ProvisionedIsSound(u, v);
    FirstSnapshotIsCurrent(u, v, key, uuid, uuid');
    ProvisionedIsLegal(u, v, op);
    CommitsExactlyWhen(w, op);
  }

  /** What a committed snapshot leaves of a resource whose epoch is not full. */
  lemma SnapshotLeaves(w: World, op: Op)
    requires Inv(w) && Legal(w, op) && op.Change? && op.command.Snapshot? && CommitOf(w, op).Some?
    requires w.ledgers[op.request.resource].row.used + 1 < RECEIPTS_PER_EPOCH
    ensures var id := op.request.resource;
            && id in Next(w, op).ledgers && Next(w, op).ledgers[id].row.enabled
            && Next(w, op).ledgers[id].row.floor == w.ledgers[id].row.floor
            && Next(w, op).minted == w.minted + {op.uuid, op.uuid'}
  {
    var id, w0 := op.request.resource, w.(minted := w.minted + {op.uuid, op.uuid'});
    var (applied, effect) := Apply(w0, id, op.command, op.parameters, Workspace(op.uuid), op.uuid').value;
    BookedRow(id, applied.ledgers[id], op.command, op.request, effect);
  }

  /** A run of a call that commits and its repetition. */
  lemma RepetitionIsReplayed(u: string, v: string, op: Op, again: Op) returns (ws: seq<World>, ops: seq<Op>)
    requires u != v && Inv(Provisioned(u, v)) && Legal(Provisioned(u, v), op) && CommitOf(Provisioned(u, v), op).Some?
    requires Inv(Next(Provisioned(u, v), op)) && Legal(Next(Provisioned(u, v), op), again)
    requires again.Change? && !again.readOnly
    requires Prepared(again.command, again.request, again.parameters, again.context).Ok?
    requires again == op.(uuid := again.uuid, uuid' := again.uuid')
    requires Access(Next(Provisioned(u, v), op), op.request.resource, true).Ok?
    requires Next(Provisioned(u, v), op).ledgers[op.request.resource].row.floor <= op.request.epoch
    ensures IsRun(ws, ops) && ops == [op, again] && ws[0] == Provisioned(u, v) && CommitAt(ws, ops, 0).Some?
    ensures ws[2] == ws[1] && ReplyAt(ws, ops, 1) == Ok((ws[1], Reply(true, CommitAt(ws, ops, 0).value.stored.receipt)))
  {
    var w := Provisioned(u, v);
    FirstCall(u, v, op);
    ws, ops := [w, Next(w, op)], [op];
    Continue(ws, ops, again);
    ws, ops := ws + [Next(ws[1], again)], ops + [again];
    AtMostOnce(ws, ops, 0, 1);
  }

  /** What the first snapshot leaves lets any other two UUIDs be drawn and the inventory be read. */
  lemma FirstSnapshotLeaves(u: string, v: string, key: string, a: string, b: string)
    requires IsText(u, 256) && IsText(key, 128) && |{u, v, a, b}| == 4
    ensures var w, op := Provisioned(u, v), FirstSnapshot(u, key, a, b);
            && Inv(w) && Legal(w, op) && CommitOf(w, op).Some? && Inv(Next(w, op))
            && Access(Next(w, op), "inventory", true).Ok? && Next(w, op).ledgers["inventory"].row.floor == 0
            && Next(w, op).minted == {u, v, a, b}
  {
    var w, op := Provisioned(u, v), FirstSnapshot(u, key, a, b);
    assert {u, v, a, b} == {u, v, a} + {b} == {u, v} + {a, b} == {u} + {v, a, b};
    FirstSnapshotCommits(u, v, key, a, b);
    ProvisionedRow(u, v, key);
    SnapshotLeaves(w, op);
    EnabledIsAccessible(Next(w, op));
    NextKeeps(w, op);
  }

  lemma EnabledIsAccessible(w: World)
    requires "inventory" in w.ledgers && w.ledgers["inventory"].row.enabled
    ensures Access(w, "inventory", true).Ok?
  {
    InventoryIsText();
  }

  /** The premises of `AtMostOnce` are met: from any provisioned database there is a run in
      which a request commits and its repetition is answered with its receipt. */
  lemma SnapshotIsRepeated(u: string, v: string, key: string, a: string, b: string, c: string, d: string)
    returns (ws: seq<World>, ops: seq<Op>)
    requires IsText(u, 256) && IsText(key, 128) && |{u, v, a, b, c, d}| == 6
    ensures IsRun(ws, ops) && |ops| == 2 && ws[0] == Provisioned(u, v)
    ensures SameKey(ops[0], ops[1]) && CommitAt(ws, ops, 0).Some?
    ensures ws[2] == ws[1] && ReplyAt(ws, ops, 1) == Ok((ws[1], Reply(true, CommitAt(ws, ops, 0).value.stored.receipt)))
  {
    var w, op, again := Provisioned(u, v), FirstSnapshot(u, key, a, b), FirstSnapshot(u, key, c, d);
    Distinct6(u, v, a, b, c, d);
    FirstSnapshotLeaves(u, v, key, a, b);
    FirstSnapshotIsPrepared(again, u, key);
    ws, ops := RepetitionIsReplayed(u, v, op, again);
  }

  lemma Distinct6(u: string, v: string, a: string, b: string, c: string, d: string)
    requires |{u, v, a, b, c, d}| == 6
    ensures |{u, v, a, b}| == 4 && u != v && c !in {u, v, a, b} && d !in {u, v, a, b, c}
  {
    assert {u, v, a, b, c, d} == {u, v, a, b, c} + {d} == {u, v, a, b} + {c, d};
    assert {u, v, a, b, c, d} == {u, v, a} + {b, c, d} == {u, v} + {a, b, c, d};
  }
}
