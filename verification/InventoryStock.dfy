/** Stock and snapshots along runs: what is retained, what is restored, what is conserved. */
module InventoryStock {
  import opened Results
  import opened Sets
  import opened InventoryModel
  import opened InventoryInvariant
  import opened InventoryRuns

  // ----- Snapshot retention ----------------------------------------------------------

  ghost predicate Apart(snapshots: map<Digest, SnapshotRow>, ids: set<Digest>)
    requires ids <= snapshots.Keys
  {
    forall a, b :: a in ids && b in ids && a != b ==> snapshots[a].serial != snapshots[b].serial
  }

  lemma OldestExists(snapshots: map<Digest, SnapshotRow>, ids: set<Digest>) returns (m: Digest)
    requires ids <= snapshots.Keys && ids != {}
    ensures m in ids && forall x :: x in ids ==> snapshots[m].serial <= snapshots[x].serial
  {
    m :| m in ids;
    var rest := ids - {m};
    if rest != {} {
      var n := OldestExists(snapshots, rest);
      if snapshots[n].serial < snapshots[m].serial { m := n; }
    }
  }

  /** Of rows with different numbers, at most `k` have fewer than `k` newer ones. */
  lemma NewestAreFew(snapshots: map<Digest, SnapshotRow>, ids: set<Digest>, kept: set<Digest>, k: nat)
    requires kept <= ids <= snapshots.Keys && Apart(snapshots, ids)
    requires forall x :: x in kept ==> |Newer(snapshots, ids, x)| < k
    ensures |kept| <= k
  {
    if kept != {} {
      var m := OldestExists(snapshots, kept);
      var others := kept - {m};
      assert others <= Newer(snapshots, ids, m);
      SubsetIsSmaller(others, Newer(snapshots, ids, m));
      assert kept == others + {m};
    }
  }

  lemma SpareApart(w: World, slack: Option<string>, id: string)
    requires Sound(w, slack)
    ensures Apart(w.snapshots, Spare(w.snapshots, w.derivations, id))
  {
    var spare := Spare(w.snapshots, w.derivations, id);
    forall a, b | a in spare && b in spare && a != b ensures w.snapshots[a].serial != w.snapshots[b].serial {
      assert SerialsApart(w.snapshots[a], w.snapshots[b]);
    }
  }

  /** After pruning at most 128 spare snapshots of the resource are left. */
  lemma PrunedIsBounded(w: World, slack: Option<string>, id: string)
    requires Sound(w, slack)
    ensures |Spare(Pruned(w.snapshots, w.derivations, id), w.derivations, id)| <= SPARE_SNAPSHOTS
  {
    var spare, kept := Spare(w.snapshots, w.derivations, id), Pruned(w.snapshots, w.derivations, id);
    SpareApart(w, slack, id);
    NewestAreFew(w.snapshots, spare, Spare(kept, w.derivations, id), SPARE_SNAPSHOTS);
  }

  /** Pruning deletes only spare snapshots of the resource, and each was taken before all it keeps. */
  lemma PruningIsSelective(w: World, slack: Option<string>, id: string, x: Digest)
    requires Sound(w, slack) && x in w.snapshots && x !in Pruned(w.snapshots, w.derivations, id)
    ensures x in Spare(w.snapshots, w.derivations, id)
    ensures forall y :: y in Spare(Pruned(w.snapshots, w.derivations, id), w.derivations, id)
              ==> w.snapshots[x].serial < w.snapshots[y].serial
  {
    var spare := Spare(w.snapshots, w.derivations, id);
    SpareApart(w, slack, id);
    forall y | y in Spare(Pruned(w.snapshots, w.derivations, id), w.derivations, id)
      ensures w.snapshots[x].serial < w.snapshots[y].serial
    {
      if w.snapshots[y].serial < w.snapshots[x].serial {
        assert Newer(w.snapshots, spare, x) <= Newer(w.snapshots, spare, y);
        SubsetIsSmaller(Newer(w.snapshots, spare, x), Newer(w.snapshots, spare, y));
      }
    }
  }

  /** The rows that have fewer than `k` newer ones. */
  ghost function Newest(snapshots: map<Digest, SnapshotRow>, ids: set<Digest>, k: nat): set<Digest>
    requires ids <= snapshots.Keys
  {
    set x | x in ids && |Newer(snapshots, ids, x)| < k
  }

  lemma WithoutOldest(snapshots: map<Digest, SnapshotRow>, ids: set<Digest>, k: nat, m: Digest)
    requires ids <= snapshots.Keys && Apart(snapshots, ids) && k < |ids| && m in ids
    requires forall x :: x in ids ==> snapshots[m].serial <= snapshots[x].serial
    ensures Newest(snapshots, ids, k) == Newest(snapshots, ids - {m}, k)
  {
    assert Newer(snapshots, ids, m) == ids - {m};
    forall x | x in ids - {m} ensures Newer(snapshots, ids, x) == Newer(snapshots, ids - {m}, x) {}
  }

  /** Of rows with different numbers, exactly `k` have fewer than `k` newer ones, if there are so many. */
  lemma {:induction false} NewestAreAsMany(snapshots: map<Digest, SnapshotRow>, ids: set<Digest>, k: nat)
    requires ids <= snapshots.Keys && Apart(snapshots, ids) && k <= |ids|
    ensures |Newest(snapshots, ids, k)| == k
    decreases |ids|
  {
    if |ids| == k {
      forall x | x in ids ensures |Newer(snapshots, ids, x)| < k {
        SubsetIsSmaller(Newer(snapshots, ids, x), ids - {x});
      }
      assert Newest(snapshots, ids, k) == ids;
    } else {
      var m := OldestExists(snapshots, ids);
      WithoutOldest(snapshots, ids, k, m);
      NewestAreAsMany(snapshots, ids - {m}, k);
    }
  }

  /** Pruning keeps 128 spare snapshots of the resource, or all if there are fewer, and everything
      that is not one as it was. With `PruningIsSelective`: a snapshot is deleted exactly if it is
      spare and 128 newer spare ones are kept. */
  lemma PruningKeepsTheNewest(w: World, slack: Option<string>, id: string)
    requires Sound(w, slack)
    ensures var pruned := Pruned(w.snapshots, w.derivations, id);
            var (spare, left) := (Spare(w.snapshots, w.derivations, id), Spare(pruned, w.derivations, id));
            && |left| == (if |spare| < SPARE_SNAPSHOTS then |spare| else SPARE_SNAPSHOTS)
            && (forall x :: x in w.snapshots && x !in spare ==> x in pruned)
            && (forall x :: x in pruned ==> x in w.snapshots && pruned[x] == w.snapshots[x])
  {
    var spare, pruned := Spare(w.snapshots, w.derivations, id), Pruned(w.snapshots, w.derivations, id);
    SpareApart(w, slack, id);
    var k := if |spare| < SPARE_SNAPSHOTS then |spare| else SPARE_SNAPSHOTS;
    NewestAreAsMany(w.snapshots, spare, k);
    forall x | x in spare ensures |Newer(w.snapshots, spare, x)| < |spare| {
      SubsetIsSmaller(Newer(w.snapshots, spare, x), spare - {x});
    }
    assert Spare(pruned, w.derivations, id) == Newest(w.snapshots, spare, k);
  }

  /** The snapshot a request returns survives its own pruning and holds the stock of that
      moment; what live workspaces were derived from is kept; the spare ones are bounded. */
  lemma SnapshotRetention(w: World, id: string, p: Parameters)
    requires Inv(w) && id in w.ledgers && ApplySnapshot(w, id, p).Ok?
    ensures var (w', effect) := ApplySnapshot(w, id, p).value;
            var source := VersionOf(id, w.ledgers[id].row);
            && effect == Captured(OfSnapshot(SnapshotData(source, ItemsOf(w.ledgers[id].stock))), source)
            && effect.snapshot !in w.snapshots && effect.snapshot in w'.snapshots
            && OfSnapshot(w'.snapshots[effect.snapshot].data) == effect.snapshot
            && |Spare(w'.snapshots, w.derivations, id)| <= SPARE_SNAPSHOTS
            && (forall child :: child in w.derivations ==> w.derivations[child].snapshot in w'.snapshots)
            && (forall x :: x in w.snapshots && w.snapshots[x].resource != id ==> x in w'.snapshots)
            && (forall x :: x in w.snapshots && x in w'.snapshots ==> w'.snapshots[x] == w.snapshots[x])
  {
    var row := TakenRow(w, id);
    var digest := OfSnapshot(row.data);
    NotTakenYet(w, id);
    SnapshotTaken(w, id, row);
    var taken := w.(snapshots := w.snapshots[digest := row]);
    PrunedIsBounded(taken, Some(id), id);
    forall x | x in w.snapshots && w.snapshots[x].resource == id ensures w.snapshots[x].serial < row.serial {
      assert LedgerSound(w, id);
      assert SnapshotOk(x, w.snapshots[x], w.stories, None);
    }
    var spare := Spare(taken.snapshots, w.derivations, id);
    assert digest in spare ==> Newer(taken.snapshots, spare, digest) == {};
    forall child | child in w.derivations
      ensures w.derivations[child].snapshot in Pruned(taken.snapshots, w.derivations, id)
    {
      assert DerivationOk(w, child);
      assert Referenced(w.derivations, w.derivations[child].snapshot);
    }
  }

  /** In every state of every run the snapshot a live workspace was derived from is stored. */
  lemma DerivedSnapshotsAreKept(ws: seq<World>, ops: seq<Op>, i: nat, child: string)
    requires IsRun(ws, ops) && i < |ws| && child in ws[i].derivations
    ensures child in ws[i].ledgers && ws[i].derivations[child].snapshot in ws[i].snapshots
  {
    RunIsSound(ws, ops, i);
    assert DerivationOk(ws[i], child);
  }

  // ----- Restoring -------------------------------------------------------------------

  /** The stock of a resource is the one listed in some snapshot identity. */
  ghost predicate Shows(stock: map<string, Level>, snapshot: Digest) {
    snapshot.OfSnapshot? && ReplacedStock(snapshot.data.items) == Ok(stock)
  }

  /** What a performed request makes of the stock of its resource and of its new workspace. */
  lemma PerformedStock(w: World, command: Command, request: Identity, p: Parameters, expected: Version, uuid: string,
                       uuid': string)
    requires Inv(w) && uuid !in w.minted && request.resource in w.ledgers
    requires Performed(w, w.ledgers[request.resource].row, command, request, p, expected, uuid, uuid').Ok?
    ensures var (id, child) := (request.resource, Workspace(uuid));
            var w' := Performed(w, w.ledgers[id].row, command, request, p, expected, uuid, uuid').value.0;
            && id in w'.ledgers && id != child && child !in w.ledgers
            && (forall x :: x in w.ledgers && x != id ==> x in w'.ledgers && w'.ledgers[x] == w.ledgers[x])
            && (command.Restore? || command.PublishPrivate? ==>
                  !p.Nothing? && !p.Units? && !p.Malformed? && Shows(w'.ledgers[id].stock, p.snapshot))
            && (command.Fork? ==>
                  p.Source? && child in w'.ledgers && Shows(w'.ledgers[child].stock, p.snapshot)
                  && w'.ledgers[id].stock == w.ledgers[id].stock)
            && (command.Snapshot? ==> w'.ledgers[id].stock == w.ledgers[id].stock)
            && (command.Reserve? || command.Release? ==>
                  SameUnits(w.ledgers[id].stock, w'.ledgers[id].stock))
  {
    var id, w0 := request.resource, w.(minted := w.minted + {uuid, uuid'});
    MoreMinted(w, {uuid, uuid'});
    NewWorkspaceId(w, uuid);
    EffectIsLocal(w0, id, command, p, Workspace(uuid), uuid');
    var (applied, effect) := Apply(w0, id, command, p, Workspace(uuid), uuid').value;
    BookedParts(id, applied.ledgers[id], command, request, effect);
    ApplyStock(w0, id, command, p, Workspace(uuid), uuid');
  }

  ghost predicate SameUnits(a: map<string, Level>, b: map<string, Level>) {
    a.Keys == b.Keys && forall sku :: sku in a ==> Units(a[sku]) == Units(b[sku])
  }

  ghost function Units(level: Level): int { level.available + level.reserved }

  lemma ApplyStock(w: World, id: string, command: Command, p: Parameters, child: string, uuid: string)
    requires Inv(w) && id in w.ledgers && child !in w.ledgers
    requires Apply(w, id, command, p, child, uuid).Ok?
    ensures var w' := Apply(w, id, command, p, child, uuid).value.0;
            && id in w'.ledgers
            && (command.Restore? || command.PublishPrivate? ==>
                  !p.Nothing? && !p.Units? && !p.Malformed? && Shows(w'.ledgers[id].stock, p.snapshot))
            && (command.Fork? ==> p.Source? && child in w'.ledgers && Shows(w'.ledgers[child].stock, p.snapshot))
            && (command.Fork? || command.Snapshot? ==> w'.ledgers[id].stock == w.ledgers[id].stock)
            && (command.Reserve? || command.Release? ==> SameUnits(w.ledgers[id].stock, w'.ledgers[id].stock))
  {}

  /** A committed snapshot's receipt names exactly the stock of its resource at that moment. */
  lemma CapturedStock(w: World, op: Op)
    requires Inv(w) && CommitOf(w, op).Some? && op.command.Snapshot?
    ensures var (id, effect) := (op.request.resource, CommitOf(w, op).value.stored.receipt.effect);
            && id in w.ledgers && effect.Captured? && Shows(w.ledgers[id].stock, effect.snapshot)
  {
    var id := op.request.resource;
    var w0 := w.(minted := w.minted + {op.uuid, op.uuid'});
    var effect := Apply(w0, id, op.command, op.parameters, Workspace(op.uuid), op.uuid').value.1;
    assert LedgerSound(w, id);
    ItemsRestoreStock(w.ledgers[id].stock);
  }

  /** What a committed request leaves, seen through `Next`. */
  lemma CommittedStock(w: World, op: Op)
    requires Inv(w) && Legal(w, op) && CommitOf(w, op).Some?
    ensures var (w', id, child) := (Next(w, op), op.request.resource, Workspace(op.uuid));
            && id in w.ledgers && id in w'.ledgers && child !in w.ledgers
            && (op.command.Restore? || op.command.PublishPrivate? ==>
                  !op.parameters.Nothing? && !op.parameters.Units? && !op.parameters.Malformed?
                  && Shows(w'.ledgers[id].stock, op.parameters.snapshot))
            && (op.command.Fork? ==>
                  op.parameters.Source? && child in w'.ledgers && Shows(w'.ledgers[child].stock, op.parameters.snapshot)
                  && w'.ledgers[id].stock == w.ledgers[id].stock)
  {
    PerformedStock(w, op.command, op.request, op.parameters, op.context.expected.value, op.uuid, op.uuid');
  }

  /** The snapshot parameter of a request that takes its stock from a snapshot. */
  ghost predicate TakesFrom(op: Op, snapshot: Digest) {
    && op.Change? && (op.command.Fork? || op.command.Restore? || op.command.PublishPrivate?)
    && (op.parameters.Source? || op.parameters.Publication?) && op.parameters.snapshot == snapshot
  }

  /** Round trip. Whatever happens in between, a restore, publication or fork of a snapshot
      gives its destination exactly the stock the source had when the snapshot was taken. */
  lemma RestoreGivesBack(ws: seq<World>, ops: seq<Op>, i: nat, j: nat)
    requires IsRun(ws, ops) && i < j < |ops|
    requires CommitAt(ws, ops, i).Some? && ops[i].command.Snapshot? && CommitAt(ws, ops, j).Some?
    requires var effect := CommitAt(ws, ops, i).value.stored.receipt.effect;
             effect.Captured? && TakesFrom(ops[j], effect.snapshot)
    ensures var (source, destination) :=
              (ops[i].request.resource,
               if ops[j].command.Fork? then Workspace(ops[j].uuid) else ops[j].request.resource);
            && source in ws[i].ledgers && destination in ws[j + 1].ledgers
            && ws[j + 1].ledgers[destination].stock == ws[i].ledgers[source].stock
  {
    RunIsSound(ws, ops, i);
    RunIsSound(ws, ops, j);
    CapturedStock(ws[i], ops[i]);
    NextIsStep(ws, ops, j);
    CommittedStock(ws[j], ops[j]);
  }

  // ----- Conservation ----------------------------------------------------------------

  /** The calls that may set a resource's stock to something else. */
  ghost predicate Replaces(op: Op, id: string) {
    || (op.Adjust? && op.id == id)
    || (op.Change? && op.request.resource == id && (op.command.Restore? || op.command.PublishPrivate?))
  }

  lemma CommitConserves(w: World, op: Op, id: string)
    requires Inv(w) && Legal(w, op) && !Replaces(op, id) && CommitOf(w, op).Some?
    requires id in w.ledgers && id in Next(w, op).ledgers
    ensures SameUnits(w.ledgers[id].stock, Next(w, op).ledgers[id].stock)
  {
    PerformedStock(w, op.command, op.request, op.parameters, op.context.expected.value, op.uuid, op.uuid');
  }

  lemma AdjustingConserves(w: World, op: Op, id: string)
    requires w.ledgers.Keys <= w.stories.Keys && op.Adjust? && op.id != id
    requires id in w.ledgers && id in Next(w, op).ledgers
    ensures Next(w, op).ledgers[id].stock == w.ledgers[id].stock
  {
  }

  lemma NextConserves(w: World, op: Op, id: string)
    requires Inv(w) && Legal(w, op) && !Replaces(op, id)
    requires id in w.ledgers && id in Next(w, op).ledgers
    ensures SameUnits(w.ledgers[id].stock, Next(w, op).ledgers[id].stock)
  {
    if op.Adjust? {
      AdjustingConserves(w, op, id);
    } else if op.Change? && CommitOf(w, op).Some? {
      CommitConserves(w, op, id);
    }
  }

  lemma ConservesAtStep(ws: seq<World>, ops: seq<Op>, k: nat, id: string)
    requires IsRun(ws, ops) && k < |ops| && !Replaces(ops[k], id)
    requires id in ws[k].ledgers && id in ws[k + 1].ledgers
    ensures SameUnits(ws[k].ledgers[id].stock, ws[k + 1].ledgers[id].stock)
  {
    RunIsSound(ws, ops, k);
    NextIsStep(ws, ops, k);
    NextConserves(ws[k], ops[k], id);
  }

  /** Conservation. Between two points of a run, whatever was reserved, released, captured,
      forked, opened or closed by anybody, a resource keeps its SKUs and the number of units
      of each, unless its stock was adjusted, restored or published over. */
  lemma {:induction false} UnitsAreConserved(ws: seq<World>, ops: seq<Op>, i: nat, j: nat, id: string)
    requires IsRun(ws, ops) && i <= j < |ws|
    requires forall k :: i <= k < j ==> !Replaces(ops[k], id)
    requires id in ws[i].ledgers && id in ws[j].ledgers
    ensures SameUnits(ws[i].ledgers[id].stock, ws[j].ledgers[id].stock)
    decreases j - i
  {
    if i < j {
      LivesBetween(ws, ops, i, j - 1, j, id);
      UnitsAreConserved(ws, ops, i, j - 1, id);
      ConservesAtStep(ws, ops, j - 1, id);
    }
  }

  lemma LivesBetween(ws: seq<World>, ops: seq<Op>, i: nat, k: nat, j: nat, id: string)
    requires IsRun(ws, ops) && i <= k <= j < |ws|
    requires id in ws[i].ledgers && id in ws[j].ledgers
    ensures id in ws[k].ledgers
  {
    RunIsSound(ws, ops, i);
    RunGrows(ws, ops, i, k);
    RunGrows(ws, ops, k, j);
    assert id in ws[k].stories;
    assert LedgerGrows(ws[k], ws[j], id);
  }

  /** Every level in every state of every run is in the exact range, under a SKU a page token
      can carry. */
  lemma LevelsInRange(ws: seq<World>, ops: seq<Op>, i: nat, id: string, sku: string)
    requires IsRun(ws, ops) && i < |ws| && id in ws[i].ledgers && sku in ws[i].ledgers[id].stock
    ensures IsSku(sku) && IsLevel(ws[i].ledgers[id].stock[sku])
  {
    RunIsSound(ws, ops, i);
    assert LedgerSound(ws[i], id);
    assert SkuOk(sku, ws[i].ledgers[id].stock[sku]);
  }
}
