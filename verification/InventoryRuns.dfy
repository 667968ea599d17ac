/** Runs of the inventory: any sequence of write transactions from a provisioned database.
    The theorems here compare states of one run that may be any number of calls apart. */
module InventoryRuns {
  import opened Results
  import opened InventoryModel
  import opened InventoryInvariant

  // ----- Growth ----------------------------------------------------------------------

  ghost predicate StoryGrows(a: Story, b: Story) {
    a.commits <= b.commits && a.log <= b.log
  }

  /** A resource that was ever there is not created again, and either nothing of it changed or
      its revision is higher. A new incarnation is one never used before. */
  ghost predicate LedgerGrows(w: World, w': World, id: string) {
    && id in w.ledgers && id in w'.ledgers
    && (w'.ledgers[id] == w.ledgers[id] || w'.ledgers[id].row.revision > w.ledgers[id].row.revision)
    && (w'.ledgers[id].row.incarnation == w.ledgers[id].row.incarnation || w'.ledgers[id].row.incarnation !in w.minted)
  }

  ghost predicate Grows(w: World, w': World) {
    && w.minted <= w'.minted && w.stories.Keys <= w'.stories.Keys
    && (forall id {:trigger StoryGrows(w.stories[id], w'.stories[id])} ::
          id in w.stories ==> StoryGrows(w.stories[id], w'.stories[id]))
    && (forall id {:trigger LedgerGrows(w, w', id)} :: id in w.stories && id in w'.ledgers ==> LedgerGrows(w, w', id))
  }

  lemma GrowsReflexively(w: World)
    requires w.ledgers.Keys <= w.stories.Keys
    ensures Grows(w, w)
  {}

  lemma GrowsTransitively(a: World, b: World, c: World)
    requires Grows(a, b) && Grows(b, c)
    ensures Grows(a, c)
  {
    forall id | id in a.stories ensures StoryGrows(a.stories[id], c.stories[id]) {
      assert StoryGrows(a.stories[id], b.stories[id]) && StoryGrows(b.stories[id], c.stories[id]);
    }
    forall id | id in a.stories && id in c.ledgers ensures LedgerGrows(a, c, id) {
      assert LedgerGrows(b, c, id) && LedgerGrows(a, b, id);
    }
  }

  /** Everything but one resource, which may be new, is as it was. */
  lemma OneGrows(w: World, w': World, id: string)
    requires w.ledgers.Keys <= w.stories.Keys && w.minted <= w'.minted && w.stories.Keys <= w'.stories.Keys
    requires forall x :: x in w.stories && x != id ==> w'.stories[x] == w.stories[x]
    requires forall x :: x in w'.ledgers && x != id && x in w.stories ==>
        x in w.ledgers && w'.ledgers[x] == w.ledgers[x]
    requires id in w.ledgers && StoryGrows(w.stories[id], w'.stories[id])
    requires id in w'.ledgers ==> LedgerGrows(w, w', id)
    ensures Grows(w, w')
  {}

  /** What an effect does outside the resource it is asked for: at most create one child. */
  lemma EffectIsLocal(w: World, id: string, command: Command, p: Parameters, child: string, uuid: string)
    requires id in w.ledgers && child !in w.stories && w.ledgers.Keys <= w.stories.Keys
    requires Apply(w, id, command, p, child, uuid).Ok?
    ensures var w' := Apply(w, id, command, p, child, uuid).value.0;
            && w'.minted == w.minted
            && w'.stories == (if command == Fork then w.stories[child := Story([], [])] else w.stories)
            && w'.ledgers.Keys == (if command == Fork then w.ledgers.Keys + {child} else w.ledgers.Keys)
            && (forall x :: x in w.ledgers && x != id ==> w'.ledgers[x] == w.ledgers[x])
            && (command == Fork ==> w'.ledgers[id] == w.ledgers[id])
            && w'.ledgers[id].row ==
               w.ledgers[id].row.(incarnation := if command == Restore then uuid else w.ledgers[id].row.incarnation)
  {
    assert child !in w.ledgers;
  }

  lemma PerformedGrows(w: World, command: Command, request: Identity, p: Parameters, expected: Version, uuid: string,
                       uuid': string)
    requires Inv(w) && uuid !in w.minted && uuid' !in w.minted && request.resource in w.ledgers
    requires Performed(w, w.ledgers[request.resource].row, command, request, p, expected, uuid, uuid').Ok?
    ensures Grows(w, Performed(w, w.ledgers[request.resource].row, command, request, p, expected, uuid, uuid').value.0)
  {
    var id, w0 := request.resource, w.(minted := w.minted + {uuid, uuid'});
    NewWorkspaceId(w, uuid);
    EffectIsLocal(w0, id, command, p, Workspace(uuid), uuid');
    var (applied, effect) := Apply(w0, id, command, p, Workspace(uuid), uuid').value;
    var w' := Finished(applied, id, command, request, effect).value.0;
    BookedParts(id, applied.ledgers[id], command, request, effect);
    FinishedIsLocal(applied, id, command, request, effect);
    EffectGrows(w, applied, w', id, Workspace(uuid), uuid');
  }

  /** An effect that is local, followed by the books of its resource. */
  lemma EffectGrows(w: World, applied: World, w': World, id: string, child: string, uuid: string)
    requires w.ledgers.Keys <= w.stories.Keys && id in w.ledgers && child !in w.stories && uuid !in w.minted
    requires applied.stories == w.stories || applied.stories == w.stories[child := Story([], [])]
    requires applied.ledgers.Keys == w.ledgers.Keys || applied.ledgers.Keys == w.ledgers.Keys + {child}
    requires forall x :: x in w.ledgers && x != id ==> applied.ledgers[x] == w.ledgers[x]
    requires id in w'.ledgers && w'.ledgers == applied.ledgers[id := w'.ledgers[id]]
    requires w.minted <= w'.minted
    requires id in w'.stories && w'.stories == applied.stories[id := w'.stories[id]]
    requires StoryGrows(w.stories[id], w'.stories[id])
    requires w'.ledgers[id].row.revision == w.ledgers[id].row.revision + 1
    requires w'.ledgers[id].row.incarnation in {w.ledgers[id].row.incarnation, uuid}
    ensures Grows(w, w')
  {
    OneGrows(w, w', id);
  }

  lemma FinishedIsLocal(w: World, id: string, command: Command, request: Identity, effect: Effect)
    requires id in w.ledgers && id in w.stories && Finished(w, id, command, request, effect).Ok?
    ensures var w' := Finished(w, id, command, request, effect).value.0;
            && id in w'.ledgers && w'.ledgers == w.ledgers[id := w'.ledgers[id]] && w'.minted == w.minted
            && id in w'.stories && w'.stories == w.stories[id := w'.stories[id]]
            && StoryGrows(w.stories[id], w'.stories[id])
  {
  }

  lemma NextGrows(w: World, op: Op)
    requires Inv(w) && Legal(w, op)
    ensures Grows(w, Next(w, op))
  {
    GrowsReflexively(w);
    match op {
      case Change(readOnly, command, request, p, context, uuid, uuid') =>
        var r := Mutate(w, readOnly, command, request, p, context, uuid, uuid');
        if r.Ok? && !r.value.1.deduplicated {
          PerformedGrows(w, command, request, p, context.expected.value, uuid, uuid');
        }
      case Adjust(_, id, _, _, _) =>
        if Next(w, op) != w { OneGrows(w, Next(w, op), id); }
      case SetAccess(_, id, _) =>
        if Next(w, op) != w { OneGrows(w, Next(w, op), id); }
      case Close(_, id) =>
        if Next(w, op) != w { OneGrows(w, Next(w, op), id); }
    }
  }

  // ----- Runs ------------------------------------------------------------------------

  ghost predicate IsStart(w: World) {
    exists u, v :: u != v && w == Provisioned(u, v)
  }

  ghost predicate StepAt(ws: seq<World>, ops: seq<Op>, i: nat) {
    && i < |ops| && i + 1 < |ws|
    && ws[i].ledgers.Keys <= ws[i].stories.Keys
    && Legal(ws[i], ops[i])
    && ws[i + 1] == Next(ws[i], ops[i])
  }

  /** The states of a run and the calls between them. Calls that fail are steps too. */
  ghost predicate IsRun(ws: seq<World>, ops: seq<Op>) {
    && |ws| == |ops| + 1
    && IsStart(ws[0])
    && (forall i: nat {:trigger StepAt(ws, ops, i)} :: i < |ops| ==> StepAt(ws, ops, i))
  }

  lemma StartIsSound(w: World)
    requires IsStart(w)
    ensures Inv(w)
  {
    var u, v :| u != v && w == Provisioned(u, v);
    ProvisionedIsSound(u, v);
  }

  lemma StepKeepsAndGrows(ws: seq<World>, ops: seq<Op>, i: nat)
    requires IsRun(ws, ops) && i < |ops| && Inv(ws[i])
    ensures Inv(ws[i + 1]) && Grows(ws[i], ws[i + 1])
  {
    assert StepAt(ws, ops, i);
    NextKeeps(ws[i], ops[i]);
    NextGrows(ws[i], ops[i]);
  }

  /** The invariant holds in every state of every run. */
  lemma {:induction false} RunIsSound(ws: seq<World>, ops: seq<Op>, i: nat)
    requires IsRun(ws, ops) && i < |ws|
    ensures Inv(ws[i])
  {
    if i == 0 {
      StartIsSound(ws[0]);
    } else {
      RunIsSound(ws, ops, i - 1);
      StepKeepsAndGrows(ws, ops, i - 1);
    }
  }

  lemma {:induction false} RunGrows(ws: seq<World>, ops: seq<Op>, i: nat, j: nat)
    requires IsRun(ws, ops) && i <= j < |ws|
    ensures Grows(ws[i], ws[j])
    decreases j - i
  {
    if i == j {
      RunIsSound(ws, ops, i);
      GrowsReflexively(ws[i]);
    } else {
      RunGrows(ws, ops, i, j - 1);
      RunIsSound(ws, ops, j - 1);
      StepKeepsAndGrows(ws, ops, j - 1);
      GrowsTransitively(ws[i], ws[j - 1], ws[j]);
    }
  }

  // ----- A version token determines contents -----------------------------------------

  /** No ABA: if a resource shows the same version at two points of a run, then nothing of it
      changed at any point between: not its row, stock, receipts or events. */
  lemma VersionDeterminesContents(ws: seq<World>, ops: seq<Op>, i: nat, k: nat, j: nat, id: string)
    requires IsRun(ws, ops) && i <= k <= j < |ws|
    requires id in ws[i].ledgers && id in ws[j].ledgers
    requires VersionOf(id, ws[i].ledgers[id].row) == VersionOf(id, ws[j].ledgers[id].row)
    ensures id in ws[k].ledgers && ws[i].ledgers[id] == ws[k].ledgers[id] == ws[j].ledgers[id]
  {
    RunIsSound(ws, ops, i);
    RunGrows(ws, ops, i, k);
    RunGrows(ws, ops, k, j);
    assert LedgerGrows(ws[k], ws[j], id) && LedgerGrows(ws[i], ws[k], id);
  }

  // ----- Commits ---------------------------------------------------------------------

  /** The request a call commits, if it commits one. */
  ghost function CommitOf(w: World, op: Op): Option<Commit>
    requires w.ledgers.Keys <= w.stories.Keys
  {
    if !op.Change? then None else
      var r := Mutate(w, op.readOnly, op.command, op.request, op.parameters, op.context, op.uuid, op.uuid');
      if r.Err? || r.value.1.deduplicated then None
      else Some(Commit(Key(op.request.epoch, op.request.key), Stored(op.request.digest, r.value.1.receipt)))
  }

  /** The commits of a resource, in a state where it may not exist yet. */
  ghost function CommitsIn(w: World, id: string): seq<Commit> {
    if id in w.stories then w.stories[id].commits else []
  }

  lemma PerformedCommits(w: World, command: Command, request: Identity, p: Parameters, expected: Version, uuid: string,
                         uuid': string, x: string)
    requires Inv(w) && uuid !in w.minted && request.resource in w.ledgers
    requires Performed(w, w.ledgers[request.resource].row, command, request, p, expected, uuid, uuid').Ok?
    ensures var (w', reply) :=
        Performed(w, w.ledgers[request.resource].row, command, request, p, expected, uuid, uuid').value;
            CommitsIn(w', x) == CommitsIn(w, x) +
              if x == request.resource
              then [Commit(Key(request.epoch, request.key), Stored(request.digest, reply.receipt))]
              else []
  {
    var id, w0 := request.resource, w.(minted := w.minted + {uuid, uuid'});
    NewWorkspaceId(w, uuid);
    EffectIsLocal(w0, id, command, p, Workspace(uuid), uuid');
    var (applied, effect) := Apply(w0, id, command, p, Workspace(uuid), uuid').value;
    BookedParts(id, applied.ledgers[id], command, request, effect);
    BookedReceipt(id, applied.ledgers[id], command, request, effect);
  }

  lemma BookedReceipt(id: string, ledger: Ledger, command: Command, request: Identity, effect: Effect)
    requires Booked(id, ledger, command, request, effect).Ok?
    ensures var commit := Booked(id, ledger, command, request, effect).value.1;
            commit == Commit(Key(request.epoch, request.key), Stored(request.digest, commit.stored.receipt))
  {}

  /** A call appends to a resource's commits the request it commits there, and nothing else. */
  lemma NextCommits(w: World, op: Op, x: string)
    requires Inv(w) && Legal(w, op)
    ensures CommitsIn(Next(w, op), x) == CommitsIn(w, x) +
              if CommitOf(w, op).Some? && op.request.resource == x then [CommitOf(w, op).value] else []
  {
    if CommitOf(w, op).Some? {
      PerformedCommits(w, op.command, op.request, op.parameters, op.context.expected.value, op.uuid, op.uuid', x);
    }
  }

  /** All requests committed for a resource in the first `n` calls of a run. */
  ghost function History(ws: seq<World>, ops: seq<Op>, n: nat, id: string): seq<Commit>
    requires IsRun(ws, ops) && n <= |ops|
  {
    if n == 0 then [] else
      RunIsSound(ws, ops, n - 1);
      var c := CommitOf(ws[n - 1], ops[n - 1]);
      History(ws, ops, n - 1, id) + if c.Some? && ops[n - 1].request.resource == id then [c.value] else []
  }

  /** The commits kept for the proofs are the requests the run committed, in order. */
  lemma {:induction false} CommitsAreHistory(ws: seq<World>, ops: seq<Op>, n: nat, id: string)
    requires IsRun(ws, ops) && n <= |ops|
    ensures CommitsIn(ws[n], id) == History(ws, ops, n, id)
  {
    if n == 0 {
      StartHasNoCommits(ws[0], id);
    } else {
      CommitsAreHistory(ws, ops, n - 1, id);
      RunIsSound(ws, ops, n - 1);
      CommitsAtStep(ws, ops, n - 1, id);
    }
  }

  lemma StartHasNoCommits(w: World, id: string)
    requires IsStart(w)
    ensures CommitsIn(w, id) == []
  {}

  lemma CommitsAtStep(ws: seq<World>, ops: seq<Op>, i: nat, id: string)
    requires IsRun(ws, ops) && i < |ops| && Inv(ws[i])
    ensures CommitsIn(ws[i + 1], id) == CommitsIn(ws[i], id) +
              if CommitOf(ws[i], ops[i]).Some? && ops[i].request.resource == id
              then [CommitOf(ws[i], ops[i]).value]
              else []
  {
    assert StepAt(ws, ops, i);
    NextCommits(ws[i], ops[i], id);
  }

  // ----- Events ----------------------------------------------------------------------

  ghost function LogIn(w: World, id: string): seq<Event> {
    if id in w.stories then w.stories[id].log else []
  }

  /** The event a call records, if it records one. */
  ghost function EventOf(w: World, op: Op): Option<Event>
    requires w.ledgers.Keys <= w.stories.Keys
  {
    var c := CommitOf(w, op);
    if c.Some? then
      var committed := c.value.stored.receipt.committed;
      Some(Event(committed.generation, Requested(op.command, op.request.key, committed)))
    else if op.Adjust? && ManualAdjust(w, op.readOnly, op.id, op.sku, op.available, op.expected).Ok? then
      Some(Event(w.ledgers[op.id].row.incarnation, Adjusted(op.sku, op.available)))
    else None
  }

  ghost function Target(op: Op): string { if op.Change? then op.request.resource else op.id }

  lemma PerformedLogs(w: World, command: Command, request: Identity, p: Parameters, expected: Version, uuid: string,
                      uuid': string, x: string)
    requires Inv(w) && uuid !in w.minted && request.resource in w.ledgers
    requires Performed(w, w.ledgers[request.resource].row, command, request, p, expected, uuid, uuid').Ok?
    ensures var (w', reply) :=
        Performed(w, w.ledgers[request.resource].row, command, request, p, expected, uuid, uuid').value;
            var committed := reply.receipt.committed;
            LogIn(w', x) == LogIn(w, x) +
              if x == request.resource
              then [Event(committed.generation, Requested(command, request.key, committed))]
              else []
  {
    var id, w0 := request.resource, w.(minted := w.minted + {uuid, uuid'});
    NewWorkspaceId(w, uuid);
    EffectIsLocal(w0, id, command, p, Workspace(uuid), uuid');
    var (applied, effect) := Apply(w0, id, command, p, Workspace(uuid), uuid').value;
    BookedEvent(id, applied.ledgers[id], command, request, effect);
  }

  lemma BookedEvent(id: string, ledger: Ledger, command: Command, request: Identity, effect: Effect)
    requires Booked(id, ledger, command, request, effect).Ok?
    ensures var (_, commit, event) := Booked(id, ledger, command, request, effect).value;
            var committed := commit.stored.receipt.committed;
            event == Event(committed.generation, Requested(command, request.key, committed))
  {}

  lemma NextLogs(w: World, op: Op, x: string)
    requires Inv(w) && Legal(w, op)
    ensures LogIn(Next(w, op), x) == LogIn(w, x) +
              if EventOf(w, op).Some? && Target(op) == x then [EventOf(w, op).value] else []
  {
    if CommitOf(w, op).Some? {
      PerformedLogs(w, op.command, op.request, op.parameters, op.context.expected.value, op.uuid, op.uuid', x);
    }
  }

  /** What a call adds to the log of a resource. */
  ghost function EventsOf(w: World, op: Op, id: string): seq<Event> {
    if w.ledgers.Keys <= w.stories.Keys && EventOf(w, op).Some? && Target(op) == id then [EventOf(w, op).value] else []
  }

  function Joined(parts: seq<seq<Event>>): seq<Event> {
    if parts == [] then [] else Joined(parts[..|parts| - 1]) + parts[|parts| - 1]
  }

  lemma {:induction false} JoinedLogs(logs: seq<seq<Event>>, parts: seq<seq<Event>>)
    requires |logs| == |parts| + 1 && logs[0] == []
    requires forall i :: 0 <= i < |parts| ==> logs[i + 1] == logs[i] + parts[i]
    ensures logs[|parts|] == Joined(parts)
  {
    if parts != [] {
      JoinedLogs(logs[..|parts|], parts[..|parts| - 1]);
    }
  }

  /** All events recorded for a resource in the first `n` calls of a run. */
  ghost function EventHistory(ws: seq<World>, ops: seq<Op>, n: nat, id: string): seq<Event>
    requires n <= |ops| <= |ws|
  {
    Joined(seq(n, i requires 0 <= i < n => EventsOf(ws[i], ops[i], id)))
  }

  /** The log kept for the proofs holds the event of every committed change, in order. */
  lemma LogIsHistory(ws: seq<World>, ops: seq<Op>, n: nat, id: string)
    requires IsRun(ws, ops) && n <= |ops|
    ensures LogIn(ws[n], id) == EventHistory(ws, ops, n, id)
  {
    var logs := seq(n + 1, i requires 0 <= i <= n => LogIn(ws[i], id));
    var parts := seq(n, i requires 0 <= i < n => EventsOf(ws[i], ops[i], id));
    StartHasNoEvents(ws[0], id);
    forall i | 0 <= i < n ensures logs[i + 1] == logs[i] + parts[i] { LogAtStep(ws, ops, i, id); }
    JoinedLogs(logs, parts);
  }

  lemma StartHasNoEvents(w: World, id: string)
    requires IsStart(w)
    ensures LogIn(w, id) == []
  {}

  lemma LogAtStep(ws: seq<World>, ops: seq<Op>, i: nat, id: string)
    requires IsRun(ws, ops) && i < |ops|
    ensures LogIn(ws[i + 1], id) == LogIn(ws[i], id) + EventsOf(ws[i], ops[i], id)
  {
    RunIsSound(ws, ops, i);
    assert StepAt(ws, ops, i);
    NextLogs(ws[i], ops[i], id);
  }

  // ----- Receipts as a window of history ---------------------------------------------

  ghost predicate HasCommit(w: World, id: string, key: Key, stored: Stored) {
    Commit(key, stored) in CommitsIn(w, id)
  }

  ghost predicate NeverCommitted(w: World, id: string, key: Key) {
    forall c :: c in CommitsIn(w, id) ==> c.key != key
  }

  /** Where a receipt is stored, and what it says, in terms of all commits. */
  lemma ReceiptsAreTheWindow(w: World, id: string, key: Key)
    requires Inv(w) && id in w.ledgers
    ensures var ledger := w.ledgers[id];
            && (key in ledger.receipts <==> key.epoch >= ledger.row.floor && !NeverCommitted(w, id, key))
            && (key in ledger.receipts ==> HasCommit(w, id, key, ledger.receipts[key]))
            && (forall stored :: HasCommit(w, id, key, stored) && key.epoch >= ledger.row.floor
                  ==> key in ledger.receipts && ledger.receipts[key] == stored)
  {
    assert LedgerSound(w, id);
    var commits := w.stories[id].commits;
    CommittedHasAll(commits);
    if key in Committed(commits) {
      var i :| 0 <= i < |commits| && commits[i].key == key;
      assert commits[i] in commits;
    }
  }

  /** At most 255 receipts are stored for a resource: exactly as many as `used` says, and 128
      for the epoch before. */
  lemma ReceiptsAreBounded(w: World, id: string)
    requires Inv(w) && id in w.ledgers
    ensures var ledger := w.ledgers[id];
            |ledger.receipts| == ledger.row.used + (if ledger.row.epoch == 0 then 0 else RECEIPTS_PER_EPOCH) <= 255
  {
    assert LedgerSound(w, id);
    TwoEpochs(w.ledgers[id].row, w.ledgers[id].receipts, w.stories[id].commits);
  }

  lemma TwoEpochs(row: Row, receipts: map<Key, Stored>, commits: seq<Commit>)
    requires ReceiptsOk(row, receipts, commits)
    ensures |receipts| == |InEpoch(receipts, row.epoch)| + |InEpoch(receipts, row.epoch - 1)|
    ensures row.epoch == 0 ==> InEpoch(receipts, -1) == {}
  {
    CommittedHasAll(commits);
    var now, before := InEpoch(receipts, row.epoch), InEpoch(receipts, row.epoch - 1);
    assert receipts.Keys == now + before && now !! before;
    assert |receipts| == |receipts.Keys|;
  }

  /** What stands before a lookup: the checks that do not depend on receipts. */
  ghost predicate MayLookUp(w: World, request: Identity, context: Context) {
    && !context.aborted && IsIdentity(request) && request.resource in w.ledgers
    && w.ledgers[request.resource].row.enabled
    && (context.expected.Some? ==> context.expected.value.resource == request.resource)
  }

  /** A lookup that may be made answers about all of history: the recorded result exactly when
      the request committed in a retained epoch, unknown exactly when its key was never
      committed there, and a conflict exactly when another request took the key. */
  lemma LookupIsExact(w: World, request: Identity, context: Context)
    requires Inv(w) && MayLookUp(w, request, context)
    ensures var r, row, id, key :=
        Lookup(w, request, context), w.ledgers[request.resource].row, request.resource, Key(request.epoch, request.key);
            && (r == Ok(RetentionExpired(row.epoch)) <==> request.epoch < row.floor)
            && (r == Ok(OutcomeUnknown) <==> request.epoch >= row.floor && NeverCommitted(w, id, key))
            && (forall receipt :: r == Ok(Found(receipt)) <==>
                  request.epoch >= row.floor && HasCommit(w, id, key, Stored(request.digest, receipt)))
            && (r == Err(Conflict) <==>
                  request.epoch >= row.floor && !NeverCommitted(w, id, key)
                  && forall receipt :: !HasCommit(w, id, key, Stored(request.digest, receipt)))
  {
    var id, key := request.resource, Key(request.epoch, request.key);
    ReceiptsAreTheWindow(w, id, key);
    var receipts := w.ledgers[id].receipts;
    if key in receipts {
      assert receipts[key] == Stored(receipts[key].digest, receipts[key].receipt);
    }
  }

  // ----- At most once ----------------------------------------------------------------

  /** Two calls of a mutation with one key on one resource. */
  ghost predicate SameKey(a: Op, b: Op) {
    && a.Change? && b.Change?
    && a.request.resource == b.request.resource && a.request.epoch == b.request.epoch && a.request.key == b.request.key
  }

  ghost function OutcomeAt(w: World, op: Op): Result<(World, Reply)>
    requires op.Change? && w.ledgers.Keys <= w.stories.Keys
  {
    Mutate(w, op.readOnly, op.command, op.request, op.parameters, op.context, op.uuid, op.uuid')
  }

  /** A call whose key was committed before: what it may return, and that it changes nothing. */
  lemma RepeatedCall(w: World, op: Op, stored: Stored)
    requires Inv(w) && op.Change?
    requires HasCommit(w, op.request.resource, Key(op.request.epoch, op.request.key), stored)
    ensures Next(w, op) == w
    ensures var r := OutcomeAt(w, op);
            && (r.Ok? ==> r.value == (w, Reply(true, stored.receipt)))
            && (r.Ok? <==>
                  && Prepared(op.command, op.request, op.parameters, op.context).Ok?
                  && !op.readOnly
                  && Access(w, op.request.resource, true).Ok?
                  && op.request.epoch >= w.ledgers[op.request.resource].row.floor
                  && op.request.digest == stored.digest)
  {
    var id, key := op.request.resource, Key(op.request.epoch, op.request.key);
    if id in w.ledgers {
      ReceiptsAreTheWindow(w, id, key);
      assert LedgerSound(w, id);
    }
  }

  ghost function CommitAt(ws: seq<World>, ops: seq<Op>, i: nat): Option<Commit>
    requires IsRun(ws, ops) && i < |ops|
  {
    RunIsSound(ws, ops, i);
    CommitOf(ws[i], ops[i])
  }

  ghost function ReplyAt(ws: seq<World>, ops: seq<Op>, i: nat): Result<(World, Reply)>
    requires IsRun(ws, ops) && i < |ops| && ops[i].Change?
  {
    RunIsSound(ws, ops, i);
    OutcomeAt(ws[i], ops[i])
  }

  lemma {:induction false} CommitLasts(ws: seq<World>, ops: seq<Op>, i: nat, j: nat)
    requires IsRun(ws, ops) && i < j < |ws| && CommitAt(ws, ops, i).Some?
    ensures var c := CommitAt(ws, ops, i).value;
            HasCommit(ws[j], ops[i].request.resource, c.key, c.stored)
  {
    var id := ops[i].request.resource;
    RunIsSound(ws, ops, i);
    CommitsAtStep(ws, ops, i, id);
    var c := CommitAt(ws, ops, i).value;
    assert c in CommitsIn(ws[i + 1], id) by {
      assert CommitsIn(ws[i + 1], id)[|CommitsIn(ws[i], id)|] == c;
    }
    assert id in ws[i + 1].stories;
    RunGrows(ws, ops, i + 1, j);
    assert StoryGrows(ws[i + 1].stories[id], ws[j].stories[id]);
  }

  /** What a call returns whose key another call committed before. */
  ghost predicate RepeatsOrFails(w: World, a: Op, b: Op, r: Result<(World, Reply)>, receipt: Receipt)
    requires a.Change? && b.Change?
  {
    && (r.Ok? ==> r.value == (w, Reply(true, receipt)))
    && (r.Ok? <==>
          && Prepared(b.command, b.request, b.parameters, b.context).Ok?
          && !b.readOnly
          && Access(w, b.request.resource, true).Ok?
          && b.request.epoch >= w.ledgers[b.request.resource].row.floor
          && b.command == a.command && b.parameters == a.parameters && b.context.expected == a.context.expected)
  }

  lemma RepeatedRequest(w0: World, a: Op, w: World, b: Op)
    requires Inv(w0) && Inv(w) && CommitOf(w0, a).Some? && SameKey(a, b)
    requires HasCommit(w, a.request.resource, CommitOf(w0, a).value.key, CommitOf(w0, a).value.stored)
    ensures RepeatsOrFails(w, a, b, OutcomeAt(w, b), CommitOf(w0, a).value.stored.receipt)
    ensures CommitOf(w, b).None? && Next(w, b) == w
  {
    var stored := CommitOf(w0, a).value.stored;
    RepeatedCall(w, b, stored);
    if Prepared(b.command, b.request, b.parameters, b.context).Ok? {
      DigestBindsRequest(w0, a, b, stored);
    }
  }

  /** At most once. After a request has committed, no later call in the run with its key on its
      resource changes the database, whether or not its receipt is still stored. The call
      returns the receipt of the committed request, and it does so exactly when it is a
      well-formed repetition of that request, base revision included, made while the
      resource is accessible and its epoch retained; otherwise it fails. */
  lemma AtMostOnce(ws: seq<World>, ops: seq<Op>, i: nat, j: nat)
    requires IsRun(ws, ops) && i < j < |ops|
    requires CommitAt(ws, ops, i).Some? && SameKey(ops[i], ops[j])
    ensures CommitAt(ws, ops, j).None? && ws[j + 1] == ws[j]
    ensures RepeatsOrFails(ws[j], ops[i], ops[j], ReplyAt(ws, ops, j), CommitAt(ws, ops, i).value.stored.receipt)
  {
    CommitLasts(ws, ops, i, j);
    RunIsSound(ws, ops, i);
    RunIsSound(ws, ops, j);
    RepeatedRequest(ws[i], ops[i], ws[j], ops[j]);
    NextIsStep(ws, ops, j);
  }

  lemma NextIsStep(ws: seq<World>, ops: seq<Op>, i: nat)
    requires IsRun(ws, ops) && i < |ops| && Inv(ws[i])
    ensures Legal(ws[i], ops[i]) && ws[i + 1] == Next(ws[i], ops[i])
  {
    assert StepAt(ws, ops, i);
  }

  /** A well-formed request has the digest of a committed one exactly when it repeats it. */
  lemma DigestBindsRequest(w: World, a: Op, b: Op, stored: Stored)
    requires w.ledgers.Keys <= w.stories.Keys
    requires CommitOf(w, a).Some? && CommitOf(w, a).value.stored == stored && SameKey(a, b)
    requires Prepared(b.command, b.request, b.parameters, b.context).Ok?
    ensures b.request.digest == stored.digest <==>
              b.command == a.command && b.parameters == a.parameters && b.context.expected == a.context.expected
  {
    assert Prepared(a.command, a.request, a.parameters, a.context).Ok?;
  }
}
