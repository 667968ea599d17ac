# Semwright: proofs about its stateful cores

This project models five parts of Semwright and proves what each of them is for.

- **The transactional inventory.** `InventoryModel` gives the tables as values and what each transaction makes of
  them; `Inventory` is the application as a class whose methods update the tables in place, with rollback, each proved
  to do what the model says. `InventoryInvariant` is what every transaction keeps. `InventoryEffects` and
  `InventoryRefusals` say by fields what each call leaves, answers and refuses. `InventoryRuns`, `InventoryProgress`,
  `InventoryStock` and `InventoryReads` are about whole runs: at-most-once effects, versions without ABA, exact
  recovery, exact conditions for a commit, snapshot retention and restoration, conservation of units, gap-free polling
  and exact paging. Failed calls and calls on read-only connections are steps of a run like any other.
  `InventoryDigests` ties the digests of the model to the canonical encoding.
- **The table evaluator.** `TableModel` says twice what it means for a sheet to be accepted: by the existence of a
  solution, and by plain recursion; and proves that edits are local. `Table` is the memoised evaluator with its cache,
  active set, visit counter and depth limit. Numbers are any type with an addition and two tests, so nothing
  but the declared order of additions is used.
- **The canonical request encoding.** `CanonicalJson` and `Text`: escapes of section 7 of RFC 8259, UTF-8 of section 3
  of RFC 3629, and injectivity of the whole printer. `JsonReader` is an independent reader that gives every value back.
- **The browser adapter.** `Downloads` (quota accounting with saturating counters), `DownloadHistory` (the same told
  from the reports alone), `HitTest` (the paint-order test and its bounded walks), `Identity` (printing and reading of
  node and frame references).
- **The bridge.** `Bridge` is the job queue between socket threads and the main thread, as interleaved steps, and
  `BridgeDecisions` what each of its decisions depends on and leads to.

Conventions: a call of the inventory draws its UUIDs from parameters, and a legal call draws ones never drawn before.
The histories in a `Story`, and `seen`, `requests`, `written` and `ran` of the bridge, are not data of the program;
they are kept beside it to state what happened.

## Where the code says something else than one may expect

- A poll without a cursor starts at the oldest stored event and does not report what was lost before it
  (examples/native-inventory/application.ts:315-322). `FirstPollIsTheWindow` gives what it delivers and when that is
  complete.
- A retry is recognised only if it carries the original expected version, because the digest binds it
  (examples/native-inventory/application.ts:209-212); `DigestBindsRequest` says so.
- `progress` may answer false after true (crates/adapters/src/chromium.rs:324); only the mark is sticky.
  `OverIsStickyExactlyIf` gives the condition under which the answer stays.
- Download quotas are kept over all runs only for limits a saturating counter can exceed, or that cannot be reached;
  `QuotasHoldExactlyIfEnforceable` gives the condition. The configuration check
  (crates/adapters/src/chromium.rs:130-140) admits only such limits, as `ConfiguredQuotasHold` states.
- A connection may be answered with a null frame (adapters/blender/semwright_blender/host.py:162-164);
  `NullFramesOccur` is such a run.

## Model

| member | source | states |
|---|---|---|
| InventoryRuns.AtMostOnce | examples/native-inventory/application.ts:205-242 | In any run, once a request has committed, every later call with its key on its resource leaves the whole database as it was, also after the receipt was deleted at an epoch rollover. It returns the committed receipt exactly when it repeats the request, base revision included, while the resource is accessible and the epoch retained; otherwise it fails |
| InventoryRuns.RepeatedRequest | examples/native-inventory/application.ts:214-222 | The same for two single states: a call whose key is among the commits returns the receipt or fails, commits nothing and changes nothing |
| InventoryRuns.RepeatedCall | examples/native-inventory/application.ts:214-222 | Which of the two it is, as an if-and-only-if of checks a caller can make: well-formed call, writable connection, enabled resource, epoch not below the floor, same digest |
| InventoryRuns.DigestBindsRequest | examples/native-inventory/application.ts:23-26 | Of two well-formed requests with one key, the digests agree exactly when command, parameters and expected version agree: a retry with a newer base version is another request |
| InventoryRuns.LookupIsExact | examples/native-inventory/application.ts:191-203 | A lookup answers about all of history: recorded with its result exactly if this request committed in a retained epoch, unknown exactly if the key never committed, expired exactly below the floor, conflict exactly if another request took the key |
| InventoryRuns.ReceiptsAreTheWindow | examples/native-inventory/application.ts:231-238 | The stored receipts of a resource are exactly the commits of all history whose epoch is at least the floor, each with its own result |
| InventoryRuns.ReceiptsAreBounded | examples/native-inventory/application.ts:232-238 | There are `used` receipts of the current epoch and 128 of the one before, at most 255 in all |
| InventoryRuns.CommitsAreHistory | examples/native-inventory/application.ts:224-240 | The ghost list of commits is the list of requests the calls of the run committed, in order, none left out |
| InventoryRuns.LogIsHistory | examples/native-inventory/application.ts:304-309 | The ghost log of events is the list of events the calls of the run recorded, in order, none left out |
| InventoryRuns.CommitLasts | examples/native-inventory/application.ts:231-231 | A commit stays in the history of its resource for the rest of the run, whatever is deleted from the tables |
| InventoryRuns.NextCommits | examples/native-inventory/application.ts:213-242 | One call adds to the commits of a resource exactly the request it commits there, and to no other resource anything |
| InventoryRuns.NextLogs | examples/native-inventory/application.ts:304-309 | One call adds to the log of a resource exactly the event it records there, under the incarnation it records it for |
| InventoryRuns.VersionDeterminesContents | examples/native-inventory/application.ts:163-169 | No ABA: if a resource shows one version at two points of a run, then its row, stock, receipts and events are the same at every point between. A passing compare-and-swap means that nothing changed since the observation |
| InventoryRuns.RunGrows | examples/native-inventory/application.ts:223-230 | Along a run histories only get longer, ids are never created again, and a resource either is untouched or has a higher revision or an incarnation never drawn before |
| InventoryRuns.NextGrows | examples/native-inventory/application.ts:329-350 | The same for each single call, failed or not |
| InventoryRuns.EffectIsLocal | examples/native-inventory/application.ts:244-287 | A command changes no resource but the one it is for; only a fork creates one, and only a restore gives a new incarnation |
| InventoryRuns.RunIsSound | examples/native-inventory/application.ts:205-350 | The invariant of the database holds in every state of every run from provisioning |
| InventoryInvariant.NextKeeps | examples/native-inventory/application.ts:205-350 | Every write transaction, on whatever arguments, keeps the invariant: receipts and events are windows of history, levels in range, snapshots filed under their digests with distinct serials, derivations refer to stored snapshots |
| InventoryInvariant.ProvisionedIsSound | examples/native-inventory/application.ts:77-83 | The provisioned database satisfies the invariant |
| InventoryInvariant.FiledKeepsReceipts | examples/native-inventory/application.ts:231-238 | Filing a receipt keeps the receipts a window of the commits, through the rollover that closes an epoch, raises the floor and deletes what fell below it |
| InventoryInvariant.RecordedKeepsWindow | examples/native-inventory/application.ts:304-309 | Recording an event keeps the stored events exactly the last min(sequence, 128) of all recorded, under their own numbers |
| InventoryInvariant.NewKey | examples/native-inventory/application.ts:216-222 | A key of a retained epoch that has no receipt was never committed by anybody |
| InventoryInvariant.ItemsRestoreStock | examples/native-inventory/application.ts:296-303 | Listing a stock by SKU and inserting the list into an empty table gives the stock back, always within the budget and the checks |
| InventoryInvariant.NotTakenYet | examples/native-inventory/application.ts:256-264 | A snapshot never meets its own digest in the table: no version is captured twice |
| InventoryInvariant.NewWorkspaceId | examples/native-inventory/application.ts:269-270 | A workspace id made from a UUID never drawn was never the id of a resource, closed ones included |
| InventoryProgress.CommitsExactlyInRuns | examples/native-inventory/application.ts:205-242 | In every state of every run a request commits if and only if it is well-formed and bound to the current version and epoch of an accessible resource under a key never committed, its command is feasible, and there is room for another revision, epoch and event. No check of stored content, stock budget or id clash ever stops it |
| InventoryProgress.CommitsExactlyWhen | examples/native-inventory/application.ts:205-242 | The same for one state that satisfies the invariant |
| InventoryProgress.ApplyExactly | examples/native-inventory/application.ts:244-287 | Each effect succeeds exactly under conditions on parameters, levels, stored snapshots, privacy and the number of resources |
| InventoryProgress.StoredContentIsGood | examples/native-inventory/application.ts:288-303 | A stored snapshot always matches its identity, names a valid source version and goes into an empty table without error: reading it fails only if it is absent |
| InventoryProgress.RunKeepsSources | examples/native-inventory/application.ts:293-293 | In every state of every run each stored snapshot shows a version that a request can name |
| InventoryProgress.ResourcesAreBounded | examples/native-inventory/application.ts:268-268 | In no state of any run are there more than 64 resources |
| InventoryProgress.SnapshotIsRepeated | examples/native-inventory/application.ts:205-242 | From any provisioned database there is a run in which a request commits and its repetition is answered with the stored receipt and changes nothing: the premises of the at-most-once theorem are met |
| InventoryEffects.UnitsMove | examples/native-inventory/application.ts:245-255 | A committed reserve or release moves exactly the requested units of the requested SKU between available and reserved, in opposite directions, leaves every other level alone, and its receipt reports that SKU and that level |
| InventoryEffects.StockIsCaptured | examples/native-inventory/application.ts:256-264 | A committed snapshot leaves the stock, stores it under its digest with its revision and the number of its event, prunes, and its receipt names digest and source |
| InventoryEffects.WorkspaceIsForked | examples/native-inventory/application.ts:265-274 | A committed fork creates one private, enabled resource at revision 1 of a new incarnation, without receipts or events, holding exactly the items of the snapshot, files it as derived from that snapshot and its source, and reports all three |
| InventoryEffects.StockIsReplaced | examples/native-inventory/application.ts:275-285 | A committed restore or publication leaves exactly the items of the snapshot, a publication only of the reviewed candidate onto a private destination, and says which of the two it was |
| InventoryEffects.CommittedBooks | examples/native-inventory/application.ts:225-240 | Any committed request leaves the next revision and event number, one more use of the epoch or a new epoch whose predecessor alone stays recoverable, and a new incarnation only after a restore; it answers, not deduplicated, with a receipt for the version it leaves |
| InventoryEffects.OthersAreKept | examples/native-inventory/application.ts:244-287 | A committed request leaves all other resources, all snapshots unless it takes one, and all derivations unless it forks |
| InventoryEffects.UncommittedChangesNothing | examples/native-inventory/application.ts:143-156 | A mutation that does not commit leaves the database as it was |
| InventoryEffects.ForksKeepTheirSnapshot | examples/native-inventory/application.ts:262-272 | Over any run: from a committed fork on, in every state in which its workspace lives, the workspace is filed as derived from the snapshot and the snapshot is stored, however many were taken since |
| InventoryEffects.DerivationStays | examples/native-inventory/application.ts:71-75 | No call removes or changes the derivation of a workspace that lives on |
| InventoryEffects.AdjustmentsAdjust | examples/native-inventory/application.ts:329-338 | An adjustment succeeds if and only if amount, SKU, connection, access, version and event number allow it; it then sets the available units of that SKU, keeps the reserved ones, makes one revision and records one event saying so, and changes nothing else; otherwise nothing changes |
| InventoryEffects.AccessIsSet | examples/native-inventory/application.ts:340-345 | An access change succeeds if and only if the connection is writable and the resource exists, and then sets access as told and makes one revision |
| InventoryEffects.WorkspaceIsClosed | examples/native-inventory/application.ts:347-350 | Closing succeeds if and only if the connection is writable and the id is that of an accessible workspace; it removes its rows and its derivation and keeps every snapshot |
| InventoryEffects.ContentIsChecked | examples/native-inventory/application.ts:288-295 | Whatever is stored, a snapshot is read only under a well-formed identity that is the digest of its content and with a valid source; each other case has its error |
| InventoryEffects.ItemsAreChecked | examples/native-inventory/application.ts:296-303 | Whatever is listed, items make a stock if and only if they are at most 256, each in range under a SKU of its own; the stock is then exactly those items |
| InventoryEffects.InventoryIsProvisioned | examples/native-inventory/application.ts:77-83 | The rows of a new database |
| InventoryRefusals.RefusedExactlyBecause | examples/native-inventory/application.ts:205-287 | A mutation is refused with exactly the error of the first obstacle it meets, told from the request, the rows and all commits of history, and succeeds, as a commit or a replay, exactly where there is none |
| InventoryRefusals.OwnerRefusedExactlyBecause | examples/native-inventory/application.ts:329-350 | The same for manual adjustment, access change and closing |
| InventoryRefusals.ObserveRefusedExactlyBecause | examples/native-inventory/application.ts:171-189 | The same for observations, checks of the query included |
| InventoryRefusals.LookupRefusedExactlyBecause | examples/native-inventory/application.ts:191-203 | The same for lookups, with the conflict told from all commits of history |
| InventoryRefusals.PollRefusedExactlyBecause | examples/native-inventory/application.ts:310-321 | The same for polls |
| InventoryRefusals.SkuExactly | examples/native-inventory/application.ts:179-179 | A page token is 1 to 128 small letters, digits and hyphens |
| InventoryStock.SnapshotRetention | examples/native-inventory/application.ts:256-264 | The snapshot just returned survives its own pruning; every snapshot a live derivation refers to is kept; the unreferenced ones of the resource are at most 128; those of other resources stay |
| InventoryStock.PruningIsSelective | examples/native-inventory/application.ts:261-262 | Whatever pruning deletes belongs to the resource, is referenced by nobody, and was taken before everything of that kind it keeps |
| InventoryStock.PruningKeepsTheNewest | examples/native-inventory/application.ts:261-262 | Pruning keeps exactly 128 spare snapshots of the resource, or all if there are fewer, and everything that is none as it was; with the row above, a snapshot is deleted only if 128 newer spare ones are kept |
| InventoryStock.PrunedIsBounded | examples/native-inventory/application.ts:262-262 | After pruning at most 128 unreferenced snapshots of the resource are left |
| InventoryStock.DerivedSnapshotsAreKept | examples/native-inventory/application.ts:71-75 | In every state of every run, a derivation belongs to a live workspace and its snapshot is stored |
| InventoryStock.RestoreGivesBack | examples/native-inventory/application.ts:265-285 | Round trip over a run: whatever happens in between, a committed restore, publication or fork of a snapshot gives its destination exactly the stock the source had when the snapshot committed |
| InventoryStock.PerformedStock | examples/native-inventory/application.ts:244-303 | What a committed request makes of all stock: the destination shows the snapshot, a fork and a snapshot leave their source as it was, reserve and release keep units, all other resources are untouched |
| InventoryStock.CapturedStock | examples/native-inventory/application.ts:256-263 | The receipt of a committed snapshot names exactly the stock of its resource at that moment |
| InventoryStock.UnitsAreConserved | examples/native-inventory/application.ts:245-255 | Over any stretch of a run without adjustment, restore or publication of a resource, its SKUs and available + reserved of each stay the same, whatever else is called by anybody |
| InventoryStock.LevelsInRange | examples/native-inventory/application.ts:252-252 | In every state of every run available and reserved are within 0..2^53-1 and every SKU can stand in a page token |
| InventoryReads.PollIsContiguous | examples/native-inventory/application.ts:310-326 | A poll with a cursor demands a resync exactly if the cursor is of another incarnation, ahead of the log, or behind the window; otherwise it delivers the recorded events right after the cursor, none left out, up to the limit |
| InventoryReads.FirstPollIsTheWindow | examples/native-inventory/application.ts:315-324 | A poll without a cursor delivers the oldest events still stored, up to the limit, never demands a resync, and starts with the first event ever recorded if and only if at most 128 were recorded |
| InventoryReads.PollingIsGapFree | examples/native-inventory/application.ts:310-326 | However calls and polls interleave, a client that follows `next_cursor` and is never told to resync has received all events of the resource from its first cursor to its last, in order, each once |
| InventoryReads.PollingFromScratch | examples/native-inventory/application.ts:315-324 | A client that starts without a cursor and then follows `next_cursor` has received all events from the oldest stored at its start, and all that were ever recorded if and only if at most 128 were recorded by then |
| InventoryReads.EventsFromWindow | examples/native-inventory/application.ts:322-322 | The rows selected after a cursor inside the window are exactly the recorded events with the next numbers |
| InventoryReads.PageContinues | examples/native-inventory/application.ts:180-186 | A page lists the items right after those its cursor has behind it, and its own cursor has exactly the listed ones behind it |
| InventoryReads.PageShows | examples/native-inventory/application.ts:180-186 | Each row of a page carries one item with the current epoch and the oldest recoverable one; a page holds as many as asked for or the rest, and hands out a cursor to its last item, for its version and scope, exactly if there is more |
| InventoryReads.WalkShowsOneStock | examples/native-inventory/application.ts:177-177 | All pages of a walk carry one version and were read from one and the same stock, at whatever times they were read |
| InventoryReads.PagingIsExact | examples/native-inventory/application.ts:171-189 | A walk that reaches a complete page has listed exactly the stock at its version, in SKU order, without loss or repetition, for every choice of page limits; an unfinished one has listed a prefix that grows with every page |
| InventoryReads.ChangedStockStopsTheWalk | examples/native-inventory/application.ts:177-177 | If anything of the resource changed, or it was closed, after a page was read, the continuation fails |
| InventoryReads.ObserveShows | examples/native-inventory/application.ts:171-188 | A successful observation shows the resource, which is enabled, at its current version, and a cursor is accepted only for that version |
| InventoryStore.Inventory.MutateRequest | examples/native-inventory/application.ts:205-242 | The in-place transaction commits exactly what the model says or fails with its error and rolls every table back to what it was |
| InventoryStore.Inventory.MutateRows | examples/native-inventory/application.ts:213-241 | The body of the transaction, updating row by row, arrives at the state and reply of the model |
| InventoryStore.Inventory.PerformRows | examples/native-inventory/application.ts:221-240 | The part of it for a key without a receipt: epoch and version checked, effect and books written row by row |
| InventoryStore.Inventory.ApplyCommand | examples/native-inventory/application.ts:244-287 | The effect of a command on the tables in place is its effect in the model |
| InventoryStore.Inventory.Shift | examples/native-inventory/application.ts:245-255 | Reserve and release in place have the effect that `InventoryEffects.UnitsMove` gives by fields, or the error |
| InventoryStore.Inventory.TakeSnapshot | examples/native-inventory/application.ts:256-264 | Insert-or-ignore and prune in place |
| InventoryStore.Inventory.ForkWorkspace | examples/native-inventory/application.ts:265-274 | Fork in place, derivation included, has the effect that `InventoryEffects.WorkspaceIsForked` gives by fields, or the error |
| InventoryStore.Inventory.ReplaceContent | examples/native-inventory/application.ts:275-285 | Restore and private publication in place have the effect that `InventoryEffects.StockIsReplaced` gives by fields, or the error |
| InventoryStore.Inventory.ReplaceStock | examples/native-inventory/application.ts:296-303 | Deleting all rows and inserting item by item gives the stock that holds exactly the items, or the error of the first bad or repeated item |
| InventoryStore.Inventory.RecordEvent | examples/native-inventory/application.ts:304-309 | Numbering, inserting and trimming in three updates is one step of the event window |
| InventoryStore.Inventory.FileReceipt | examples/native-inventory/application.ts:231-238 | Inserting the receipt, counting it and rolling the epoch over in separate updates is one step of the receipt window |
| InventoryStore.Inventory.Book | examples/native-inventory/application.ts:225-239 | Revision, receipt, counter and event of a committed request, update by update |
| InventoryStore.Inventory.AdjustStock | examples/native-inventory/application.ts:329-338 | Manual adjustment in place does what `InventoryEffects.AdjustmentsAdjust` gives by fields, or fails with the error and changes nothing |
| InventoryStore.Inventory.SetAccessTo | examples/native-inventory/application.ts:340-345 | Access change: commits the model's next state, or fails and changes nothing |
| InventoryStore.Inventory.CloseWorkspace | examples/native-inventory/application.ts:347-350 | Closing deletes the rows of the workspace and its derivation and keeps its snapshots, or fails and changes nothing |
| InventoryStore.Inventory.SelectPage | examples/native-inventory/application.ts:178-186 | Selecting one row more than the limit tells exactly whether there is a next page, and the page is that of the ordered rest |
| InventoryStore.Inventory.ObserveStock | examples/native-inventory/application.ts:171-189 | The page or error the model gives for the current tables |
| InventoryStore.Inventory.LookUp | examples/native-inventory/application.ts:191-203 | The recovery record or error the model gives for the current tables |
| InventoryStore.Inventory.PollEvents | examples/native-inventory/application.ts:310-326 | The poll or error the model gives for the current tables |
| InventoryStore.Inventory.constructor | examples/native-inventory/application.ts:77-83 | A new store holds exactly the provisioned rows |
| InventoryStore.InsertedFails | examples/native-inventory/application.ts:299-302 | Once an item is refused, no later item changes the verdict |
| InventoryDigests.TextIsInjective | examples/native-inventory/application.ts:23-26 | With the concrete canonical encoding, two digests have one text only if they are of one kind and content: a request digest binds command, version, epoch, key and parameters, a snapshot digest its source and items. Stated for digests in which a foreign text is the digest of nothing and malformed parameters have none of the valid shapes |
| InventoryDigests.DomainsDiffer | examples/native-inventory/application.ts:259-259 | No request digest is ever a snapshot digest, whatever their contents |
| CanonicalJson.DigestIsInjective | scripts/native-sdk/host_e2e.py:31-52 | Equal digests come from equal domains and equal values, objects compared as maps, at any nesting, for domains with or without a newline |
| CanonicalJson.EncodeIsInjective | scripts/native-sdk/host_e2e.py:32-49 | Equal canonical texts come from equal values |
| CanonicalJson.EncodingsSplitAlike | scripts/native-sdk/host_e2e.py:32-49 | No canonical text is continued by another: two texts that agree after appending anything that starts with no digit end at the same place |
| CanonicalJson.QuotedIsUnique | scripts/native-sdk/host_e2e.py:33-34 | An escaped string in quotes can be read back from the front of any text in one way |
| CanonicalJson.EscapeIsPrefixFree | scripts/native-sdk/host_e2e.py:33-34 | The escapes of RFC 8259, section 7, can be told apart one after the other |
| CanonicalJson.NumeralsSplitAlike | scripts/native-sdk/host_e2e.py:35-38 | Integers, signs included, can be told apart where no digit follows |
| CanonicalJson.ListsSplitAlike | scripts/native-sdk/host_e2e.py:39-40 | Comma-separated bracketed lists of separable parts are separable, part by part |
| CanonicalJson.EncodeIsOneLine | scripts/native-sdk/host_e2e.py:51-51 | A canonical text has no newline, so the domain ends at the last newline of the payload |
| CanonicalJson.PayloadIsUnique | scripts/native-sdk/host_e2e.py:51-51 | Domain and text are recovered from the payload, whatever newlines the domain has |
| CanonicalJson.EncodesExactValues | scripts/native-sdk/host_e2e.py:36-37 | The encoder raises exactly on values that hold, at any depth, an integer out of the exact range or a number that is none |
| JsonReader.ValueReads | scripts/native-sdk/host_e2e.py:32-49 | Round trip: a reader after RFC 8259, independent of the printer, gives back every value from its canonical text, nested and with whatever follows, and stops where the text ends |
| JsonReader.StringReads | scripts/native-sdk/host_e2e.py:33-34 | Every string is read back from its escapes, each short form as the character section 7 of RFC 8259 says |
| JsonReader.EscapeIsShortest | scripts/native-sdk/host_e2e.py:33-34 | Of all ways to write a character in a string, the canonical one is the shortest, and where a code is needed the one in lower case |
| JsonReader.ObjectsAreSorted | scripts/native-sdk/host_e2e.py:44-48 | An object is written member by member, each name once, in ascending order of the UTF-8 of the names |
| JsonReader.DigestIsOfThePayload | scripts/native-sdk/host_e2e.py:51-52 | What is digested is the domain, a newline, and a text that reads back as the value |
| Text.Utf8KeepsOrder | scripts/native-sdk/host_e2e.py:44-44 | Sorting keys by their UTF-8 bytes is sorting them by code points, and UTF-8 is injective |
| Text.AscendingIsUnique | scripts/native-sdk/host_e2e.py:44-44 | Sorted keys depend only on the set of keys, not on the order in which they were given |
| Text.DigitRunIsUnique | scripts/native-sdk/host_e2e.py:38-38 | A numeral is read off the front of a text in one way |
| Text.ByteLengthIsUtf8Length | sdk/native-typescript/src/index.ts:42-45 | The byte length that bounds identifiers is the length of their UTF-8 bytes |
| Text.TextExactly | sdk/native-typescript/src/index.ts:42-45 | An identifier is not empty, has at most so many bytes of UTF-8, and no control character of either range |
| TableEvaluation.Evaluate | examples/native/table.rs:154-162 | Evaluation succeeds exactly on the accepted sheets, said without evaluating: inputs exist, no formula chain beyond 64, a solution with all partial sums finite and all sums bounded; it returns that solution; a success takes one visit per cell and per input, and no run more than 8448 of the 16384 allowed |
| TableEvaluation.Evaluation.Value | examples/native/table.rs:90-151 | The memoised recursion gives the verdict and value of plain recursion at the same depth, whatever is memoised; memo entries are true values with true longest chains; the active set is restored; depth plus chain is at most 64; visits are counted exactly |
| TableEvaluation.Evaluation.SumInputs | examples/native/table.rs:125-139 | The loop over inputs computes the plain left-to-right sum, its verdict and its longest chain |
| TableEvaluation.Evaluation.Values | examples/native/table.rs:157-160 | Whatever order the cells are visited in, all values are those of plain recursion from a fresh depth |
| TableEvaluation.EvaluateCells | examples/native/table.rs:154-162 | On a checked sheet: success exactly if plain recursion succeeds on every cell, its values, and the exact work |
| TableEvaluation.WorkOfASheet | examples/native/table.rs:31-58 | A checked sheet has at most 256 * 32 formula inputs, so the visit budget never decides |
| TableEvaluation.ApplyEdit | examples/native/table.rs:187-207 | An edit goes through exactly if the sheet before and the sheet after are accepted and the parameters have the right shape, and then changes that one cell |
| TableEvaluation.Dependencies | examples/native/table.rs:213-227 | For an accepted sheet, the set of all pairs of an input and its formula |
| TableModel.AcceptedIsPlain | examples/native/table.rs:90-162 | Acceptance by existence of a solution and short chains is the same as success of plain recursion everywhere, and the solution is unique: two independent definitions |
| TableModel.AddressesAreLetterAndNumber | examples/native/table.rs:12-18 | Addresses are exactly the letters followed by the numerals from 1 to 99 |
| TableModel.PlainAtDepth | examples/native/table.rs:100-107 | A cell that evaluates at one depth evaluates at another exactly where its longest chain still fits, with the same value: the check made for a memoised cell is the one plain recursion makes |
| TableModel.RelationsAreAcyclic | examples/native/table.rs:213-227 | The reported relations of an accepted sheet have no cycle and no path of more than 64 steps |
| TableModel.EditIsLocal | examples/native/table.rs:187-207 | After an accepted edit a cell that differs is the edited one or is reached from it along the relations reported before, and as well along those reported after |
| TableModel.UnreachedIsUnchanged | examples/native/table.rs:90-151 | A cell that the edited cell does not reach evaluates as before at every depth, errors included |
| TableModel.NewCellIsUnused | examples/native/table.rs:204-204 | Filling a cell an accepted sheet does not have changes no other cell |
| Downloads.QuotasHoldExactlyIfEnforceable | crates/adapters/src/chromium.rs:280-338 | For fixed limits, the unmarked records stay within count, per-file and total limits over all sequences of calls if and only if count < 2^32-1 and either total < 2^64-1 or count * per_file < 2^64 |
| Downloads.QuotasHold | crates/adapters/src/chromium.rs:280-338 | After any calls the counters are the saturated true number of records, sum of bytes and number of marks, for any limits; and enforceable quotas hold |
| Downloads.ReportsPass | crates/adapters/src/chromium.rs:310-330 | Why the condition is needed: reports that exceed nothing a saturated counter can show mark nothing, however many |
| Downloads.MarksStay | crates/adapters/src/chromium.rs:331-336 | A mark is never taken back and received bytes never shrink, over any further calls |
| DownloadHistory.RecordsAreReports | crates/adapters/src/chromium.rs:303-330 | After any reports with any limits, a download has a record exactly if it was reported, with the most bytes ever reported, the last size hint given, and the first 32 characters of the last state |
| DownloadHistory.AnswersAreShown | crates/adapters/src/chromium.rs:292-338 | `begin` and `progress` answer true exactly if the reports so far, counted by themselves, show the download over a limit: for `begin` the number of downloads alone, for `progress` also its bytes, its hint, or all bytes |
| DownloadHistory.MarksAreOvers | crates/adapters/src/chromium.rs:331-336 | After any reports a download is marked exactly if some report on it ever showed it over a limit |
| DownloadHistory.ListedExactlyIf | crates/adapters/src/chromium.rs:987-1017 | After any reports under enforceable limits a file is listed if and only if it is suitable, the last report on it said "completed", and no report ever showed it over a limit |
| Downloads.OverIsStickyExactlyIf | crates/adapters/src/chromium.rs:319-330 | For a download reported before, `progress` answers true after whatever else is reported, with whatever arguments, if and only if the count is exceeded, or its bytes, or the total. A size hint over the limit alone does not suffice: `OverIsNotSticky` is a run where a smaller hint turns the answer to false |
| Downloads.ConfiguredQuotasHold | crates/adapters/src/chromium.rs:130-140 | Under every configuration that passes validation the limits are enforceable, and the quotas hold after any calls |
| Downloads.ArtifactsAreComplete | crates/adapters/src/chromium.rs:987-1017 | After any calls under enforceable limits the artifacts are exactly the completed, unmarked, suitable files, at most `count`, none beyond the per-file limit |
| Downloads.ListArtifacts | crates/adapters/src/chromium.rs:987-1017 | The loop lists the artifacts in order, stops early only at the count, and lists all of them if they are no more than the count; so after any calls under enforceable limits the early break cuts nothing off |
| Downloads.DownloadState.Begin | crates/adapters/src/chromium.rs:292-302 | `begin` in place: record, counter, mark and answer |
| Downloads.DownloadState.Progress | crates/adapters/src/chromium.rs:303-338 | `progress` in place; by `DownloadHistory` its records and answers are what the reports say |
| HitTest.HitTestMeaning | crates/adapters/src/chromium.rs:1889-1966 | If one document holds the target, its nodes have distinct ids and form a forest of depth under 512, and walks from what its layout names end within 512 steps too, the test is true exactly if the entry painted on top of the point belongs to the target, an ancestor or a descendant of it |
| HitTest.HitMatchesTarget | crates/adapters/src/chromium.rs:1889-1966 | The two nested loops compute the best of all candidates of all documents that hold the target, or the error of the first such document with a malformed layout |
| HitTest.HitInDocument | crates/adapters/src/chromium.rs:1919-1963 | The loop over one layout continues the best candidate so far through all of its covering entries |
| HitTest.TopmostDecides | crates/adapters/src/chromium.rs:1953-1965 | In any readable document the verdict is that of the entry with the greatest (paint order, layout index) among those covering the point |
| HitTest.CoversIsContains | crates/adapters/src/chromium.rs:1920-1948 | What the loop takes for an entry under the point is one that names a node and whose box of four numbers and positive size contains the scrolled point, edges included |
| HitTest.PaintIsOrder | crates/adapters/src/chromium.rs:1949-1961 | What it takes for later painted is a greater paint order, an entry without one counting by its index, or the same and a greater index |
| HitTest.BestIsLast | crates/adapters/src/chromium.rs:1957-1962 | Among candidates of several documents that none is painted above, the last one counts |
| HitTest.AncestorsAreReached | crates/adapters/src/chromium.rs:1834-1849 | Walking up arrives exactly at the ends of lines of nodes each followed by the parent the snapshot gives it |
| HitTest.WalksAreConverses | crates/adapters/src/chromium.rs:1825-1887 | Walking up from a node to another's id succeeds exactly when walking up from that id's node arrives at the first, with the same cut at 512, also in malformed graphs |
| HitTest.WalksDecideAncestry | crates/adapters/src/chromium.rs:1825-1887 | In forests of depth under 512 both bounded walks decide unbounded ancestry, also from an index that is no node as long as its walk ends in time |
| HitTest.NodeIsTargetOrDescendant | crates/adapters/src/chromium.rs:1825-1852 | The loop finds the target exactly if it is fewer than 512 steps up |
| HitTest.NodeIsAncestorOfTarget | crates/adapters/src/chromium.rs:1854-1887 | The loop finds the node exactly if it is fewer than 512 steps up from the first node with the target's id |
| Identity.NodeInFrameRoundTrip | crates/adapters/src/chromium.rs:1324-1348 | A node reference with a frame is read back exactly as printed if and only if the tab has no '#' and the frame is not empty, at most 256 bytes, and free of "#node:" |
| Identity.NodeRoundTrip | crates/adapters/src/chromium.rs:1349-1355 | A node reference without a frame is read back if and only if the tab has no '#' |
| Identity.FrameRoundTrip | crates/adapters/src/chromium.rs:1357-1368 | A frame reference is read back if and only if the frame is not empty and at most 256 bytes and the tab is free of "#frame:" |
| Identity.IdentitiesAreDistinct | crates/adapters/src/chromium.rs:965-968 | No two nodes have one reference, for tabs without '#', frames that are not empty, at most 256 bytes and free of "#node:", and numbers that fit u64 |
| Identity.DomIsReadExactly | crates/adapters/src/chromium.rs:1324-1356 | A `dom` reference is read if and only if it is a tab without '#', and a number, or a bounded frame free of "#node:" and a number, with their separators; and it is read as these |
| Identity.TabsAndFramesAreReadExactly | crates/adapters/src/chromium.rs:1321-1374 | Any text is read as a tab; a frame reference if and only if it is a tab free of "#frame:", the separator, and a bounded frame; and no other kind at all |
| Identity.FindIsFirst | crates/adapters/src/chromium.rs:1325-1329 | A separator is found where it occurs first, and nowhere exactly if it does not occur |
| Identity.FindFirst | crates/adapters/src/chromium.rs:1325-1329 | A separator is found where it was put unless it occurs earlier on its own, for the separators in use |
| Bridge.StepKeeps | adapters/blender/semwright_blender/host.py:103-174 | Every step of every thread, in every interleaving, keeps the invariant of slots, connections, queue, jobs, threads and frames |
| Bridge.RunKeeps | adapters/blender/semwright_blender/host.py:103-174 | The invariant holds after every sequence of steps |
| Bridge.SlotsAreConserved | adapters/blender/semwright_blender/host.py:112-117 | In every interleaving free slots plus connections served or being taken in make eight, so at most eight are served; a slot is only given back while one is missing; once none is served all are free and no connection is left to shut down |
| Bridge.JobsRunInOrder | adapters/blender/semwright_blender/host.py:155-173 | In every interleaving the queue has at most 32 jobs, waiting in the order in which they were taken up; jobs run in that order, each at most once, and no connection has two; a job neither done nor cancelled is in the queue or in the main thread's hand, and its thread stands by |
| Bridge.AnswersAreOwn | adapters/blender/semwright_blender/host.py:145-145 | In every interleaving, a frame with a response carries the id of the request of its own connection and the response of that connection's job, which ran; a null frame means that the job ran out of time and never ran |
| Bridge.DispatchGivesResponse | adapters/blender/semwright_blender/host.py:165-172 | Of the steps of the main thread only the dispatch of a job gives it a response, its first, and that is the outcome of the dispatch under the id of the request |
| Bridge.ServingKeepsResponse | adapters/blender/semwright_blender/host.py:119-153 | No step of a serving thread changes a response, an id or an owner |
| Bridge.StartsExactlyIfWanted | adapters/blender/semwright_blender/host.py:162-164 | The one step that lets a job through is the main thread's look at the job it took, and it does so exactly if the job is then neither cancelled nor late |
| Bridge.GivenUpNeverRuns | adapters/blender/semwright_blender/host.py:134-148 | Over any run, a job cancelled or late before it was let through never runs, whatever happens afterwards |
| Bridge.AbandonedNeverRuns | adapters/blender/semwright_blender/host.py:134-153 | Over any run, a job whose thread no longer waits for it before it was let through never runs: every way out of the wait cancels |
| BridgeDecisions.CheckDecides | adapters/blender/semwright_blender/host.py:134-144 | A waiting thread gives its job up and leaves if and only if the server is stopped, the job's time is over or its peer has closed; otherwise it waits on and no job changes |
| BridgeDecisions.CheckedAwayNeverRuns | adapters/blender/semwright_blender/host.py:134-144 | Over any run: if a thread looks while one of the three holds and the job was not let through by then, the job never runs |
| BridgeDecisions.FailedThreadsJobNeverRuns | adapters/blender/semwright_blender/host.py:146-148 | Over any run: nor does the job of a thread that failed before it was let through |
| BridgeDecisions.QuitDecides | adapters/blender/semwright_blender/host.py:146-148 | A thread that fails at anything leaves, and cancels its job if it has one |
| BridgeDecisions.PutDecides | adapters/blender/semwright_blender/host.py:132-133 | A request becomes a job with 120 seconds to live, queued if and only if fewer than 32 wait, and otherwise cancelled at once |
| BridgeDecisions.WaitDecides | adapters/blender/semwright_blender/host.py:134-134 | A thread goes on to answer if and only if its job is done |
| BridgeDecisions.AcceptDecides | adapters/blender/semwright_blender/host.py:105-117 | A connection is taken in if and only if it comes from the same user and a slot is free |
| BridgeDecisions.OnlyTheSameUserIsServed | adapters/blender/semwright_blender/host.py:111-114 | In every interleaving a connection that has a thread, a request or an answer was offered by the same user |
| BridgeDecisions.RequestsWereSent | adapters/blender/semwright_blender/host.py:126-131 | In every interleaving the request of a connection is one it sent, with an id of 32 hexadecimal digits |
| BridgeDecisions.StoppedAcceptsNoMore | adapters/blender/semwright_blender/host.py:104-110 | Over any run: once the server is stopped, and but for a wait already begun, no connection is accepted |
| BridgeDecisions.RequestIsAnswered | adapters/blender/semwright_blender/host.py:119-173 | From the start there is a run that answers a request with its id and the outcome of its command, after which all slots are free and no connection or thread is left |
| Bridge.LateJobsGetNullFrames | adapters/blender/semwright_blender/host.py:162-164 | Whenever a waiting job's time runs out before it is taken and its thread finds it done before it looks at the clock, the thread writes a null frame |
| Bridge.NullFramesOccur | adapters/blender/semwright_blender/host.py:162-164 | Such a run exists: from the start, one connection whose request is taken up and first looked at by the main thread after its time, is answered with a null frame |
| Bridge.DrainingKeepsLine | adapters/blender/semwright_blender/host.py:157-173 | Taking, dropping, dispatching and finishing keep the line of jobs that ran, are at hand or wait strictly increasing |
| Bridge.DrainServes | adapters/blender/semwright_blender/host.py:155-173 | Left to itself, a call of `drain` ends with the first `max_jobs` jobs of the queue done, or all if there are fewer; of these exactly the ones neither cancelled nor late have run, in order, and no other job is touched |
| BridgeDecisions.DrainCallServes | adapters/blender/semwright_blender/host.py:155-173 | A call of `drain` with any `max_jobs` from an idle main thread, left to itself, does that and is idle again |
| Bridge.OneTurn | adapters/blender/semwright_blender/host.py:158-173 | One turn of its loop does so for the first job |

## Left out

- SQLite itself: PRAGMAs, statement caching, constraints, isolation between processes and the error for an uncertain
  commit; a transaction here commits or leaves everything as it was.
- SHA-256: in the state machine a digest is a symbol for its content, so equal digests have equal contents, and a text
  that is no digest of anything is a symbol of its own; in `CanonicalJson` it is the input written in hexadecimal, which
  keeps the alphabet and gives up the length of 64.
- Parsing of JSON: requests arrive as typed parameters or as `Malformed`, cursors and stored rows as values.
- Revisions are numbers; a revision text that is not a canonical decimal never matches one and is not modelled.
- The structural and byte budgets of the SDK on values and replies, and its second check of an observation.
- `publish`, which checks the destination version and calls `mutate`; `diagnostics`; opening and closing of the
  database.
- Two UUIDs are set aside for every mutation, whether or not its command draws them.
- The table: the outer JSON shape of the state, `projection`, `export` and the published schema; binary64 is any
  arithmetic.
- The hit test: coordinates are real numbers, with absent for what is not finite; rounding is not modelled.
- Files of downloads are a map from names to lengths of suitable files; removal of files and messages to the
  browser are not modelled.
- References: the marker around an identity, with revision and fingerprint, and the check of liveness at use.
- The bridge: steps on a state value instead of an object shared by threads; frames, greetings and sockets only as far
  as they move a thread on; failure to start a thread; deletion of the socket file; a stop is one step and any thread
  may meet a socket error at any time.
- Counters, scenes, the Blender schema and audio intents, CDP transport and input dispatch, scripts for release and CI.
