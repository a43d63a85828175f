# A verified model of the OPNsense host override provider

This project models the write and read paths of an external-dns webhook that keeps DNS
records as OPNsense Unbound host overrides, running against a firewall that may refuse,
lose, break or garble any request. It proves what the apply engine keeps over whole runs,
for every plan, every starting table, every interleaving of workers and every choice the
firewall makes.

Run `dafny verify dfyconfig.toml` in this directory to check everything.

## How it is laid out

- **Text and rows.** `Order`, `Names` and `Rows` hold strings, names, TTLs, TXT values, rows
  and write bodies. `Spelling`, `TTLText` and `Filtering` say letter by letter what they
  come to, and `Columns` what a written row looks like.
- **Tables and plans.** `Table` holds the saved table, the provider's index, and what one
  write call does to each. `KeyPlan` holds the calls one record set needs in one phase.
- **The protocol.** `Engine` is the four-phase apply as a protocol over write calls: a phase
  is any interleaving of its keys' calls, and each call is acknowledged or not and applied
  or not, independently, as the firewall chooses. `Runs` holds what every run keeps.
- **Whole-run theorems.** `NeverEmpty`, `Ownership`, `PlanOwnership`, `KeptSurplus`, `Frame`
  and `Safety` (safety), `Verify` (loss detection), `Converge`, `Progress`, `Retries` and
  `Minimal` (convergence), and `Schedule` (independence of keys). `SmallRuns` builds the runs
  that show where a property ends.
- **The environment.** `FirewallApi` is the firewall as a class with a queue of faults.
- **The program.** `WriteClient` (retry loops and the page loop), `Paging` (the rules for
  accepting a read), `TableSnapshot` (the index edited in place), `WebhookProvider` (pending
  flag and reload), `Fold` (plan to desired sets, and the endpoint filter; `FoldOrder` says
  what depends on the order), `Converging` (the loops over one key), `Apply` (phases,
  verification reads, one whole apply, and applies one after another), `Endpoints`
  (grouping) and `Serving` (reads and the startup check) are classes and methods over
  mutable state. `CallLog`, `PlanSteps` and `PhaseLog` connect them to the protocol:
  `Apply.ApplyChanges` is proved to be one run of the engine, and every table the firewall
  saved meanwhile to be a point of that run, so the whole-run theorems hold of the program.
- **The reads.** `Canonical` and `ReadBack` say what the endpoint view promises, and
  `ServedView` that it shows what is served. `Aliases` says which aliases hold a delete up.
- **The shared state.** `Pending` and `WriteLock` are state machines, one access to shared
  state per step, for the pending flag and for the client's write lock.

## Standing assumptions

- The provider is the only writer while an apply runs. (`Paging.AcceptedReadIsExact` is
  about reads under other writers.)
- A request that failed after its commit has committed by the time the client sees the
  failure; a 429 is answered before the request is processed.
- The firewall gives every created row an identity it has never used. Identities are
  numbers here.
- Text is ASCII. Where a theorem needs well-formed names or domains it says so.
- Runs of the engine, and `ApplyChanges`, are about plans whose names join back to
  themselves once split (`Engine.JobOk`). `Fold.FoldedSetsAreWritable` says which plans
  these are: every folded name is a fixed point of normalisation, as that of any endpoint
  the filter has passed is (`Fold.KeptIsAccepted`), and its hostname half ends in neither a
  space nor a dot.

## Names that move

`a..example.com` under the domain `example.com` is such a name (`Fold.NameThatMoves`): the
filter keeps it, the fold accepts it, and its two halves join to `a.example.com`. What the
code does with it is in `Verify.MisfiledCreate`. A create saves a row under the other name;
the re-read finds it as written, so the apply may answer nil although the record set it was
meant for is as it was, and the next apply creates another row. Only an update of a row
filed under the misspelt name checks where the row belongs, and then the program panics.
Such plans are left out of the engine because one key's creates then change another key's
rows, and nothing that holds key by key holds of them.

## How far the gates reach

A data key whose update failed keeps the rows it no longer wants, and that does not count
as a failure of the data removes: registry rows deleted by the same plan go in the same
apply (`KeptSurplus.RegistryGoesSurplusStays` is such a run). `Ownership.KeptBehindTheGate`
says exactly which data keys still have an undesired row behind an open last gate; deleted
data keys never do.

## Where the code differs from its documentation

The model follows the code.

- An A or AAAA endpoint with an empty target passes the filter and the fold and is refused
  by the firewall on every attempt: `Fold.EmptyTargetIsFolded` and
  `Retries.EmptyTargetNeverWorks`. Progress is stated for plans whose write bodies the
  firewall accepts, and in a plan that folds cleanly an empty address target is the only
  one it does not: `ReadBack.FoldedIsAcceptable`.
- The comment on the fold says that invariant I1 holds for a registry row it drops as for
  one whose write failed. It does for a key dropped for an invalid TXT target, and not for
  one dropped for a conflict, for having no targets or for its name: no gate shuts, and the
  plan's data rows are created unclaimed. In the same way a data delete dropped for a
  conflict or for its name lets the registry rows of the plan go before its rows.
  `PlanOwnership.RegistryFirstExactly` and `PlanOwnership.DataGoneFirstExactly` say for
  exactly which endpoints I1 holds in every run of a plan, and
  `PlanOwnership.ConflictLeavesUnclaimed`, `PlanOwnership.NoTargetsLeavesUnclaimed` and
  `PlanOwnership.ConflictLeavesStranded` are plans for which it does not.
- Which TXT keys count as rejected depends on the order of the definitions exactly when some
  key in conflict has an invalid one, and whether any does exactly when every such key is in
  conflict: `FoldOrder.RejectedDependsOnOrder` and `FoldOrder.GateDependsOnOrder`.
- The drop reason reserved for odd names can never be given: `Fold.KeptIsAccepted`.
- The pending flag alone does not say whether served and saved differ exactly while an apply
  has marked a write and its own reload has not published: `Pending.FlagFailsExactly`.
- A row whose name is not spelled out, with a blank or a dot at the end of a half, is served
  under another name than the one it is filed under: `ServedView.ServedUnderKey`. The startup
  check takes such a managed row for unserved unless another is served there. A stored TXT value that stands in
  quotes already is shown as it is and served in two pairs: `ServedView.ValueIsTarget`.

## Model

| member | source | states |
|---|---|---|
| `Names.BestDomain` | internal/opnsense/names.go:58-63 | the domain chosen covers the name and no configured domain that covers it is longer |
| `Names.SplitName` | internal/opnsense/names.go:56-75 | the loop and the checks after it answer as specified, rejections included |
| `Names.JoinUndoesSplit` | internal/opnsense/names.go:18-30 | joining a split name gives the name back exactly when it is a fixed point of normalisation and its host half ends in neither space nor dot |
| `Names.NormalForm` | internal/opnsense/names.go:12-14 | normalising leaves a name alone exactly when it is lower-case, untrimmed and has no final dot |
| `Spelling.NormalisesExactly` | internal/opnsense/names.go:11-14 | a text normalises to n exactly when it is n with letters raised to capitals, at most one final dot put after it, and blanks put at either end, and n has no capital |
| `Spelling.JoinsExactly` | internal/opnsense/names.go:16-30 | a hostname of dots alone is no hostname, and a half that is empty leaves the other |
| `Spelling.AnySplitJoins` | internal/opnsense/names.go:16-30 | rows that split one name differently have the same joined name |
| `Names.ClampTTL` | internal/opnsense/names.go:83-92 | a TTL in range is kept, one above the ceiling becomes the ceiling, a negative one 0 |
| `Names.TTLRoundTrip` | internal/opnsense/names.go:95-100 | a clamped TTL survives being written as text and parsed back |
| `TTLText.ClampsExactly` | internal/opnsense/names.go:80-92 | the range is 0 to 2147483647 |
| `TTLText.ParsesExactly` | internal/opnsense/dto.go:148-159 | a stored TTL is its decimal value if it is figures, signed plus or not at all, and fits 64 bits; anything else is unset |
| `Rows.ValidateTXT` | internal/opnsense/dto.go:283-304 | accepts exactly one quoted string of 1 to 255 printable characters without quote or backslash, and returns it bare |
| `Rows.TXTRoundTrip` | internal/opnsense/dto.go:273-278 | quoting the stored value of a valid TXT target gives the target back |
| `Filtering.QuotedIsValid` | internal/opnsense/dto.go:283-304 | the valid TXT targets are exactly the double-quoted texts of 1 to 255 printable characters without quote or backslash |
| `KeyPlan.AddFacts` | internal/opnsense/apply.go:509-567 | every call of an add phase writes one desired target, into a stale row carrying it, a surplus row or a new row, and never one some row already carries |
| `KeyPlan.AddDistinct` | internal/opnsense/apply.go:534-565 | no target is written twice and no row is written twice |
| `KeyPlan.AddCovers` | internal/opnsense/apply.go:516-565 | each desired target has an up-to-date row or a call that writes it |
| `KeyPlan.AddKeepsOne` | internal/opnsense/apply.go:530-560 | a key that has a row and wants one keeps an original row, by target or by reuse |
| `KeyPlan.RemoveFacts` | internal/opnsense/apply.go:575-603 | deletes name only undesired rows without enabled aliases; unless blocked, all undesired rows go; blocked exactly if an undesired row has an enabled alias |
| `Aliases.BlockedByServedAlias` | internal/opnsense/apply.go:584-588 | deletes of a key are blocked exactly when an undesired row has an alias that the view lists, which a switched-off alias is not |
| `Aliases.SwitchedOffAliasesGo` | internal/opnsense/apply.go:635-642 | a fault-free apply that deletes a record set whose aliases are all switched off leaves no row of it |
| `Table.WorldStep` | internal/opnsense/apply.go:224-257 | any call the apply path can issue keeps index and table well-formed: rows stay filed under their key and share aliases with their saved row |
| `Table.AtStep` | test/fake/fake.go:468-585 | a call moves the saved rows of its own key and of no other |
| `Table.IndexAtStep` | internal/opnsense/snapshot.go:144-180 | an index entry follows exactly the calls acknowledged for its key |
| `Engine.PlanLegal` | internal/opnsense/apply.go:498-603 | a key's planned calls name only indexed rows of that key, each once, and write only bodies of that key |
| `Engine.PhasePrefix` | internal/opnsense/apply.go:376-411 | at every point of every interleaving, each key's saved rows and index entry are where its own calls take them, and the next call is legal |
| `Runs.RunTracks` | internal/opnsense/apply.go:356-422 | the same at every point of a whole run |
| `Runs.PhaseIds` | internal/opnsense/apply.go:509-603 | within a phase no row is written twice and created rows have new identities |
| `Runs.AddCompletes` | internal/opnsense/apply.go:506-567 | after a completed add phase each desired target has a row with the wanted ttl, description and addptr |
| `Runs.AddKeepsOriginal` | internal/opnsense/apply.go:530-560 | and some original row carries a desired target |
| `Columns.BodyColumns` | internal/opnsense/apply.go:645-660 | a write body is switched on and has the set's name, type, target and TTL, the owner marker, and addptr "1" exactly when that is configured and the record is no TXT |
| `Columns.AcceptsExactly` | test/fake/fake.go:442-466 | a body is accepted exactly when it has both halves of a name, a known type and a value of that type |
| `Columns.SavedColumns` | test/fake/fake.go:490-496 | a committed write saves the body's columns, a flag left out as "1", and no MX |
| `Columns.ConvergedColumns` | internal/opnsense/apply.go:509-567 | after a clean, verified apply every desired target has a saved row at its key with the owner marker, that addptr and the set's TTL |
| `Runs.CallFacts` | internal/opnsense/apply.go:376-411 | every call of a run is one its key's plan contains |
| `NeverEmpty.NeverEmpty` | internal/opnsense/apply.go:384-391 | I2: a record set that has a row and wants one keeps an original row, never deleted and visible in every intermediate saved table, under every fault schedule |
| `Ownership.DataNeedsRegistry` | internal/opnsense/apply.go:64-85 | I1 over the folded sets, creating: if the registry-add phase's verification read succeeded, an intermediate table with a data row at a name that had none shows every desired target of every registry key that the fold kept, and no TXT target was rejected |
| `Ownership.RegistryOutlivesData` | internal/opnsense/apply.go:64-85 | I1 over the folded sets, deleting: if the data-remove phase's verification read succeeded, no row of a deleted data key that the fold kept is left in a table that lacks a row of a deleted registry key |
| `Ownership.KeptBehindTheGate` | internal/opnsense/apply.go:575-579 | with verified data phases and an open last gate, a data key still has an undesired row exactly when it wants rows, failed before the data removes and had such a row then |
| `KeptSurplus.RegistryGoesSurplusStays` | internal/opnsense/apply.go:575-579 | a run, for any such name and plan, in which a data key keeps its undesired row while a deleted registry row goes |
| `PlanOwnership.RegistryFirstExactly` | internal/opnsense/apply.go:259-267 | I1 of a plan, creating: in every run each new data row stands beside the rows of a TXT endpoint of the plan, exactly when the fold keeps its record set, or rejected some TXT target, or the plan has no data set whose targets are all non-empty |
| `PlanOwnership.DataGoneFirstExactly` | internal/opnsense/apply.go:316-322 | I1 of a plan, deleting: in every run no row of a deleted data endpoint is left once a deleted registry row is gone, exactly when the fold takes the delete in, or the plan deletes no registry set |
| `PlanOwnership.KeptWhenAccepted` | internal/opnsense/apply.go:279-323 | off rejections, a TXT endpoint with targets is kept exactly when it is accepted and its key is not in conflict |
| `PlanOwnership.UnclaimedRun` | internal/opnsense/apply.go:316-321 | for any such plan, a run in which a data row appears while nothing is filed at the dropped registry key |
| `PlanOwnership.StrandedRun` | internal/opnsense/apply.go:316-321 | for any such plan, a run in which a deleted registry row goes while rows stay filed at the dropped data key |
| `PlanOwnership.RefusedStaysEmpty` | internal/opnsense/apply.go:561-566 | a data name without rows gets none in any run unless the firewall accepts the first body of its set |
| `PlanOwnership.ConflictLeavesUnclaimed` | internal/opnsense/apply.go:316-321 | two registry endpoints that disagree are both dropped and shut no gate |
| `PlanOwnership.NoTargetsLeavesUnclaimed` | internal/opnsense/apply.go:286-289 | a registry endpoint without targets is dropped and shuts no gate |
| `PlanOwnership.ConflictLeavesStranded` | internal/opnsense/apply.go:316-321 | two deletes of one data record set with different TTLs are both dropped and shut no gate |
| `PlanOwnership.SavedTablesKeepPlan` | internal/opnsense/apply.go:356-422 | every table saved during an apply keeps both halves of I1 for the endpoints that the fold keeps, if the verification reads of the protective phases succeeded |
| `Frame.ForeignUntouched` | internal/opnsense/apply.go:138-149 | a disabled row, an alias row or a row at a key outside the plan is identical in every intermediate table |
| `Frame.NoAliasDelete` | internal/opnsense/apply.go:584-587 | no delete ever names a row with an enabled alias |
| `Frame.AliasParentStays` | internal/opnsense/apply.go:635-642 | a row with an enabled alias is in every intermediate table, with its aliases |
| `Frame.NoNewAliases` | test/fake/fake.go:468-550 | no run gives a row aliases: every row that has some had the same ones at the start |
| `Safety.SavedTablesAreSafe` | internal/opnsense/apply.go:356-422 | every table the firewall saved during an apply satisfies I2 and the frame, and, for the keys of the folded sets, each half of I1 if the verification read of its protective phase succeeded |
| `Verify.LossIsExact` | internal/opnsense/apply.go:424-495 | on a key whose index agreed, the re-read reports a write as lost exactly when it was acknowledged and not applied |
| `Verify.OtherBodyIsSeen` | internal/opnsense/apply.go:479-495 | a row saved from one body reads as another was meant exactly if name, type, target, TTL, marker and PTR setting are the same |
| `Verify.MisfiledCreate` | internal/opnsense/apply.go:619-633 | a create whose name joins to another one is saved under that other name, is not reported lost, and leaves its own record set as it was |
| `Converge.IndexRefinesTable` | internal/opnsense/snapshot.go:144-180 | while a key has had no failed, ambiguous or lost write, its index entry lists exactly its saved enabled top-level rows, each once |
| `Converge.SpotlessIsFaithful` | internal/opnsense/apply.go:424-477 | in a verified phase a key that neither erred nor lost a write had every call acknowledged and applied |
| `Converge.CleanIsFaithful` | internal/opnsense/apply.go:424-477 | in a verified phase without errors every call was acknowledged and applied |
| `Converge.RemoveResult` | internal/opnsense/apply.go:575-603 | a completed remove leaves exactly the rows with desired targets, unchanged |
| `Converge.NilMeansConverged` | internal/opnsense/apply.go:356-422 | nil and verified means converged, whatever faults occurred |
| `Progress.Leftover` | internal/opnsense/apply.go:543-567 | after a completed add phase the rows left with undesired targets are exactly the surplus rows reuse did not take |
| `Progress.BlockedExactly` | internal/opnsense/apply.go:580-587 | a key is blocked exactly if a surplus row left over after reuse has an enabled alias |
| `Progress.BodiesAcceptable` | internal/opnsense/apply.go:516-565 | the firewall accepts every body a key writes exactly when it accepts those of the desired targets whose row is not up to date |
| `Progress.FaultFreeIsCleanExactly` | internal/opnsense/apply.go:356-422 | without faults an apply returns no error if and only if no TXT was rejected, every desired target has an up-to-date row or an acceptable body, and no left-over surplus row has an enabled alias |
| `Retries.ErrorCostsAFault` | internal/opnsense/apply.go:356-422 | I3: an apply of an acceptable, alias-free plan that used no fault returns nil and converges |
| `Retries.OneOfNPlusOneConverges` | internal/opnsense/apply.go:356-422 | with n faults in total one of any n+1 successive applies returns nil and leaves the table converged |
| `Retries.EmptyTargetNeverWorks` | test/fake/fake.go:442-464 | a missing empty address target makes a key unworkable, faults or not |
| `Retries.AttemptMeans` | internal/opnsense/apply.go:413-421 | what one apply's answer says about the table and about faults |
| `Minimal.SecondApplyWritesNothing` | internal/opnsense/apply.go:434-436 | after a nil, verified apply on a table without twin rows, the same plan issues no write call, in any order of the new snapshot |
| `Minimal.MinimalChange` | internal/opnsense/apply.go:543-567 | in an error-free apply a key with distinct targets E that wants D costs max(0,|D|-|E|) creates and max(0,|E|-|D|) deletes, and of the rows there before and after exactly min(|D-E|,|E-D|) carry another target |
| `Schedule.KeyIsIndependent` | internal/opnsense/apply.go:87-110 | a key's error, saved rows and index entry depend only on its own calls' outcomes, up to the identities of created rows |
| `FirewallApi.Firewall.constructor` | test/fake/fake.go:121-128 | a firewall starts with its rows published and its faults all to come; the listing order need only tell rows with different identities apart |
| `FirewallApi.Firewall.TakeFault` | test/fake/fake.go:246-264 | the head of the queue is used up; faults struck and faults to come add up to the same total for ever |
| `FirewallApi.FaultEffects` | test/fake/fake.go:480-504 | only a lost write is acknowledged without effect, and only a failure after the commit has effect unacknowledged |
| `FirewallApi.Firewall.HandleAdd` | test/fake/fake.go:468-504 | refused bodies change nothing; otherwise the row is saved exactly when the fault lets it commit, and the answer is the fault's |
| `FirewallApi.Firewall.HandleSet` | test/fake/fake.go:513-550 | the same for an edit; identity and aliases stay |
| `FirewallApi.Firewall.HandleDel` | test/fake/fake.go:552-585 | the row goes with its aliases; a missing row answers not found |
| `FirewallApi.Firewall.HandleSearch` | test/fake/fake.go:313-387 | one page of the rows in the fixed order, or a failure |
| `FirewallApi.Firewall.HandleLocalData` | test/fake/fake.go:655-664 | what is served, or a failure |
| `FirewallApi.Firewall.HandleReload` | test/fake/fake.go:587-642 | served becomes what is saved exactly when the request takes effect |
| `FirewallApi.Splice` | test/fake/fake.go:571-579 | splicing a row and its aliases out removes exactly that row from the table |
| `WriteClient.Client.Once` | internal/opnsense/client.go:135-159 | one attempt of any request: a write or reload takes effect or changes nothing, a refused or throttled one never does, a read answers with what is there |
| `WriteClient.Client.Do` | internal/opnsense/client.go:89-133 | at most the configured attempts, every one but the last retryable, fewer only when the answer ends the loop or the context is cancelled; for adds, sets and reloads all but the last are 429s, so only the last can have taken effect; a read or delete that is not cancelled answers good if fewer passing faults than attempts come first |
| `WriteClient.Client.RetryPolicy` | internal/opnsense/transport.go:63-98 | in figures: a request stops short only on an answer that does not pass and is repeated only on one that does; 429 passes for all, 5xx and broken connections for reads and deletes alone |
| `WriteClient.Client.AddHostOverride` | internal/opnsense/client.go:234-249 | at most one row is created, and its identity is returned exactly when acknowledged |
| `WriteClient.Client.SetHostOverride` | internal/opnsense/client.go:252-264 | the row is edited or nothing is, and nothing else is ever saved meanwhile |
| `WriteClient.Client.DelHostOverride` | internal/opnsense/client.go:268-283 | the row is gone after a success, and a row already gone is a success |
| `WriteClient.Client.Reconfigure` | internal/opnsense/client.go:286-295 | success means served equals saved; a failure cost a fault and leaves served old or new |
| `WriteClient.Client.SearchHostOverrides` | internal/opnsense/client.go:196-207 | a page of the table, or a failure that cost a fault |
| `WriteClient.Client.ReadAll` | internal/opnsense/snapshot.go:63-110 | the page loop, each page judged before the next is asked for: the result and the number of requests are those the acceptance rules give for the answers received |
| `WriteClient.Client.ReadTable` | internal/opnsense/snapshot.go:34-51 | at most the configured reads, each with answers of its own; all but the last were inconsistent, an accepted one is returned, and it is the whole table, each row once; an error cost a fault |
| `WriteClient.Client.ListLocalData` | internal/opnsense/provider.go:236-239 | what is served, or an error that cost a fault |
| `WriteLock.WritesAreSerial` | internal/opnsense/client.go:68-73 | under the lock, over a load-then-store firewall, the saved table is always the committed writes made one after another |
| `WriteLock.NothingIsOverwritten` | internal/opnsense/client.go:68-73 | a row reads as its last committed write left it, whoever wrote other rows |
| `WriteLock.WithoutTheLock` | internal/opnsense/client.go:68-73 | without the lock two acknowledged adds can leave one row |
| `TableSnapshot.Snapshot.constructor` | internal/opnsense/snapshot.go:116-127 | the index of a fresh listing |
| `TableSnapshot.FreshSnapshotAgrees` | internal/opnsense/snapshot.go:116-150 | a fresh snapshot's index lists exactly the saved visible rows of every key |
| `TableSnapshot.Snapshot.File` | internal/opnsense/snapshot.go:144-150 | visible rows are appended to the slice of their own key, in place while there is room; others go nowhere |
| `TableSnapshot.Snapshot.Add` | internal/opnsense/snapshot.go:155-159 | a created row is recorded at the end of its entry |
| `TableSnapshot.Snapshot.Remove` | internal/opnsense/snapshot.go:166-175 | the slice of the key is compacted in its own array: exactly the deleted row leaves the entry, the others keep their order, and no other key's entry moves |
| `TableSnapshot.Snapshot.CopyRows` | internal/opnsense/apply.go:221-228 | a copy of the entry, in order |
| `TableSnapshot.CompactInPlace` | internal/opnsense/snapshot.go:166-175 | the shared slice is compacted in place: kept rows first, in order, then cleared |
| `TableSnapshot.RemovalShifts` | internal/opnsense/apply.go:221-228 | after a removal the next row stands where the removed one stood, which a walk of the shared slice would skip |
| `TableSnapshot.Snapshot.Retarget` | internal/opnsense/apply.go:242-257 | a write is recorded in the row in place and moves no row between keys |
| `Paging.ReadStops` | internal/opnsense/snapshot.go:79-85 | against any server a read stops within ceil(total/page)+2 requests of the first total it is told |
| `Paging.PageLimit` | internal/opnsense/snapshot.go:79-105 | a page that brings new rows but not all is followed by another up to one page beyond those that hold the total, and by none after that |
| `Paging.StaticReadIsComplete` | internal/opnsense/snapshot.go:63-110 | an unchanging table is returned exactly, in ceil(total/page) requests, unless a request fails |
| `Paging.AcceptedReadIsExact` | internal/opnsense/snapshot.go:63-110 | under edits plus only inserts or only deletes, an accepted read has exactly the table's identities, the same at every request |
| `Fold.ReadTargets` | internal/opnsense/apply.go:295-315 | the target loop, with its early stops |
| `Fold.Folder.Define` | internal/opnsense/apply.go:279-323 | one endpoint folded in, with every rejection in the order of the checks |
| `Fold.FoldChanges` | internal/opnsense/apply.go:273-335 | sets, errors and the rejected count of a plan: deletes, then creates, then updates |
| `Fold.FoldMeans` | internal/opnsense/apply.go:269-272 | a key is dropped exactly when two of its definitions disagree, and is in the sets exactly when it has a definition and none disagree |
| `Fold.FoldIsOrderFree` | internal/opnsense/apply.go:316-322 | the sets do not depend on the order of the plan |
| `Fold.RejectedMeans` | internal/opnsense/apply.go:303-308 | a key counts as rejected only for an invalid TXT definition, and, off conflicts, whenever it has one |
| `FoldOrder.RejectedDependsOnOrder` | internal/opnsense/apply.go:291-293 | every order of the definitions rejects the same TXT keys exactly when no key both is in conflict and has an invalid definition |
| `FoldOrder.GateDependsOnOrder` | internal/opnsense/apply.go:369-375 | every order agrees on whether any TXT key is rejected exactly when some key with an invalid definition is not in conflict, or no key has one |
| `Fold.FoldsCleanly` | internal/opnsense/apply.go:259-272 | no error exactly when every definition is accepted and none conflict |
| `Fold.FoldedSetsAreWritable` | internal/opnsense/apply.go:242-251 | every body of a folded plan is written under the key it is meant for exactly when the folded names are fixed points of normalisation and their hostname halves end in neither space nor dot |
| `Fold.NameThatMoves` | internal/opnsense/names.go:18-30 | a name that filter and fold accept and whose halves join to another name |
| `Fold.FoldedAsAsked` | internal/opnsense/apply.go:259-272 | in a plan that folds cleanly every endpoint to be written is one desired set with its own key, targets and TTL |
| `Fold.KeptFoldsCleanly` | internal/opnsense/provider.go:127-132 | creating what the filter kept folds without an error if keys are distinct and every endpoint has a target |
| `Fold.AdjustEndpoints` | internal/opnsense/provider.go:109-125 | the kept endpoints, canonical, in order |
| `Fold.AdjustMembers` | internal/opnsense/provider.go:109-125 | what the filter returns are the kept endpoints in canonical form and nothing else |
| `Fold.AdjustTwice` | internal/opnsense/provider.go:109-125 | filtering twice changes nothing exactly when the names left by the first time are normal |
| `Fold.DropReasonFor` | internal/opnsense/provider.go:133-163 | the first reason that applies |
| `Filtering.DropsExactly` | internal/opnsense/provider.go:127-163 | each reason is given exactly in its own case, and an endpoint is kept exactly when its type is A, AAAA or TXT, it has no set identifier, its name has no star and lies below a configured domain, and its TXT targets are quoted texts |
| `Filtering.SpellingsAreKept` | internal/opnsense/provider.go:109-125 | every spelling of a kept name is returned as that name |
| `Fold.KeptIsAccepted` | internal/opnsense/provider.go:127-132 | a kept endpoint with targets is one desired set under its own normalised name with its own targets and clamped TTL |
| `Fold.DroppedIsRefused` | internal/opnsense/provider.go:127-132 | apart from set identifiers, the filter drops exactly what the fold would refuse |
| `Fold.EmptyTargetIsFolded` | internal/opnsense/apply.go:295-315 | an address endpoint with an empty target is kept by the filter and accepted by the fold |
| `Converging.ApplyRun.MarkWrite` | internal/opnsense/apply.go:161-170 | the pending flag is up before the first write |
| `Converging.ApplyRun.SetRow` | internal/opnsense/apply.go:606-616 | one set call moves table and index as the engine's step does, and is recorded exactly when acknowledged |
| `Converging.ApplyRun.CreateRow` | internal/opnsense/apply.go:619-633 | the same for an add |
| `Converging.ApplyRun.DeleteRow` | internal/opnsense/apply.go:588-601 | the same for a delete |
| `Converging.ApplyRun.AddSet` | internal/opnsense/apply.go:509-567 | the calls made are those of the key's add plan up to the first not acknowledged, and a write error is returned exactly then |
| `Converging.ApplyRun.RemoveSurplus` | internal/opnsense/apply.go:575-603 | the same for the remove plan, kept surplus included; an alias error is returned exactly when all calls were acknowledged and the key is blocked |
| `Converging.ApplyRun.Converge` | internal/opnsense/apply.go:498-504 | the same for either mode |
| `Apply.VerifyPhase` | internal/opnsense/apply.go:439-477 | exactly the keys of lost writes are marked and exactly the lost writes are reported, nothing if the read fails |
| `Apply.SkipPhase` | internal/opnsense/apply.go:383-391 | a gated phase marks exactly its keys with targets |
| `Apply.ConvergeAll` | internal/opnsense/apply.go:393-407 | the workers' calls are a phase of the engine and exactly the erring keys are marked |
| `Apply.RunPhase` | internal/opnsense/apply.go:393-411 | a phase ends in the state the engine says, with a failure counted exactly if it was not clean, and its errors name every key that erred and every write that was lost |
| `Apply.RunPhases` | internal/opnsense/apply.go:370-411 | the four phases are a run of the engine, and errors are recorded exactly when it is not clean |
| `Apply.Finish` | internal/opnsense/apply.go:413-421 | the trailing reload leaves saved and served equal or the flag up |
| `Apply.ApplyChanges` | internal/opnsense/apply.go:356-422 | on a plan whose names join back to themselves, one apply is one run of the engine over the folded plan; it returns nil exactly when fold, phases and reload were clean, and otherwise names what failed: the fold's errors, every key that erred, every lost write, the reload; an error on a workable plan cost a fault; I4 is kept |
| `Apply.ApplyRepeatedly` | docs/design.md:207-210 | n+1 applies in a row are that many runs, each from where the last one left off; if at most n faults are to come and the firewall accepts the bodies, one of them answers nil and leaves the table converged |
| `WebhookProvider.Provider.Reconfigure` | internal/opnsense/provider.go:173-189 | a repair that finds the flag cleared does nothing; otherwise the reload decides the flag |
| `Serving.Records` | internal/opnsense/provider.go:62-83 | a pending reload comes first; the endpoints are those of the saved table, and, if it is published and tidy, show exactly the names, types and values served; errors cost a fault |
| `Serving.ServedStateCheck` | internal/opnsense/provider.go:231-266 | after a check without error every managed row is served at its name and type, or everything saved was just published; after a reload no managed row that is spelled out is missing and the flag stays as it is |
| `ServedView.ViewIsServed` | internal/opnsense/snapshot.go:237-298 | the view of a published, tidy config: one endpoint for each name and type served, with exactly the values served there, aliases, MX and TXT included |
| `ServedView.PublishesExactly` | test/fake/fake.go:613-642 | a reload publishes every row that is not switched off at its own name and at its aliases' names, and nothing else |
| `ServedView.RowIsPublished` | test/fake/fake.go:613-642 | after a reload a row that is switched on and spelled out is served at the name it is filed under, with its own value |
| `ServedView.AliasIsPublished` | test/fake/fake.go:613-642 | the same of its aliases |
| `ServedView.ServedUnderKey` | test/fake/fake.go:602-611 | a hostname and a domain are served under the name they are filed under exactly when they are spelled out |
| `ServedView.ValueIsTarget` | internal/opnsense/dto.go:161-171 | the value served is the target shown unless a stored TXT value stands in quotes already |
| `Pending.AlwaysCovered` | internal/opnsense/provider.go:173-198 | I4: in every interleaving the flag is up, or an apply that marked a write has not finished its reload, or served equals saved; successful repairs never outnumber raisings |
| `Pending.ApplyEnds` | internal/opnsense/apply.go:413-421 | an apply ends on a failed first read, with the flag down and nothing written, or on an answered reload that decides the flag |
| `Pending.CallBegins` | internal/opnsense/provider.go:258-265 | a reader asks for a repair only while the flag is up; the startup check puts it up and asks for a reload |
| `Pending.CallEnds` | internal/opnsense/provider.go:165-189 | a call ends with the answer to its reload, which decides the flag, and only a repair that finds the flag down ends without one |
| `Pending.FlagTells` | internal/opnsense/provider.go:33-36 | with no apply, before its first write and after its own publishing, the flag alone tells whether served may lag |
| `Pending.FlagAloneFails` | internal/opnsense/provider.go:62-68 | at each other place of an apply it does not: a run, for any two configs served differently, in which a reader's repair clears it |
| `Pending.FlagFailsExactly` | internal/opnsense/provider.go:173-198 | a place of the apply admits a reachable state that is unserved and unflagged exactly when the apply has marked a write there and not published |
| `Endpoints.Group.Add` | internal/opnsense/snapshot.go:204-232 | targets without repeats, the least explicit TTL, and differs exactly when the TTLs are not all equal |
| `Endpoints.EndpointsFor` | internal/opnsense/snapshot.go:237-298 | the endpoint list as specified; a key is warned about exactly when its TTLs differ |
| `Canonical.KeysIncrease` | internal/opnsense/snapshot.go:278-287 | one endpoint per record set, strictly increasing by name and type |
| `Order.LessExactly` | internal/opnsense/snapshot.go:278-287 | the order on strings is that of a dictionary |
| `Canonical.EndpointIsCanonical` | internal/opnsense/snapshot.go:288-296 | targets strictly increase and are exactly the rows' and aliases'; the TTL is the least explicit one |
| `Canonical.EndpointsIgnoreOrder` | internal/opnsense/snapshot.go:237-298 | the view does not depend on the order of the rows |
| `ReadBack.ConvergedReadsBack` | internal/opnsense/snapshot.go:237-298 | a converged record set without twins or aliases at its name is one endpoint with its name, type, targets and TTL |
| `ReadBack.WriteThenRead` | internal/opnsense/provider.go:109-125 | in a plan that folded cleanly, applied without error and with its writes verified, every endpoint to be written reads back as exactly one endpoint with its name, type, clamped TTL and targets, TXT re-quoted, provided that before the apply no alias was served at that name, no row at a key of the plan had an enabled alias, and no two rows of that key had one target |
| `ReadBack.KeptReadsBack` | internal/opnsense/provider.go:109-125 | end to end: whatever the filter keeps of a list, if its keys are distinct, its endpoints have targets and nothing was saved or aliased there, reads back endpoint by endpoint after an error-free, verified apply |
| `ReadBack.FaultFreeReadsBack` | internal/opnsense/provider.go:109-125 | the same without assuming the apply error-free, when no fault occurs and no address target is empty |
| `ReadBack.FoldedIsAcceptable` | test/fake/fake.go:442-464 | the firewall accepts every body of a cleanly folded plan exactly when no address endpoint has an empty target |
| `ReadBack.NoAliasAtEnd` | internal/opnsense/apply.go:580-587 | an apply of an alias-free plan serves no alias at a name where none was served before |

## Left out

- HTTP, JSON, media types, TLS, logging, metrics, readiness and configuration parsing: plumbing.
- Time: timeouts, backoff waits and jitter. A cancelled context may end any retry loop between two attempts; a cancellation in the middle of an apply shows as failed calls.
- The shared index under concurrent workers: its mutex is not modelled; the keys' entries are disjoint, which `Schedule.KeyIsIndependent` and `Engine.PhasePrefix` rest on.
- external-dns itself: plans and the pairing of data keys with registry keys are arbitrary.
- The endpoint constructor of external-dns (trailing dots of targets, over-long labels) is not part of this model.
- GetHostOverride, ServiceStatus and Ready: no apply or read goes through them.
- The option-set and boolean spellings of the API's JSON, and the validation messages of refused writes.
- Unicode case folding and white space beyond ASCII.
- `Snapshot.rows` after a delete: the apply path consults only the index.
- `ServedStateCheck` compares name and type only, as the code does; changed values it does not see are not claimed to be repaired.
- Apply.ApplyChanges: requires names that join back to themselves, where the code writes or panics on the others; see "Names that move".
- Apply.ApplyRepeatedly: requires the same.
- Apply.ConvergeAll: runs the keys of a phase one after another, in any order; what concurrent workers do is in the engine, whose theorems cover every interleaving of their calls.
- FirewallApi.Firewall.TakeFault: one queue of faults for all operations, where the test double arms them per operation; which request a fault strikes is arbitrary in both.
