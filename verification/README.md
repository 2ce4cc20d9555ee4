# Piri storage node: a verified model

Piri is a storage node. A blob is uploaded, claimed by a space, settled at the
key of its digest, hashed into a piece (commP), folded into an aggregate, put
on chain as a sub-piece of a root, and possibly removed while any of that is
under way. The work is done by many tasks and handlers over shared database
tables, each of which may crash or be retried between any two transactions.

This project models that protocol and the algorithms it rests on, and proves
what they keep. `dafny verify dfyconfig.toml` checks all of it.

## How it is modelled

- Tables are maps and sets, a committed transaction is one step, and a crash is
  a process that takes no further step. A property of the protocol is proved
  over every run of its steps, that is for every interleaving.
- Code that changes things in a loop is a method with that loop, proved against
  a specification; where several processes share what it changes, its statements
  are steps and the others take any steps they can in between. A removal pass is
  interleaved at every turn, count and removal, not inside a blob's turn.
- A property that fails has a lemma with the failing run, beside one that says
  exactly when it holds, as an if-and-only-if or as two halves.
- Digests, CIDs, DIDs, hashes and task ids are abstract values. Both piece CID
  forms of a piece are one value. Clocks, errors, the chain, query results and
  the outcome of unseen code are parameters, over which the results quantify.
- A statement reads what has committed when it runs (Postgres's read committed),
  and a statement on a row another transaction has locked waits for it.
- What each table holds after a run is also stated from the outside: an entry is
  there if and only if a step that puts it there stands, that is none that takes it
  away came since (`Histories.Standing`). The conditions are spelled out
  without the functions that compute the steps.
- Integers are unbounded. The source's 64-bit sums stay far below their limit:
  piece sizes are bounded at ingest and root heights by the chain.

| file | what it models |
|---|---|
| `Pipeline`, `Lifecycle` | the tables and every step of a blob's life |
| `Stages`, `Safety` | what every run keeps; when bytes outlive every reference |
| `Losses`, `LossRuns` | the other half of `Safety`, and the failing runs |
| `Resolving` | when whatever blob a piece is resolved to has its bytes |
| `RootRows`, `RootGroups` | on-chain rows, claims and stamps over runs; roots staged and proven as whole aggregates |
| `SweepTurn`, `RemovalSweep`, `SweepRuns` | a blob's turn in the removal sweep, a pass of it, and passes that are overtaken |
| `Histories`, `Contents`, `RowHistories` | what every table holds after any run, told by the steps that put it there and took it away |
| `Tracking`, `TrackingRuns` | when an accepted blob is queued, staged or on chain, and runs after which it is not |
| `BlobLock` | claims and finalization under the blob's lock, and the steps that do not take it |
| `Uploads`, `UploadHistories`, `UploadService` | uploads whose digest is not known in advance |
| `Claims` | claims on received blobs and their hand-over |
| `Aggregates`, `Aggregator`, `LoadAggregate` | folding pieces into aggregates and reading them back |
| `Merkle`, `Inclusion`, `AggregateRoot` | the tree of an aggregate, the proofs of its pieces, and what its root determines |
| `Submissions`, `AddRoots`, `RootLayout`, `RootSubmissions` | batching, submitting and laying out roots |
| `Claiming` | the claim of a batch of rows while others claim |
| `Transactions` | joined transactions, retries and deferred callbacks |
| `Adverts` | the advert queue |
| `DedupQueue`, `Worker` | the job queue, its leases and its worker |
| `ProofChain`, `TaskHistory`, `VerifyReader` | proof ordering, incremental history reads, the verifying reader |

## Where the code does less than it says

Each of these is a lemma with the failing case, beside one that says exactly
when the code does meet the property.

- Removal: the sweep finalizes a blob whose pipeline row is still active when no
  piece reference is found (`piece_remove.go:207`). If that row is folded, a commP
  run is past its mapping write, or the finalization does not commit, the node can
  go on, without another such turn, to store an aggregate whose bytes are gone. It
  can after no other step: sweeping is safe over exactly the runs without such a
  turn (`Safety`, `Losses`).
- Shared pieces: two blobs can have one piece. A finalization deletes the piece
  references by piece but the mapping by blob (`piece_remove.go:384-410`), so
  removing one blob takes the references of the other; once that one is released
  too, its turn deletes bytes that a stored aggregate refers to. Were a mapping only
  ever written together with its piece reference, the turns that lead to a loss
  would be exactly those that strip a shared piece (`Losses`, `LossRuns`).
- Upload clean-up: a failed upload deletes the bytes of its digest without the
  blob's lock (`piece_upload.go:133-145`), even those another upload of the digest
  left and a space has accepted. It is harmless exactly while nothing relies on
  them (`BlobLock`, `Safety`).
- Unlocked claims: an upload whose digest was not known claims its content without
  the lock (`piece_upload.go:207`). A finalizer deletes bytes that are claimed if
  and only if such a claim came between its check and its deletion and was not
  released (`BlobLock`).
- Aggregate roots: the comment that every occurrence of a root stores the same
  pieces (`aggregates.go:21-24`) does not hold. A piece and the pair of its halves
  have the same root, and folding both makes the root impossible to load. Loading
  returns what was stored exactly when all that is folded under the root is the
  same (`AggregateRoot`, `LoadAggregate`, `LossRuns`).
- Retirement: a blob accepted after its turn in a removal pass and before its root
  is removed was not queued again, since its row was still live, and the root goes
  all the same: it is then neither queued nor proven. Nor is a blob folded under a
  root that counts as completed because of removed rows (`roots_add.go:207-211`), or
  because of another aggregate with the same root. `Tracking` says exactly which
  steps lose track of an accepted blob, and `RemovalSweep` which claims a pass
  overlooks.
- Double removal: a root removed by hand after the turns that counted it is removed
  again by the pass; exactly then is its deletion already in flight (`RemovalSweep`).
- Reading: a piece is resolved to any blob mapped to it (`resolver.go:88-96`), and a
  harmless clean-up can leave one of them without bytes while another holds the
  piece. `Resolving` says exactly which steps do.
- Batch claims: the update that claims picked rows does not ask again whether they
  are unclaimed, so a row changes hands exactly when another commit took it since
  it was picked (`Claiming`).
- Task history: a row is missed exactly when a successful read started ten minutes
  or more after its end and queried before it was visible (`TaskHistory`).
- Uploads: the one-hour age is what keeps the reaper from an upload still being
  received. If it lists one, data can be left that nothing names (`Uploads`).
- Claims: an upload retried with other content leaves its first claim behind
  (`Claims`).
- Job queue: ids are assumed never to be reused, which Postgres gives and
  SQLite's rowid does not. There a dead job's id is given to the next job, whose
  own move to the dead letters then fails. Ids stay apart exactly while no job is
  inserted once the greatest id has left the queue (`DedupQueue`).
- Job lease: availability is stored in whole seconds, so a queue timeout above
  `extend - extend/5` is not enough; both margins must be a second (`Worker`).
- Job limit: the check is for equality, so a negative limit is no limit (`Worker`).
- Proof chains: past the checks, a repeated audience makes the walk run for ever
  (`ProofChain`).

## Model

| member | source | states |
|---|---|---|
| Safety.HarmlessRunsAreSafe | pkg/pdp/service/piece_remove.go:78-244 | in every state of every run without a hazardous sweep turn or a careless clean-up, every piece of a stored aggregate, a live staged add or an unremoved on-chain row has a blob with its bytes, whichever blobs share pieces |
| Losses.LosesIff | pkg/pdp/service/piece_remove.go:195-212 | the converse: a step leads, over harmless steps only, to a reference to bytes that are gone if and only if it is a hazardous turn or a careless clean-up itself |
| Losses.HazardLosesBytes | pkg/pdp/service/piece_remove.go:195-212 | after any hazardous turn some harmless continuation stores an aggregate whose bytes are gone |
| Losses.CarelessLosesBytes | pkg/pdp/service/piece_upload.go:133-145 | after any careless clean-up some harmless continuation refers to bytes that are gone |
| Losses.OrderlyRunsAreSafe | pkg/pdp/pipeline/task_commp.go:116-131 | when a mapping is only ever written together with its piece reference, every run that strips no shared piece and cleans up nothing relied on is harmless, wherever finalizations stop |
| Losses.OrderlyLosesIff | pkg/pdp/service/piece_remove.go:384-410 | the converse: where every mapping so far has its piece reference, a step leads, over orderly steps only, to a reference to bytes that are gone if and only if it strips a shared piece or is a careless clean-up |
| Losses.SweepKeepsParkedIff | pkg/pdp/service/piece_remove.go:195-212 | while every mapping has its piece reference no turn is hazardous, and a turn keeps it so if and only if it strips no piece another blob shares |
| LossRuns.HazardIsReachable | pkg/pdp/pipeline/task_commp.go:81-138 | a hazardous turn can be reached: a release overtakes a commP run between its mapping and its piece reference |
| LossRuns.SharedPieceLoses | pkg/pdp/service/piece_remove.go:384-410 | a run with two blobs of one piece: removing the one strips the other, whose own turn deletes the bytes of a stored aggregate |
| LossRuns.StripIsReachable | pkg/pdp/service/piece_remove.go:384-410 | such a turn can be reached although every mapping is written with its piece reference |
| LossRuns.CleanUpLoses | pkg/pdp/service/piece_upload.go:133-145 | a run whose clean-up deletes the bytes of a stored aggregate |
| Safety.StepKeepsGrounded | pkg/pdp/service/piece_remove.go:78-244 | every harmless step keeps the inductive form: mappings and hashed rows true, rows that can advance with their bytes, adds and chain rows held by some mapped blob |
| Safety.CleanUpKeepsBackedIff | pkg/pdp/service/piece_upload.go:133-145 | a clean-up keeps that form if and only if it is not careless |
| Safety.LoadedHeld | pkg/pdp/pipeline/task_addroots.go:51-125 | every piece an AddRoots run has loaded still has a mapped blob with bytes, until that run retires it |
| Safety.FinalizeKeepsBacked | pkg/pdp/service/piece_remove.go:340-425 | finalizing an unreferenced blob without a row takes bytes nothing that remains refers to, even if other blobs share its piece |
| Resolving.StepKeepsResolvingIff | pkg/pdp/piece/resolver.go:75-107 | a step keeps every blob that a staged or proven piece can be resolved to on its bytes, if and only if it is not a clean-up of such a blob, nor the recording of a piece one of whose mapped blobs has no bytes |
| Resolving.RunKeepsResolving | pkg/curiopdp/storage.go:42-64 | so does every run without such a step |
| Resolving.HarmlessCleanUpBlinds | pkg/curiopdp/storage.go:42-64 | a harmless run after which an on-chain piece can be resolved to a blob without bytes, though another blob holds it |
| Stages.RunKeepsStaged | pkg/pdp/pipeline/task_addroots.go:110-125 | every run keeps: aggregated implies hashed implies claimed implies not staged, a task claims one row, the rows of a root are the pieces of the aggregates folded under it since its last retirement, each with all its positions, and loaded batches are held |
| Stages.LoadsIff | pkg/pdp/pipeline/aggregates.go:116-151 | the rows of a root are those of a list of pieces if and only if an aggregate folded under it has those pieces and all others are prefixes of it |
| Stages.StepAdvances | pkg/pdp/service/piece_remove.go:299-328 | a row only advances; it leaves the table unfolded only by its own cancellation, and folded only by its aggregate's retirement, never both |
| Stages.FoldKeepsWhole | pkg/pdp/pipeline/aggregates.go:29-68 | a fold adds all positions of its aggregate, with their pieces and proofs, and takes none from another, even from one with the same root |
| Stages.DeleteKeepsWhole | pkg/pdp/pipeline/task_addroots.go:110-125 | deleting whole aggregates and unfolded rows leaves every other aggregate whole |
| RemovalSweep.Sweeper.ProcessPendingRemovals | pkg/pdp/service/piece_remove.go:78-244 | whatever happens between turns, counts and removals, the pass retires exactly the roots whose every live sub-piece, when they are counted, was the piece of a blob that was pending, unclaimed, without a staged add or a deletion in flight at its own turn; its own steps are those turns and removals |
| RemovalSweep.CountedClaimedIff | pkg/pdp/service/piece_remove.go:96-112 | a blob that was counted is claimed at a later state, as that of the root's removal, if and only if an accept or allocation of it since its turn was not released |
| RemovalSweep.AlonePass | pkg/pdp/service/piece_remove.go:78-244 | a pass nobody disturbs retires exactly the roots whose every live sub-piece is, at its start, the piece of such a blob |
| RemovalSweep.Sweeper.TakeTurn | pkg/pdp/service/piece_remove.go:96-220 | one blob's turn, table by table: the request goes if and only if the blob is claimed or its removal commits, the row if nothing holds it, bytes, mapping, piece reference and removed rows only when nothing needs the blob, and nothing else changes; and the pieces it adds to the counts of the roots it is live in |
| SweepTurn.TurnEffect | pkg/pdp/service/piece_remove.go:96-220 | the same of the step of the protocol, for every state and outcome |
| SweepTurn.RemovalEnds | pkg/pdp/service/piece_remove.go:340-425 | after a committed turn of an unclaimed blob that nothing needs, the blob is in none of the pending removals, the stored bytes and the mappings |
| Contents.PendingIff | pkg/pdp/service/piece_remove.go:411-413 | over any run a blob is to be removed if and only if a RemovePiece or the release of its last claim stands since the last turn that found it claimed or committed its removal |
| Contents.StoredIff | pkg/pdp/service/piece_remove.go:356-361 | over any run a blob's bytes are there if and only if an upload stands since the last clean-up and the last turn that found it unclaimed and unneeded and got to its deletion |
| Contents.QueuedIff | pkg/pdp/pipeline/calculator.go:50-90 | over any run a blob has a pipeline row if and only if an accept that found no live add and no live, unstamped row of its piece stands since a turn found the row free or its root was retired |
| Contents.MappedIff | pkg/pdp/service/piece_remove.go:384-410 | over any run a blob is mapped if and only if a commP run mapped it since its removal last committed |
| Contents.ReferencedIff | pkg/pdp/service/piece_remove.go:384-410 | over any run a piece has its reference if and only if a commP run parked it since the removal of a blob mapped to it last committed |
| Contents.ClaimIff | pkg/ucanhandlers/blob/accept.go:296-344 | over any run a space has accepted a blob if and only if its accept was not released since, and has allocated it likewise |
| RowHistories.RowHasIff | pkg/pdp/pipeline/task_commp.go:81-138 | over any run each column of a pipeline row, staged, the two task ids, the piece and the place in an aggregate, holds a value if and only if the step that wrote it stands |
| RowHistories.LiveIff | pkg/pdp/pipeline/task_settle.go:53-63 | over any run a task is alive if and only if a spawn or a claim of roots started it and it has not ended |
| RowHistories.HoldingIff | pkg/pdp/pipeline/task_commp.go:81-138 | over any run a commP run holds a mapped, or parked, piece if and only if it wrote that mapping, or reference, and has not stopped since |
| RowHistories.SubmittedIff | pkg/pdp/pipeline/manager.go:37-101 | over any run a root is submitted, to a task or to none yet, if and only if that submission or claim was not followed by another claim or the retirement by its task |
| RowHistories.LoadedIff | pkg/pdp/pipeline/task_addroots.go:51-125 | over any run an AddRoots run has an aggregate's pieces in memory, in order, if and only if it read them and has not stopped, read again or retired since |
| RowHistories.SentIff | pkg/pdp/service/roots_add.go:203-331 | over any run what a call sent are exactly the loaded roots that had neither row nor unfailed add, and what it found completed exactly those with a row |
| RowHistories.KnownIff | pkg/pdp/pipeline/aggregates.go:29-68 | over any run the aggregates counted as stored under a root are exactly those folded since the root was last retired |
| RowHistories.AddHasIff | pkg/pdp/service/roots_add.go:640-693 | over any run a sub-piece is staged, resolved or promoted if and only if the step that did so stands since its failed transaction was cleared |
| RowHistories.ChainHasIff | pkg/pdp/service/root_remove.go:62-81 | over any run an on-chain row has its piece, a stamp or its removal if and only if the promotion, the root removal or the confirmation stands since the stamp was cleared or the row went |
| RemovalSweep.Sweeper.ClassifyRows | pkg/pdp/service/piece_remove.go:178-194 | in flight if and only if an unremoved row is stamped; otherwise exactly the roots the piece is live in |
| RemovalSweep.Sweeper.RetireRoots | pkg/pdp/service/piece_remove.go:222-242 | each root is counted once and removed exactly when its live sub-pieces were then all counted |
| RemovalSweep.SizesCompareSets | pkg/pdp/service/piece_remove.go:224-234 | the comparison of two sizes is an inclusion of sets, since a root's live sub-pieces only ever go all at once |
| RemovalSweep.RemovedAgainIff | pkg/pdp/service/root_remove.go:62-81 | the pass removes a root whose deletion is already in flight if and only if the root is still live and another removal stamped it since a turn that counted it and the stamp was not cleared |
| RemovalSweep.StampedNotRetired | pkg/pdp/service/piece_remove.go:178-194 | a pass nobody disturbs retires no root whose deletion is in flight at its start |
| SweepRuns.RemovedAgain | pkg/pdp/service/root_remove.go:62-81 | such a pass, reached from the empty node |
| RemovalSweep.AfterCancelling | pkg/pdp/service/piece_remove.go:113-137 | after the row is cancelled, the rest of the turn depends only on the other tables |
| RootRows.ReachableIsRooted | pkg/pdp/service/root_remove.go:62-81 | in every reachable state the rows of a root are stamped and removed together |
| RootRows.RunIsLater | pkg/pdp/service/root_remove.go:62-81 | over any run a root keeps its live sub-pieces or loses them all |
| RootRows.StampedIff | pkg/pdp/service/root_remove.go:62-81 | over any run a root that is still live has a deletion in flight if and only if a stamp, old or new, was not cleared |
| RootGroups.RunKeepsGrouped | pkg/pdp/service/roots_add.go:640-693 | over every run the adds of a root under one transaction, and the unremoved rows under one number, are all the pieces of one aggregate folded under that root, and change together |
| RootRows.ClaimedIff | pkg/pdp/service/piece_remove.go:246-263 | an unclaimed blob is claimed after a run if and only if an accept or allocation in it was not released since |
| Tracking.StepKeepsTrackedIff | pkg/pdp/pipeline/calculator.go:50-90 | a step keeps every accepted blob queued, staged or on chain if and only if it is not, for an accepted blob: the retirement of its row while no other root carries its piece and its own root is not live or live only as aggregates without it; the failure of the only adds; or the removal of the only root |
| Tracking.RunKeepsTracked | pkg/pdp/pipeline/calculator.go:50-90 | so is every accepted blob throughout every run without such a step |
| Tracking.UnsharedRetireIff | pkg/pdp/pipeline/task_addroots.go:95-125 | in every reachable state, when one aggregate only was ever folded under the blob's root, the retirement keeps track of it if and only if the root has a live add or an unremoved row, or another root carries its piece |
| Tracking.RetiredDeadRoot | pkg/pdp/service/roots_add.go:289-321 | a root retired without either has only removed rows: it was found completed, or an add of it was promoted, unless it was left to another call's transaction that failed since |
| TrackingRuns.RevivedIsUntracked | pkg/pdp/service/roots_add.go:203-215 | from any state whose root has a row, removed or of another aggregate: a blob accepted again and folded under that root is retired without an add |
| SweepRuns.OvertakenIsUntracked | pkg/pdp/pipeline/calculator.go:57-82 | from any state with its root live and retirable: accepted between its turn and the removal that the pass makes, a blob is left untracked |
| SweepRuns.OvertakenIsReachable | pkg/pdp/service/piece_remove.go:222-242 | such a run from the empty node |
| SweepRuns.PassIsMade | pkg/pdp/service/piece_remove.go:78-244 | in any such state, whatever others do between the count and the removal, the pass meets its contract by removing the root all the same |
| BlobLock.AcceptedBlobsKeepBytes | pkg/pdp/service/piece_remove.go:330-425 | in every interleaving of accepts, allocates, releases, uploads, unlocked claims and finalizations, with crashes and retries, an accepted blob has its bytes, unless a clean-up deletes bytes that are relied on |
| BlobLock.CleanUpKeepsInvIff | pkg/pdp/service/piece_upload.go:133-145 | a clean-up keeps the protocol's invariant if and only if the blob is not accepted and no accept is past its check |
| BlobLock.CarelessCleanUpLoses | pkg/pdp/service/piece_upload.go:133-145 | after any other an accepted blob is without bytes, at once or at the accept's commit, with no other clean-up |
| BlobLock.SecondUploadLoses | pkg/pdp/service/piece_upload.go:133-145 | such a run: the second of two uploads of a digest fails after the first was accepted |
| BlobLock.DeletesOnlyUnaccepted | pkg/pdp/service/piece_remove.go:342-361 | a finalizer's bytes go only while nobody has accepted them or is about to, although the deletion precedes its commit |
| BlobLock.DeletesClaimedIff | pkg/pdp/service/piece_upload.go:204-215 | in every run a finalizer deletes bytes that are claimed if and only if an upload claimed them without the lock since its check and nobody released that claim |
| BlobLock.ClaimOvertakesDelete | pkg/pdp/service/piece_upload.go:204-215 | such a run |
| BlobLock.CommitKeepsInv | pkg/ucanhandlers/blob/accept.go:296-344 | every commit keeps the invariant: one holder of the lock, accepted blobs with their bytes, and what a transaction found under the lock still so |
| BlobLock.AllocatedIff | pkg/ucanhandlers/blob/allocate.go:184-303 | over any run a claim is allocated if and only if an allocate that committed, or an upload's claim, was not released since |
| BlobLock.AcceptedIff | pkg/ucanhandlers/blob/accept.go:296-344 | over any run a claim is accepted if and only if an accept that committed was not released since |
| BlobLock.CheckRevivesIff | pkg/pdp/service/piece_remove.go:347-354 | a finalizer's check revives the blob if and only if a committed allocate or accept, or an upload's claim, of it stands unreleased then |
| BlobLock.PhaseIff | pkg/pdp/service/piece_remove.go:342-417 | over any run a transaction is in the phase its own last step took it to, a finalizer revived exactly when its check found a claim |
| BlobLock.PendingIff | pkg/pdp/service/piece_remove.go:342-417 | over any run a removal is pending if and only if a request for it stands since a finalizer of the blob last committed |
| BlobLock.StoredIff | pkg/pdp/service/piece_remove.go:356-361 | over any run the bytes are there if and only if an upload stands since a clean-up or a finalizer last deleted them |
| BlobLock.Node.FinalizeRemoval | pkg/pdp/service/piece_remove.go:340-425 | attempts until one commits: finalized means bytes deleted in this call and the request gone, and every statement is a step of the protocol |
| BlobLock.Node.AttemptRemoval | pkg/pdp/service/piece_remove.go:342-417 | one attempt: it is cancelled if and only if a claim stood at its check, and then deletes no bytes; a finalized one deletes them before it commits |
| Uploads.PatientRunsAreConsistent | pkg/pdp/service/piece_upload.go:203-331 | at every point of every interleaving an upload never both has a row and holds a digest, every index entry leads to bytes unless its blob is being deleted, and all staged data is named by a row or the index |
| Uploads.DropsNothingNamed | pkg/pdp/service/piece_upload.go:251-331 | staged data the index names goes only once it is at its digest, or in a delete of that digest |
| Uploads.EntryIsItsFirst | pkg/pdp/service/piece_upload.go:229-249 | the completing transaction never breaks the one-entry-per-upload constraint |
| Uploads.OrphansIff | pkg/pdp/service/allocation_expiry.go:105-133 | the assumption on the reaper is exact: a step leads, with no other early listing, to staged data nothing names if and only if it lists an upload still being received |
| Uploads.EarlyReapOrphans | pkg/pdp/service/allocation_expiry.go:105-133 | after such a listing, a drop, a delete and a late write leave that data |
| Uploads.EarlyReapIsReachable | pkg/pdp/service/allocation_expiry.go:19-22 | such a listing is reachable once a discard overtakes an upload |
| Uploads.StepKeepsConsistent | pkg/pdp/service/piece_upload.go:167-292 | every step of uploads, discards, reaps and the store keeps the protocol's invariant |
| Uploads.StoreKeepsOk | pkg/store/blobstore/staging.go:126-197 | settles and deletes under a digest's lock keep every index entry leading to bytes |
| UploadHistories.ReadableKept | pkg/store/blobstore/staging.go:104-121 | a blob that can be read stays readable through every statement of uploads, discards, reaps and settles, until a Delete of its digest |
| UploadHistories.DeleteEnds | pkg/store/blobstore/staging.go:126-143 | a Delete that runs to its end leaves the digest unreadable, its entry gone and its staged copy dropped |
| UploadHistories.KeyedIff | pkg/store/blobstore/staging.go:126-197 | over any run a blob is at its digest if and only if a Put or a Settle placed it since its last Delete |
| UploadHistories.StagedIff | pkg/pdp/service/piece_upload.go:167-331 | over any run an upload's data is staged if and only if its write stands since it was dropped as a duplicate or discarded, reaped, or moved or deleted with its digest |
| UploadHistories.NamedIff | pkg/pdp/service/piece_upload.go:229-249 | over any run the index names an upload for a digest if and only if it completed unmarked and first, and no Settle or Delete of the digest has ended since |
| UploadHistories.HasRowIff | pkg/pdp/service/piece_upload.go:229-292 | over any run an upload has a row if and only if its allocation stands since it was recorded, dropped as a duplicate, released or reaped |
| UploadHistories.DiscardedIff | pkg/pdp/service/piece_upload.go:310-331 | over any run a row is marked if and only if a discard found it and it has not gone since |
| UploadHistories.DroppingIff | pkg/pdp/service/piece_upload.go:310-331 | over any run an upload's data is to be dropped if and only if a discard found that it holds no digest |
| UploadHistories.PhaseIff | pkg/pdp/service/piece_upload.go:167-268 | over any run a PUT is at the statement after its own last one, with the branch that one took |
| UploadHistories.LockedIff | pkg/store/blobstore/staging.go:126-197 | over any run a digest is held by the Settle or Delete that began last, as far as it got, until that ends |
| UploadHistories.RemovedIff | pkg/store/blobstore/staging.go:126-143 | the exception for entries being deleted covers exactly the digests whose Delete began and has not ended, unless the entry was recorded anew |
| UploadService.Node.UploadUnhashed | pkg/pdp/service/piece_upload.go:167-268 | every statement is a protocol step whatever happens between; a stored upload is recorded under its digest with no row, a duplicate or released one has neither row nor data |
| UploadService.Node.Release | pkg/pdp/service/piece_upload.go:275-292 | a discarded upload's data goes before its marked row |
| UploadService.Node.DiscardUpload | pkg/pdp/service/piece_upload.go:310-331 | the row is marked for good, and data no entry named when it was is dropped after the commit |
| UploadService.Node.ReapDiscarded | pkg/pdp/service/allocation_expiry.go:110-133 | every turn without an error removes its row, whatever happens in between, and its data stays dropped if no PUT of it was running |
| Claims.ClaimFollowsUploads | pkg/store/allocationstore/claim.go:21-71 | over any receives and releases a claim's holder is an unreleased upload of its content, and the claim exists exactly while there is one |
| Claims.ClaimIff | pkg/store/allocationstore/claim.go:51-71 | over any run a claim is held with a cause and an expiry if and only if the upload that first claimed the content, or inherited it, had them in its record then and was not released since |
| Claims.IndexedIff | pkg/store/allocationstore/store.go:214-232 | over any run the index leads from an upload to a content if and only if the upload came to hold its claim and has neither vacated it nor come to hold another |
| Claims.RecordIff | pkg/store/allocationstore/store.go:310-324 | over any run an upload's record is the last one put, until it is released |
| Claims.ReleaseAgain | pkg/store/allocationstore/claim.go:21-46 | releasing an upload again, from any copy of its record, has no effect |
| Claims.PutKeepsHoldersIff | pkg/store/allocationstore/store.go:310-312 | recording a pending allocation keeps every holder received if and only if it keeps the claim its link holds |
| Claims.RerecordedClaimLeaks | pkg/pdp/service/piece_upload.go:203-215 | otherwise a claim is left that no upload holds |
| Claims.Store.ReleasePending | pkg/store/allocationstore/claim.go:21-46 | the record is re-read, its claim handed over or dropped if it holds one, and the record deleted |
| Claims.Store.HandOverClaim | pkg/store/allocationstore/claim.go:51-71 | the scan hands the claim to another received upload of the content, and drops it only if there is none |
| Claims.Store.Claim | pkg/store/allocationstore/store.go:182-191 | claims if and only if nobody holds the claim, indexing the holder |
| Aggregates.AggregateTask.Fold | pkg/pdp/pipeline/task_aggregate.go:61-123 | for any result of Append, folds if and only if no piece is asked for more often than it was loaded, and then gives every position its own row; otherwise changes nothing |
| Aggregates.FoldTx.StoreAll | pkg/pdp/pipeline/task_aggregate.go:106-121 | storeAggregate's errors are unreachable from the fold: the only failure is a piece no loaded row has left |
| Aggregates.FoldTx.StoreAggregate | pkg/pdp/pipeline/aggregates.go:29-68 | succeeds if and only if each piece has its own unfolded row, and marks exactly those rows; which of the three errors it returns otherwise |
| Aggregates.MatchPieces | pkg/pdp/pipeline/task_aggregate.go:107-115 | pops a distinct fitting row per piece, and fails if and only if some piece is short of rows |
| Aggregates.BuildQueues | pkg/pdp/pipeline/task_aggregate.go:82-95 | the queues hold every loaded row once, under its piece |
| Aggregates.MatchedAll | pkg/pdp/pipeline/aggregates.go:52-66 | the update's count is short exactly when some piece's row is missing, holds another piece or is folded |
| Aggregates.PlanMatches | pkg/pdp/pipeline/task_aggregate.go:106-121 | each position of each aggregate ends up on a row with its piece that was unfolded before |
| Aggregates.PlanOnlyFills | pkg/pdp/pipeline/aggregates.go:55-60 | no other row changes, and no row changes but for its place |
| Aggregates.FoldIsRun | pkg/pdp/pipeline/task_aggregate.go:61-123 | such a fold is a run of the lifecycle's fold steps, whatever roots its aggregates have |
| Aggregator.Append | pkg/pdp/aggregation/aggregator/fold.go:30-65 | every piece is in exactly one aggregate or in the remainder below the threshold; an aggregate is one piece over the threshold, or falls in size and is under twice the threshold |
| Aggregator.InsertOrderedByDescendingSize | pkg/pdp/aggregation/aggregator/fold.go:69-75 | the binary search keeps the order and adds exactly the piece |
| Aggregator.FoldLoaded | pkg/pdp/pipeline/task_aggregate.go:61-123 | Append and fold together: only a refusal of NewAggregate can fail, and then nothing changes |
| LoadAggregate.Load | pkg/pdp/pipeline/aggregates.go:116-151 | succeeds if and only if the rows are positions 0 to n-1 with proofs; which error names which first row |
| LoadAggregate.AnswersIff | pkg/pdp/pipeline/aggregates.go:122-126 | the distinct ordered rows of a root read as a list of pieces if and only if the root's rows are those pieces, at every position |
| LoadAggregate.ReadsIff | pkg/pdp/pipeline/aggregates.go:116-151 | in every reachable state what is read is an aggregate folded under the root that all others folded under it are prefixes of, and nothing else |
| LoadAggregate.LoadsWhatWasStoredIff | pkg/pdp/pipeline/aggregates.go:116-151 | in every reachable state loading returns every aggregate folded under the root since its last retirement if and only if they are all the same |
| LossRuns.SharedRootNeverLoads | pkg/pdp/pipeline/aggregates.go:135-137 | a run that folds a piece and a pair under one root, after which nothing can be loaded for it |
| Merkle.ReduceStack | pkg/pdp/aggregation/aggregator/aggregate.go:144-167 | combining equal trees leaves a strictly falling stack of perfect Merkle trees with the same leaves in order |
| Merkle.BuildTree | pkg/pdp/aggregation/aggregator/aggregate.go:41-92 | refuses exactly the empty, unsorted or too small pieces; else a perfect Merkle tree whose leaves are the pieces then commitments of zeros of rising size, of the least power of two that holds them |
| Merkle.CheckPieces | pkg/pdp/aggregation/aggregator/aggregate.go:41-60 | refuses exactly the empty list, a piece under 128 bytes and a piece larger than the one before, naming the first |
| Merkle.Pad | pkg/pdp/aggregation/aggregator/aggregate.go:81-92 | padding with commitments of zeros terminates with one tree, twice the first |
| Inclusion.NewAggregate | pkg/pdp/aggregation/aggregator/aggregate.go:41-140 | every piece's inclusion proof verifies against the root's commitment, at an index whose offset is the sum of the sizes before it; the root is that commitment and the data size |
| AggregateRoot.PiecesDetermineTree | pkg/pdp/aggregation/aggregator/aggregate.go:62-92 | any two trees built for the same pieces are the same, so the pieces determine the root |
| AggregateRoot.HalvesShareRoot | pkg/pdp/aggregation/aggregator/aggregate.go:115-134 | the root does not determine the pieces: a piece whose data is that of two halves has the root of the pair |
| Inclusion.ProvePieces | pkg/pdp/aggregation/aggregator/aggregate.go:189-226 | the iterative walk visits the pieces in order, each leaf agreeing with its piece, and ends |
| Inclusion.SiblingsVerify | pkg/pdp/aggregation/aggregator/aggregate.go:175-186 | folding a node's siblings into its commitment gives the root's |
| Inclusion.GetProof | pkg/pdp/aggregation/aggregator/aggregate.go:175-186 | the path is the sibling commitments from the leaf up |
| Submissions.SubmissionManager.Flush | pkg/pdp/pipeline/manager.go:60-101 | a run of lifecycle steps after which every marked root has a submission row and, unless a task cannot be added, too few roots for a batch are unclaimed; with no other claim under way no claimed root changes hands |
| Claiming.ChangesHandsIff | pkg/pdp/pipeline/manager.go:84-92 | when a task commits its claim, a row it picked changes hands if and only if another commit took it since it was picked |
| Claiming.OwnedIff | pkg/service/publisher/queue.go:93-103 | over any run a row is claimed if and only if some commit took it and it was not dropped since |
| Claiming.StampIff | pkg/pdp/pipeline/task_addroots.go:165-173 | over any run a row is a task's, or nobody's, exactly as the last commit that had picked it, or its insert, says |
| Claiming.PickedIff | pkg/pdp/pipeline/task_addroots.go:165-173 | over any run a statement has picked rows if and only if it has neither committed nor aborted since |
| Claiming.SecondTakesOver | pkg/pdp/pipeline/task_addroots.go:165-173 | two claims that pick one row before either commits: the second takes it from the first |
| AddRoots.Service.Partition | pkg/pdp/service/roots_add.go:186-287 | every requested root is in exactly one of completed, in flight and submitted, in order; a row of the data set is gone if and only if its transaction is waited on, is dead, and staged some requested root, whatever root the row itself stages, and every other row is unchanged |
| AddRoots.Service.AddRoots | pkg/pdp/service/roots_add.go:104-331 | a submission records exactly the new roots under an unused transaction, and clears every row of the transactions that are dead for the request and no other; any other outcome does at most that; the empty partition is unreachable |
| AddRoots.Service.RecordPieceAdds | pkg/pdp/service/roots_add.go:640-693 | one row per sub-piece at its offset; the primary key never clashes, so it fails only for a known transaction |
| AddRoots.MapStaged | pkg/pdp/service/roots_add.go:233-245 | a root staged under several transactions is in flight as long as one is live |
| AddRoots.FilterNew | pkg/pdp/service/roots_add.go:276-287 | keeps, in order, exactly the roots in neither part |
| RootSubmissions.NeverTwoLive | pkg/pdp/service/roots_add.go:186-331 | over any sequence of calls and chain events no root is recorded under two live transactions |
| RootSubmissions.RepeatSubmitsNothing | pkg/pdp/service/roots_add.go:289-321 | repeating a call that submitted, with no status change, finds nothing new |
| RootSubmissions.NothingNewAgain | pkg/pdp/service/roots_add.go:289-321 | nor does repeating one that found nothing new |
| RootSubmissions.ClearedIff | pkg/pdp/service/roots_add.go:247-274 | a row is cleared if and only if it is of the data set and its transaction is waited on, is dead, and staged some requested root |
| RootSubmissions.ClearKeepsParts | pkg/pdp/service/roots_add.go:247-274 | clearing moves no root to another part |
| RootSubmissions.RecordedRowsTile | pkg/pdp/service/roots_add.go:652-690 | every byte of a recorded root is covered by exactly one of its rows |
| RootSubmissions.RecordedRowsAligned | pkg/pdp/service/roots_add.go:479-491 | with power-of-two sizes every recorded offset is a multiple of its row's size |
| RootLayout.CheckRequest | pkg/pdp/service/roots_add.go:135-160 | refuses exactly the empty requests, roots without sub-pieces and repeated sub-pieces |
| RootLayout.LayOut | pkg/pdp/service/roots_add.go:396-445 | every shared record holds the sum of the sizes before it in its own root, undisturbed by other roots; fails exactly when a root is not made of parked sub-pieces |
| RootLayout.CheckDescending | pkg/pdp/service/roots_add.go:479-491 | passes if and only if the sizes fall |
| RootLayout.Tiles | pkg/pdp/service/roots_add.go:396-411 | offsets that are running sums tile the root without gap or overlap |
| RootLayout.Aligned | pkg/pdp/service/roots_add.go:396-411 | falling power-of-two sizes put each at a multiple of itself |
| Transactions.Db.Run | pkg/database/harmonytx/harmonytx.go:33-63 | only the attempt that commits leaves anything: the writes of its Exec statements, in order, then its callbacks, each once and in registration order, all of them even if some fail, whose errors are returned in order; a failed run leaves nothing and returns the last body's error before any other |
| Transactions.BodyPerforms | pkg/database/harmonytx/harmonytx.go:33-51 | the effect of a body, index by index over the plain list of its statements with nested ones in place: its writes are those of the Exec statements before the first failure, its callbacks those of the After statements before it, and its error that failure's |
| Transactions.Db.Do | pkg/database/harmonytx/harmonytx.go:33-36 | a body run through the shared state, nested joins included, adds exactly those writes and callbacks and returns that error |
| Transactions.JoiningIsInlining | pkg/database/harmonytx/harmonytx.go:33-36 | a nested Run, its error passed on or dropped, has the effect of its statements written in its place |
| Transactions.Db.AfterCommit | pkg/database/harmonytx/harmonytx.go:67-73 | deferred inside a transaction, run at once outside |
| Adverts.AdvertsConserved | pkg/service/publisher/queue.go:80-188 | at all times every queued instance is in exactly one of queued, published, withdrawn and skipped, none is lost, and no two batches share one |
| Adverts.QueuedIff | pkg/service/publisher/queue.go:50-78 | over any run a claim is queued with a spec if and only if the enqueue that first queued it had that spec, and it was neither withdrawn nor in a committed batch since |
| Adverts.ClaimedIff | pkg/service/publisher/queue.go:93-188 | over any run a row is a publish task's if and only if that task's batch took it and it neither left the queue nor was reclaimed once its task was gone |
| Adverts.ShortBatchTakesAll | pkg/service/publisher/queue.go:93-111 | a batch of fewer than a thousand rows leaves no queued row unclaimed |
| Adverts.LiveIff | pkg/service/publisher/queue.go:174-188 | over any run a task counts as alive if and only if its batch started it and it has not ended |
| Adverts.FateIff | pkg/service/publisher/publisher.go:125-181 | over any run an instance was published, skipped or withdrawn if and only if the step that took it out of the queue did that: published exactly when its spec was usable |
| Adverts.Specs | pkg/service/publisher/publisher.go:133-162 | the advertisements of a batch are those of its rows with a usable spec, in order |
| Adverts.LiveRowsKept | pkg/service/publisher/queue.go:174-188 | with claims one at a time, rows of a live task are never reclaimed or claimed by another |
| Adverts.WithdrawnStaysUnpublished | pkg/service/publisher/publisher.go:99-113 | after a committed withdrawal no batch publishes the claim unless it is queued again |
| Adverts.WithdrawnIsAbsent | pkg/service/publisher/queue.go:76-89 | a withdrawal that commits leaves the claim out of the queue and of the batch in progress |
| Adverts.CommitKeepsConserved | pkg/service/publisher/publisher.go:125-181 | the rows a batch retires are exactly those it loaded |
| Adverts.Publisher.PublishClaimed | pkg/service/publisher/publisher.go:125-181 | publishes the specs of the usable rows in order and retires all loaded rows with them, or leaves the queue as it was; which counts it returns when |
| DedupQueue.DoneStaysDone | lib/jobqueue/dedup/queue.go:200-247 | with dedup on, a key is never both queued and done, and one that is done is never queued again |
| DedupQueue.DeletedIsDone | lib/jobqueue/dedup/queue.go:392-418 | deleting a job marks its key done, as successful |
| DedupQueue.DeliveriesNumbered | lib/jobqueue/worker/worker.go:375-428 | with fresh ids every id is live, finished or dead, and its deliveries are numbered 1 to k within the limit, so the last-attempt branch runs at most once |
| DedupQueue.SqliteApartIff | lib/jobqueue/dedup/schema.sqlite.sql:29-40 | with SQLite's ids, every id is live, finished or dead, and only one of them, throughout a run if and only if no job is inserted while the greatest id ever given out has left the queue |
| DedupQueue.SqliteReusesDeadIds | lib/jobqueue/dedup/schema.sqlite.sql:29-40 | with SQLite's ids a dead job's id is live again and its own move to the dead letters fails |
| DedupQueue.Queue.Receive | lib/jobqueue/dedup/queue.go:297-339 | takes the oldest available job below the limit, nothing if and only if there is none, and numbers the delivery; until the timeout is over the job cannot be taken again, and every other job is unchanged |
| DedupQueue.QueuedIff | lib/jobqueue/dedup/queue.go:200-247 | over any run a job is queued under its key if and only if its send found the key neither queued nor done and it was neither deleted nor moved since |
| DedupQueue.AvailableIff | lib/jobqueue/dedup/queue.go:297-390 | over any run a job is next available exactly when its last send, receive or extension says |
| DedupQueue.DoneIff | lib/jobqueue/dedup/queue.go:392-461 | over any run a key is done with a status if and only if the first deletion or blocking move of a job of it gave that status |
| DedupQueue.DeadIff | lib/jobqueue/dedup/queue.go:427-461 | over any run the dead letters hold a job, with its attempts, if and only if it was moved there while its id was not there yet |
| DedupQueue.Queue.Send | lib/jobqueue/dedup/queue.go:200-247 | inserts unless the key is done or queued |
| DedupQueue.Queue.Delete | lib/jobqueue/dedup/queue.go:392-418 | removes the job and marks its key, never overwriting a mark |
| DedupQueue.Queue.MoveToDeadLetter | lib/jobqueue/dedup/queue.go:427-461 | moves the job, blocking its key if configured; fails, changing nothing, if the id is dead already |
| Worker.BoundedIff | lib/jobqueue/worker/worker.go:248-296 | running jobs stay within the limit in every interleaving if and only if the limit is not negative |
| Worker.PastCheckIff | lib/jobqueue/worker/worker.go:248-296 | over any run the dispatcher is past its check if and only if one passed and it has not received since |
| Worker.CountIs | lib/jobqueue/worker/worker.go:248-296 | at every point of any run the job count is the jobs started less those that exited |
| Worker.NegativeLimitIsNone | lib/jobqueue/worker/worker.go:249-256 | with a negative limit any number of jobs runs at once |
| Worker.Dispatch.ReceiveAndRun | lib/jobqueue/worker/worker.go:248-296 | one dispatch, while jobs exit, keeps the count within the limit |
| Worker.NeverLapsesIff | lib/jobqueue/worker/worker.go:358-372 | with extensions on time a lease never lapses, for any start time, if and only if timeout minus sleep and extend/5 are both at least a second |
| Worker.SleepBelowTimeoutLapses | lib/jobqueue/dedup/queue.go:297-300 | a timeout just above the sleep is not enough |
| Worker.RunningJobNotRedelivered | lib/jobqueue/worker/worker.go:319-372 | with those margins, after any receive of a job no other receive takes it while it is extended on time and runs |
| ProofChain.OrderProofChain | pkg/config/services.go:58-102 | on two or more delegations, succeeds if and only if they can be arranged as one open chain, and returns the only arrangement; which error means what |
| ProofChain.ArrangementUnique | pkg/config/services.go:53-57 | there is one arrangement at most, whatever the input order |
| ProofChain.NeverStops | pkg/config/services.go:87-96 | on every input outside the stated domain the walk never ends |
| ProofChain.RootedCycle | pkg/config/services.go:73-85 | such an input passes the checks |
| ProofChain.Walk | pkg/config/services.go:87-96 | with distinct audiences the walk visits no delegation twice and ends |
| TaskHistory.Source.Read | pkg/curiopdp/metrics.go:210-244 | after every successful read, whatever reads failed before, the accumulated latest success of each task is that of a full scan at its query but for the rows that were missed |
| TaskHistory.CaughtIff | pkg/curiopdp/metrics.go:214-237 | a visible row was covered by some query if and only if no successful read started at least the overlap after its end and queried before it was visible |
| TaskHistory.PromptNeverMissed | pkg/curiopdp/metrics.go:33-38 | a row visible within the overlap of its end is never missed |
| TaskHistory.LateRowMissed | pkg/curiopdp/metrics.go:33-38 | the overlap is tight: a row visible any later can be missed for good |
| VerifyReader.Reader.ReadAll | lib/verifyread/reader.go:88-142 | however the source is chunked, it is accepted if and only if its whole content has the size and the digest given, and a wrong size is reported before a wrong digest; what was delivered is a prefix within the size, and a sum exists only on success, as the digest of all of it |
| VerifyReader.Reader.Read | lib/verifyread/reader.go:88-131 | what is delivered is what was hashed; a latched error or the end comes back without touching the source |
| VerifyReader.Reader.Finish | lib/verifyread/reader.go:112-128 | at the end, the size is checked before the digest |

## Left out

- The window between sending a transaction and recording it (`pkg/pdp/service/roots_add.go:32-40`): results about AddRoots are about recorded rows, and calls do not overlap; in `Lifecycle` a call's queries and its recording are one step.
- The watcher that promotes confirmed adds is unseen: `Lifecycle` takes it to promote all adds of a root under one transaction together.
- Pipeline liveness: the code does not decide that every row finishes, since claims are never cleared.
- Worker liveness: a job whose last attempt dies with its worker stays queued and is not delivered again.
- Aggregation task spawns (`agg_task_id`): the fold loads every unfolded row whichever task runs it.
- Within one blob's sweep turn, and between `finalizeRemoval`'s claim check and its deletions, `Lifecycle` takes one step; `BlobLock` models the latter statement by statement.
- Submissions.SubmissionManager.Flush: claims one batch at a time, as `Lifecycle` does; `Claiming` says what happens when two claims overlap.
- Adverts.LiveRowsKept: takes the claim of a batch as one step; the publish task is a singleton, and `Claiming` says what happens when two claims overlap.
- A release between an upload's two writes to the claim store: the upload undoes it, as `Uploads` models; `Claims` takes receives and releases in sequence.
- The claim store's other operations (`MakeCurrent`, `ReleaseByTask`, `Delete`) and its Postgres form.
- Snapshot isolation: a finalizer that read claims from a snapshot older than its lock is not modelled.
- The root CID's size encoding, the zero-commitment table and the arithmetic of padded sizes live in unseen libraries; `Merkle` takes commitments of zeros as a function of their size, and a root as a commitment and a data size.
- AddRoots's signing, encoding and confirmation waits, and the chain's own behaviour beyond: a dead transaction stays dead.
- A hash whose `Write` fails: Go's hash functions never do.
- Callbacks that themselves start transactions, in `Transactions`.
- The plain job queue, the dynamic configuration, telemetry, proof cache rows, the piece resolver's cache, and everything around the node (commands, HTTP, UCAN validation, contracts): they would only add easier members.
