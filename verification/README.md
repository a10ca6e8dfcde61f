# A file-sync system: revision trees on the hub, a durable mirror on the client

The system keeps a set of files the same on several devices. A **hub** stores every path as a CouchDB
document with a revision tree; a push on a stale revision grafts a branch onto the tree, and a
**resolver** reads the leaves, decides on a plan, writes conflict copies, writes the result on top of the
winner and tombstones the losers, starting over whenever one of its compare-and-swap writes is refused.
A **client** keeps files, metadata, a queue of local changes and one checkpoint per hub, any of whose
store operations and requests may fail.

The project models both halves and proves what they are for. In every interleaving of resolvers and
pushers, a leaf a resolver tombstones is preserved first and for good, as the written result, as an input
of the merge that was written, or as a conflict copy; so is the winner a resolver writes on, unless its
`put_attachment` never lands, because it stops or because somebody writes on the half-written revision
first, where the exact conditions are given and runs that lose the winner are shown. Once one of the racing
resolvers is through and nobody else writes, one alive leaf is left. And no run of the client leaves a path wrong without it being queued or
still to be pulled, until a pull skips a change to a queued path, where the exact condition is given too.

| file | what it models |
|---|---|
| `RevTree.dfy` | revision trees, the winner, `_conflicts`, and when CouchDB accepts each write |
| `Ancestry.dfy` | `diff3.rs`: the common ancestor |
| `Planning.dfy`, `CopyNames.dfy` | the resolver's decisions: plans and names for conflict copies |
| `Protocol.dfy` | resolvers and pushers as a state machine, one CouchDB call a step |
| `NoLoss.dfy`, `HalfWritten.dfy`, `Retries.dfy`, `Convergence.dfy` | what holds in every run of that machine, and what a half-written result costs |
| `Couch.dfy`, `Resolver.dfy`, `Decisions.dfy` | `couch.rs` and `resolver.rs` as imperative code with nobody else writing, and what it decides in terms of the stored revisions |
| `Solo.dfy` | the machine and the imperative code do the same when nobody disturbs |
| `BranchId.dfy`, `Push.dfy`, `Branching.dfy`, `Resend.dfy` | `push.rs`: branch ids, applying a batch, what branches store, pushing again |
| `Mirror.dfy`, `HubService.dfy`, `Queue.dfy`, `Client.dfy` | the sync engine, its stores, and a hub that others write to |
| `Feed.dfy` | the hub's database as its clients see it, and why acknowledged changes are in its feed |
| `Reconcile.dfy` | the desktop pass that looks for changes on disk |

`resolve` appears twice. In `Protocol` it is cut at every CouchDB call, so that anything may happen in
between; in `Resolver` it is a method that runs undisturbed. `Solo.SoloRefinesResolve` ties the two: left
alone, the machine ends, and with exactly the outcomes of the method.

How things are represented:

- A revision is a generation and the rank of its id in CouchDB's own order among ids of that generation.
  Nodes of a tree never change and are never pruned.
- The three-way merge is a parameter: a deterministic partial function of base, winner and loser.
- A pusher, another hub replicating in, or a client of another document is an *external call* of the
  machine: any write CouchDB accepts, at any moment. A resolver's transport error or crash is a step that
  stops it, except while it reads the merge base: that read may fail, and then the base is empty. The `guarded` documents are those on which nobody but a resolver deletes a current leaf; the
  no-loss theorems speak of guarded documents, from any moment at which they are alive and no resolver is
  at work on them beyond its first read.
- Every store operation inside a push or a pull may fail, and every request may fail before or after it
  took effect; the `record_*` operations do not fail part-way. `complete` says that a hub answers every
  change of a push, which `Push.PostChanges` shows of the hub in this repository. `steady` (the stores
  never fail) and `calm` (a hub answers everything and nobody else writes to it) only occur where it is
  said that an operation must succeed. Properties without those words hold whatever fails.
- The client's log - what was last recorded for a path, and the checkpoints held when its change was
  queued - is ghost state for stating properties; the engine does not store it.
- What a client sees of a hub is a map of files and a feed in which every change moves its path to the
  end.

What the proofs found:

- A resolver writes its result in two steps, and the first retires the winner. If the second never lands
  and the plan had no copy of the winner, its content is preserved nowhere, whether the resolver stopped
  (`HalfWritten.HalfWrittenLosesTheWinner`) or somebody else wrote on the half-written revision and it
  started over (`HalfWritten.OvertakenLosesTheWinner`). As long as nobody else writes content,
  `HalfWritten.RetiredIsPreservedIff` says exactly when the winner is preserved.
- Nothing repairs a revision that never got its content. Every resolver that finds it among its leaves
  fails without writing anything, in every run (`HalfWritten.HalfDoneStopsResolvers`); undisturbed, that is
  the only way `resolve` fails (`Resolver.ResolveFailsIff`). A pusher leaves such a revision too when it is
  interrupted between its two writes, and the same upsert is then refused whenever it is sent again, which
  also ends the batch it is sent in (`Resend.InterruptedUpsertIsRefused`). The comment at `couch.rs:300-302`
  expects a retry to repair it.
- `resolve_delete_winner` never finds anything to do: `resolve` calls it when `get_doc` finds nothing, and
  then no leaf is alive. Its comment speaks of an edit leaf hidden by a winning deletion; CouchDB never
  lets a deletion win over an alive leaf, as `NOTES.md:110-113` says too.
- A stale upsert to a deleted path does bring the content back, except when its branch is already in the
  tree because the same push was applied before and the path deleted since; then it is refused
  (`Resend.StaleUpsertRevives` has the exact condition, `Resend.PushDeletePushIsRefused` the sequence).
- `common_ancestor` compares ids only. It finds the deepest shared revision exactly when no id of one
  history is used at another generation of the other one, above everything shared
  (`Ancestry.AncestorIsDeepestIff`). An id can be used twice when the seeds of two branches have the same
  64-bit hash; `Ancestry.SharedIdIsNotEnough` has a tree on which that misleads the search.
- The base revision of a queued change survives any number of edits, except when the path was deleted and
  touched again, because recording a delete drops the metadata (`Mirror.BaseRevSurvivesEdits`).
- The desktop scan skips directories whose name ends in `.tmp`, while the listing of metadata looks only
  at the end of the whole key. A file pulled below such a directory is recorded as deleted by the next
  pass (`Reconcile.PulledBelowTmpIsDeleted`; `Reconcile.QuietIffTidy` has the exact condition for a quiet
  pass).
- With a deleted winner, listing the leaves in another order gives another plan exactly when two alive
  leaves differ in content, mtime or type (`Planning.DeletedWinnerIgnoresOrderIff`); `resolve` never makes
  such a plan.
- A finished pull keeps the client in step exactly when it skipped no change to a queued path
  (`Queue.DonePullKeepsSyncIff`; against an unchanged hub, exactly when its report lists no local
  conflicts). `sync` against a hub that answers in full never skips one, since it pushes first. A pull of
  its own can, and so can a `sync` whose push was answered for only part of the queue. If it did, and an
  earlier push had landed whose answer was lost, the two sides can end up different for good with nothing
  queued and nothing to pull (`Queue.SkippedPathIsLost`).

## Model

| member | source | states |
|---|---|---|
| RevTree.AliveAfterAdd | crates/hub-api/src/couch.rs:280-326 | every accepted write retires exactly the revision it is based on as a leaf and leaves all other leaves alone |
| RevTree.PutIsGrounded | crates/hub-api/src/couch.rs:280-298 | an accepted write always has its place in the tree; with no base on a deleted document it continues the highest tombstone |
| RevTree.HistoryStable | crates/hub-api/src/couch.rs:209-227 | the history of a revision never changes once it is in the tree |
| Ancestry.AncestorStable | crates/hub-api/src/diff3.rs:51-63 | later writes never change the common ancestor of two leaves |
| Ancestry.AncestorIsDeepestIff | crates/hub-api/src/diff3.rs:51-63 | the common ancestor is the deepest revision both histories share, or none when they share none, exactly when every id that one history uses at another generation of the other is at or below something they share |
| Ancestry.AncestorIsDeepest | crates/hub-api/src/diff3.rs:42-63 | in particular when each id occurs at one generation, and then for both sides alike |
| Ancestry.AncestorIsSymmetricIff | crates/hub-api/src/diff3.rs:51-63 | swapping the two sides gives the same answer exactly when both answers are right |
| Ancestry.BranchMeetsAtBaseIff | crates/hub-api/src/routes/push.rs:144-184 | a branch built on a base revision and a winner descending from it meet at exactly that base, exactly when the winner's history does not use the branch's id |
| Ancestry.WinnerMeetsAtBaseIff | crates/hub-api/src/routes/push.rs:144-184 | the same with the two sides swapped, exactly when the winner's history above the base uses no id of the branch's |
| Ancestry.SharedIdIsNotEnough | crates/hub-api/src/diff3.rs:42-63 | with an id used at two generations the result can lie outside the shared history |
| Planning.PlanPartitions | crates/hub-api/src/resolver.rs:241-311 | planning from any listing that contains the winner succeeds, and winner plus losers are exactly the leaves, each once |
| Planning.PlanConserves | crates/hub-api/src/resolver.rs:241-369 | in every plan each alive leaf's content is the final content, a copy with its own mtime and type, or an input of the merge that gave the final content |
| Planning.SingleEditWins | crates/hub-api/src/resolver.rs:265-278 | a single edit among tombstones wins with its own content, mtime and type and without copies, whoever the winner is |
| Planning.PlanIgnoresOrder | crates/hub-api/src/resolver.rs:241-369 | with an alive winner, the order in which conflicts are listed changes nothing but the order of copies and losers |
| Planning.DeletedWinnerKeepsFirst | crates/hub-api/src/resolver.rs:280-288 | with a deleted winner the first alive leaf listed is the one kept |
| Planning.DeletedWinnerIgnoresOrderIff | crates/hub-api/src/resolver.rs:280-310 | with a deleted winner the listing order has no effect exactly when all alive leaves have the same content, mtime and type |
| Planning.TwoOrdersTwoPlans | crates/hub-api/src/resolver.rs:280-310 | otherwise two orders of the same leaves give different plans |
| CopyNames.CandidateInjective | crates/hub-api/src/resolver.rs:448-458 | the names tried for a copy never repeat |
| CopyNames.CopyNameDiffers | crates/hub-api/src/resolver.rs:448-458 | a copy is never written over the file it is a copy of |
| CopyNames.ProbesAreBounded | crates/hub-api/src/resolver.rs:448-458 | if the first n candidates are taken there are n documents |
| CopyNames.CandidateNames | crates/hub-api/src/resolver.rs:439-453 | the names are the path with `.conflict-` and the date, then the same with `.0`, `.1` and so on in decimal without leading zeros |
| Protocol.WroteGrows | crates/hub-api/src/couch.rs:280-364 | one accepted write adds one node to one document |
| Protocol.NextGrows | crates/hub-api/src/resolver.rs:82-129 | every step of anybody adds at most one revision, in its own name, and never changes or removes one |
| NoLoss.SnapshotPlanIsOk | crates/hub-api/src/resolver.rs:89-113 | a plan made from leaves read one at a time, whatever was written in between, provides for every leaf read |
| NoLoss.ResultPreserves | crates/hub-api/src/resolver.rs:405-434 | once the result is written, each loser and the winner are preserved and lie below it |
| NoLoss.AttemptKeepsLevels | crates/hub-api/src/resolver.rs:430-434 | a resolver's tombstone always leaves a leaf of higher generation alive |
| NoLoss.NextIsSafe | crates/hub-api/src/resolver.rs:82-437 | the protocol invariant survives every step of any resolver or pusher |
| NoLoss.TombstonedIsPreserved | crates/hub-api/src/resolver.rs:371-437 | in every interleaving, a leaf a resolver tombstones has its exact content stored as written result, merge input or conflict copy, at that moment and ever after |
| NoLoss.OverwrittenIsPreserved | crates/hub-api/src/resolver.rs:420-428 | once a resolver's attachment on its result is accepted, the winner it wrote on is preserved for good |
| HalfWritten.CopiedIsPreserved | crates/hub-api/src/resolver.rs:378-418 | a winner that its plan lists as a copy is preserved already when the `put_doc` on it is accepted |
| HalfWritten.PreservedBySomeWrite | crates/hub-api/src/resolver.rs:405-428 | between two moments of a run, a revision comes to be preserved only by a write with content to its document or under a copy name |
| HalfWritten.RetiredIsPreserved | crates/hub-api/src/resolver.rs:405-428 | from the `put_doc` that retires it on, a winner is preserved if the plan had it as a copy, if it was preserved before, or once the same resolver's attachment lands; otherwise only if somebody writes content afterwards |
| HalfWritten.RetiredIsPreservedIff | crates/hub-api/src/resolver.rs:405-428 | while nobody else writes content to the document or under its copy names, a retired winner is preserved exactly when it was before, when the plan had it as a copy, or when the same resolver's attachment landed |
| HalfWritten.HalfWrittenLosesTheWinner | crates/hub-api/src/resolver.rs:405-428 | a run of one resolver that stops between its two writes: the winner's content is preserved nowhere and no alive leaf holds it |
| HalfWritten.OvertakenLosesTheWinner | crates/hub-api/src/resolver.rs:419-427 | a run in which nobody stops: somebody writes on the half-written revision first, the attachment is refused, the resolver starts over, and the winner is preserved nowhere |
| HalfWritten.RunFetches | crates/hub-api/src/resolver.rs:108-111 | what a resolver has fetched is what is stored, at every moment of its fetching |
| HalfWritten.HalfDoneStopsResolvers | crates/hub-api/src/resolver.rs:108-172 | a resolver with a revision without content among its leaves never plans and never writes, at any later moment of any run |
| Convergence.OwnWriteCounts | crates/hub-api/src/resolver.rs:371-437 | no write of a resolver on its document adds an alive leaf, and each tombstone removes one |
| Convergence.CountsDown | crates/hub-api/src/resolver.rs:371-437 | while only its resolvers write to a document, the number of its alive leaves never grows |
| Convergence.RacingResolversConverge | crates/hub-api/src/resolver.rs:3-8 | once one of any number of racing resolvers, begun after everybody else's last write, is through, the document has exactly one alive leaf from then on and whoever looks next finds no conflict |
| NoLoss.NeverFullyDeleted | crates/hub-api/src/resolver.rs:83-87 | in every interleaving a document that starts alive stays alive, and no resolver enters the delete-winner path |
| NoLoss.DeletersSpareALeaf | crates/hub-api/src/resolver.rs:430-434 | every resolver deleting losers leaves an alive leaf that is not on its list |
| Retries.RefusalIsCharged | crates/hub-api/src/resolver.rs:461-466 | a call refused inside an attempt means that another author wrote to its document, or under one of its copy names, within that attempt |
| Retries.NextKeeps | crates/hub-api/src/resolver.rs:82-129 | the charging invariant survives every step |
| Retries.EveryRefusalHasAnAuthor | crates/hub-api/src/resolver.rs:115-125 | in every run, each refusal has such a write by somebody else between the attempt's `get_doc` and the refusal |
| Retries.FailsOnlyUnread | crates/hub-api/src/resolver.rs:108-113 | a step ends a resolve in failure only where the next revision on its list cannot be read; the plan made of what it read is always carried on |
| Retries.MaxRetriesNeedsFiveWrites | crates/hub-api/src/resolver.rs:82-129 | a resolve ending in `MaxRetries` made exactly five attempts and saw at least five writes by others to its document or under its copy names during it |
| CouchDb.Couch.GetDoc | crates/hub-api/src/couch.rs:197-207 | the winning leaf and the other alive leaves, or nothing when no leaf is alive |
| CouchDb.Couch.GetDocAtRev | crates/hub-api/src/couch.rs:209-227 | finds a revision exactly when it is in the tree |
| CouchDb.Couch.GetDocLeaves | crates/hub-api/src/couch.rs:252-278 | lists each leaf, deleted or not, once |
| CouchDb.Couch.PutDoc | crates/hub-api/src/couch.rs:280-298 | compare-and-swap: accepted exactly when the base is a leaf, or with no base when nothing is alive; adds one node without content |
| CouchDb.Couch.PutAttachment | crates/hub-api/src/couch.rs:300-319 | compare-and-swap: puts the content in a new revision on top |
| CouchDb.Couch.DeleteDoc | crates/hub-api/src/couch.rs:321-326 | compare-and-swap: adds a tombstone on a current leaf |
| CouchDb.Couch.PutRevision | crates/hub-api/src/couch.rs:328-364 | adds the branch if it is not there yet, otherwise changes nothing |
| Resolver.ConflictCopyPath | crates/hub-api/src/resolver.rs:439-459 | ends within one probe more than there are documents, with the first candidate that has no live document |
| Resolver.WriteCopy | crates/hub-api/src/resolver.rs:378-403 | one copy, content, mtime and type, as the only alive leaf of a document that was free |
| Resolver.WriteCopies | crates/hub-api/src/resolver.rs:376-403 | all copies stored under pairwise different names, no other document changed |
| Resolver.WriteResult | crates/hub-api/src/resolver.rs:405-428 | the result replaces the winner, the losers stay as they were |
| Resolver.DeleteLosers | crates/hub-api/src/resolver.rs:430-434 | afterwards the result is the only alive leaf |
| Resolver.ApplyPlan | crates/hub-api/src/resolver.rs:371-437 | undisturbed on a document that is as planned, it completes: copies stored, one alive leaf with the planned content, mtime and type |
| Resolver.Resolve | crates/hub-api/src/resolver.rs:82-129 | `NoConflict` and unchanged exactly with at most one alive leaf, failure and unchanged when a leaf has no content, otherwise a plan of the current leaves carried out; never `MaxRetries` |
| Resolver.ResolveDeleteWinner | crates/hub-api/src/resolver.rs:174-231 | undisturbed, with edits beside tombstones the newest edit is the only alive leaf afterwards and no copies are made; otherwise nothing is written, in particular when no leaf is alive |
| Resolver.DeleteWinnerPlanIsReady | crates/hub-api/src/resolver.rs:203-215 | its plan covers every leaf and can be carried out |
| Resolver.PlannedIsReady | crates/hub-api/src/resolver.rs:105-113 | a plan made from the current alive leaves covers all of them and can be carried out |
| Resolver.ResolveFailsIff | crates/hub-api/src/resolver.rs:131-172 | undisturbed, a resolve fails exactly when it finds a conflict while an alive leaf has no content, and then it changes nothing |
| Resolver.ResolveSettles | crates/hub-api/src/resolver.rs:82-129 | with every alive leaf readable, one resolve leaves one alive leaf holding what was planned, and a second finds no conflict and changes nothing |
| Decisions.MergeBaseIs | crates/hub-api/src/resolver.rs:322-334 | two leaves are merged over the content of the deepest revision they share, or over nothing if they share none or it has no content, unless an id misleads the search |
| Decisions.TwoLeavesPlan | crates/hub-api/src/resolver.rs:313-369 | a successful merge is the result, with the later time, the winner's type and no copies; otherwise the later leaf stays as it is, the winner on a tie, and the other one is the only copy |
| Decisions.ManyLeavesPlan | crates/hub-api/src/resolver.rs:280-310 | with three alive leaves or more the winner stays as it is, and every other alive leaf is a loser and a copy |
| Decisions.TwoLeavesResolved | crates/hub-api/src/resolver.rs:82-129 | what an undisturbed resolve of two leaves leaves stored: that result alone, that copy, and nothing else changed |
| Decisions.ManyLeavesResolved | crates/hub-api/src/resolver.rs:82-129 | what one of three leaves or more leaves stored: the winner alone, and every other leaf under a name of its own |
| Solo.StepOnTrack | crates/hub-api/src/resolver.rs:371-437 | every call of an undisturbed resolver of the machine does what the code does at that place, and none is refused |
| Solo.StepInBudget | crates/hub-api/src/resolver.rs:82-129 | every such call brings the end nearer |
| Solo.SoloRefinesResolve | crates/hub-api/src/resolver.rs:82-129 | undisturbed, a resolver of the machine ends after a bounded number of calls, and its outcome and the database are those of `resolve` |
| Solo.SoloResolves | crates/hub-api/src/resolver.rs:105-122 | in particular a conflict of readable leaves ends resolved, its plan carried out |
| Solo.StepExists | crates/hub-api/src/resolver.rs:82-129 | at every moment there is a call it can make |
| BranchId.SeedInjective | crates/hub-api/src/routes/push.rs:166-174 | the seed determines base revision, deletion, mtime and content, for names without NUL |
| BranchId.RevHash | crates/hub-api/src/routes/push.rs:216-225 | the loop computes 64-bit FNV-1a |
| BranchId.RoundInjective | crates/hub-api/src/routes/push.rs:220-223 | each round of FNV-1a is injective in the state and in the byte |
| BranchId.OneByteChangesId | crates/hub-api/src/routes/push.rs:216-225 | seeds that differ in exactly one byte never get the same 16-digit id |
| BranchId.XorIsBitwise | crates/hub-api/src/routes/push.rs:221 | the exclusive or, bit by bit |
| BranchId.KnownHashes | crates/hub-api/src/routes/push.rs:216-225 | the published hashes of the empty input and of "a" |
| BranchId.Hex16IsValue | crates/hub-api/src/routes/push.rs:224 | the sixteen digits write the hash, most significant first |
| BranchId.BigEndianIsValue | crates/hub-api/src/routes/push.rs:172 | the eight bytes write the mtime in two's complement, most significant first |
| Branching.ChangeSeedInjective | crates/hub-api/src/routes/push.rs:166-174 | changes with equal seeds have the same base text, deletion, mtime and content |
| Branching.ContentsApart | crates/hub-api/src/routes/push.rs:166-183 | edits of one base whose contents differ in exactly one byte never share a branch |
| Branching.MtimesApart | crates/hub-api/src/routes/push.rs:166-183 | nor do edits whose encoded mtimes differ in exactly one byte |
| Branching.DeleteApart | crates/hub-api/src/routes/push.rs:166-183 | nor do a delete and an upsert of an empty file |
| Branching.StaleUpsertIsStored | crates/hub-api/src/routes/push.rs:133-199 | a stale upsert whose branch id is free leaves a revision on its base with its content, mtime and type, and takes nothing away |
| Branching.BothEditsAreStored | crates/hub-api/src/routes/push.rs:133-199 | two offline edits of one base, contents one byte apart, are both in the tree after the second stale push |
| Push.BranchAndResolve | crates/hub-api/src/routes/push.rs:133-214 | unknown base refused and unchanged; otherwise the branch is in the tree once, resolved, and the surviving winner is the answer |
| Push.ApplyUpsert | crates/hub-api/src/routes/push.rs:98-131 | a current base is written on directly, any other is branched |
| Push.ApplyDelete | crates/hub-api/src/routes/push.rs:76-96 | without a base a no-op on an absent path and a refusal otherwise; with a current base a tombstone; else a branch |
| Push.PostChanges | crates/hub-api/src/routes/push.rs:22-31 | changes applied in order, one result each; the first that fails ends the batch and keeps the ones before it |
| Resend.AcceptedSend | crates/hub-api/src/routes/push.rs:114-125 | an accepted upsert leaves the client's content, mtime and type in one new leaf and uses up its base |
| Resend.StaleSendSettles | crates/hub-api/src/routes/push.rs:126-131 | after one stale send every further send does nothing |
| Resend.ThirdSendChangesNothing | crates/hub-api/src/routes/push.rs:98-214 | from the third send of an upsert on the database is unchanged |
| Resend.OneBranchAtMost | crates/hub-api/src/routes/push.rs:166-199 | however often it is sent, an upsert adds at most one branch |
| Resend.ResendKeepsVisible | crates/hub-api/src/routes/push.rs:98-214 | after the first acknowledgement no further send changes what readers see |
| Resend.StaleDeleteLoses | crates/hub-api/src/routes/push.rs:87-94 | a stale delete against one alive leaf is answered with that leaf and changes nothing readers see |
| Resend.AcceptedDelete | crates/hub-api/src/routes/push.rs:87-88 | a delete on a current leaf buries that leaf alone and is answered with the tombstone |
| Resend.BlindDelete | crates/hub-api/src/routes/push.rs:77-85 | a delete without a base is acknowledged exactly when nothing is there, one on an unknown base is refused; neither changes anything |
| Resend.StaleDeleteOfDeletedIsRefused | crates/hub-api/src/routes/push.rs:208-212 | a stale delete of a path that is deleted already is refused |
| Resend.StaleUpsertRevives | crates/hub-api/src/routes/push.rs:126-131 | a stale upsert on a deleted path makes the client's content the only alive leaf exactly when its branch is new; otherwise it is refused |
| Resend.PushDeletePushIsRefused | crates/hub-api/src/routes/push.rs:76-131 | pushed onto a deleted path, deleted again on the revision it was answered with and pushed once more, the same upsert is refused and changes nothing |
| Resend.DeletedOnce | crates/hub-api/src/routes/push.rs:126-131 | a database in which that sequence can begin |
| Resend.ContentlessLeafBlocksUpserts | crates/hub-api/src/routes/push.rs:126-214 | beside an alive revision without content a new branch is added in vain: the push is refused |
| Resend.InterruptedUpsertIsRefused | crates/hub-api/src/routes/push.rs:114-131 | an upsert interrupted between its two writes is refused when it is sent again |
| Resend.AcknowledgedIsTraced | crates/hub-api/src/routes/push.rs:62-214 | an acknowledged change is a new revision in the tree, or a branch an earlier send left there, or a delete without base of an absent path |
| Feed.ChangedSince | crates/hub-api/src/couch.rs:145-147 | a document that is not what it was at a moment has its place in the feed after that moment |
| Feed.FeedEvolves | crates/hub-api/src/routes/changes.rs:31-40 | whoever writes to the database, the hub evolves as its clients rely on |
| Feed.ServesWhatIsVisible | crates/hub-api/src/routes/file.rs:8-45 | a path is served exactly when a leaf is alive, with the winner's content |
| Feed.AcceptedIsServed | crates/hub-api/src/routes/file.rs:20-27 | an upsert accepted onto nothing or onto the only alive leaf is served as sent, under the revision it was answered with |
| Feed.AppliesGrew | crates/hub-api/src/routes/push.rs:68-214 | applying a change only ever adds revisions |
| Feed.EffectiveIsListed | crates/hub-api/src/routes/push.rs:62-66 | an acknowledged change is in the feed after any moment at which it had not been sent, or deleted what was not there |
| Feed.BatchIsListed | crates/hub-api/src/routes/push.rs:22-31 | the same for every acknowledged change of a batch, once the batch is applied |
| HubService.TouchedEvolves | crates/hub-api/src/routes/changes.rs:31-40 | a change to a path moves it to the end of the feed |
| HubService.Hub.Changes | crates/hub-api/src/routes/changes.rs:31-77 | lists exactly the paths changed after the checkpoint, and the end of the feed as the new one |
| HubService.Hub.GetFile | crates/hub-api/src/routes/file.rs:8-45 | the file as it is, or a mixture only if the path changed in the meantime |
| HubService.Hub.Push | crates/client-core/src/hub.rs:144-151 | an acknowledged change is in the feed after the position it was queued at, or deleted what was not there |
| Mirror.RetriedPullIsOnePull | crates/client-core/src/engine.rs:136-161 | a pull that stopped anywhere, then done again against the same hub, has the effect of one uninterrupted pull |
| Mirror.TwoPartialPullsAreOne | crates/client-core/src/engine.rs:136-161 | the same for any number of interruptions |
| Mirror.PullIsDetermined | crates/client-core/src/engine.rs:136-200 | uninterrupted pulls from the same state give the same stores |
| Mirror.WithoutTheOne | crates/client-core/src/engine.rs:395-398 | removing the entry of a path leaves the others as and where they are |
| Mirror.EnqueuedKeepsOne | crates/client-core/src/engine.rs:395-404 | the queue keeps at most one entry per path |
| Mirror.BaseRevSurvivesEdits | crates/client-core/src/engine.rs:277-342 | after any edits of a path its queue entry names the revision in its metadata before them, exactly unless there was one and the path was touched again after a delete |
| Mirror.PulledRevisionIsTheBase | crates/client-core/src/engine.rs:190-198 | after a pull the next edit of a file is based on the revision the hub gave it |
| Queue.AdoptsRevisions | crates/client-core/src/engine.rs:237-259 | adopting results changes revisions only: each answered upsert gets its own |
| Queue.UploadNamesTheAdoptedRevision | crates/client-core/src/engine.rs:420-454 | what is pushed for a path after any edits names the revision last adopted, under the same exact condition |
| Queue.PushesWhatWasRecorded | crates/client-core/src/engine.rs:420-454 | the content pushed for a queued upsert is the content last recorded |
| Queue.RecordKeepsSync | crates/client-core/src/engine.rs:277-342 | recording a change keeps the client in step with every hub |
| Queue.AnswerKeepsSync | crates/client-core/src/engine.rs:225-259 | clearing the queue after a full answer leaves every path in the feed or equal on both sides |
| Queue.FailedPullKeepsSync | crates/client-core/src/engine.rs:136-200 | however far a failed pull came, every path it left half-written is still to be pulled |
| Queue.DonePullKeepsSyncIff | crates/client-core/src/engine.rs:156-174 | moving the checkpoint after the whole batch keeps the client in step exactly when no change to a queued path lies between the two checkpoints |
| Queue.DonePullIsPullEffect | crates/client-core/src/engine.rs:136-161 | against an unchanged hub a finished batch has exactly the effect of one pull |
| Queue.SkippedPathIsLost | crates/client-core/src/engine.rs:169-174 | if the checkpoint did move past a change to a queued upsert, whatever else is queued, an answer that brings no new change leaves the path different from the hub, not queued and not to be pulled |
| Queue.SkippedPathExample | crates/client-core/src/engine.rs:169-174 | a client and a hub to which this happens |
| Queue.NothingOutstandingMeansEqual | crates/client-core/src/engine.rs:112-118 | with nothing queued and nothing to pull the client equals the hub |
| Client.Retain | crates/client-core/src/engine.rs:395-398 | drops exactly the entries of one path, keeping order |
| Client.SyncEngine.RecordUpsert | crates/client-core/src/engine.rs:261-313 | file, metadata and one queue entry naming the revision in the metadata; mirror and queue stay sound |
| Client.SyncEngine.RecordDelete | crates/client-core/src/engine.rs:315-342 | file and metadata gone, one queued delete based on the previous revision; mirror and queue stay sound |
| Client.SyncEngine.UpsertPending | crates/client-core/src/engine.rs:395-404 | the newest entry of a path replaces the older one |
| Client.SyncEngine.PendingContains | crates/client-core/src/engine.rs:391-393 | true exactly for queued paths |
| Client.SyncEngine.BuildPushChanges | crates/client-core/src/engine.rs:420-454 | one upload per entry in order, with its path, base revision and mtime, the type in the metadata or else the entry's, and the content last recorded |
| Client.SyncEngine.Adopt | crates/client-core/src/engine.rs:237-244 | the hub's revisions are adopted in order, up to a store failure |
| Client.SyncEngine.PushTo | crates/client-core/src/engine.rs:225-259 | a hub failure changes nothing, the queue is cleared only by an answer to every change |
| Client.SyncEngine.PushInTurn | crates/client-core/src/engine.rs:210-222 | hubs in order until one answers or a store fails; what is adopted is the answer of that hub |
| Client.SyncEngine.Push | crates/client-core/src/engine.rs:202-223 | nothing queued contacts no hub; a hub is sent the queue entry by entry; entries leave only through a full answer by one hub; done whenever the stores work and some hub answers |
| Client.SyncEngine.Drop | crates/client-core/src/engine.rs:176-181 | file and metadata of one path removed, or a failure part-way |
| Client.SyncEngine.Keep | crates/client-core/src/engine.rs:190-198 | file and metadata of one path made the hub's in content, revision, mtime and type, or a failure part-way |
| Client.SyncEngine.ApplyRemote | crates/client-core/src/engine.rs:163-200 | a queued path is left alone and reported, any other becomes the hub's file, or is deleted, or fails part-way |
| Client.SyncEngine.ApplyBatch | crates/client-core/src/engine.rs:152-174 | the whole listing applied, with exactly the queued paths of it reported as local conflicts, or only paths of the listing touched |
| Client.SyncEngine.PullFrom | crates/client-core/src/engine.rs:136-161 | a failed pull moves no checkpoint; a finished one has applied its whole batch and skipped nothing if it reports no conflict; against an unchanged hub each is exactly a partial or a full pull |
| Client.SyncEngine.Pull | crates/client-core/src/engine.rs:120-134 | across failover at most the answering hub's checkpoint moves, with its whole batch applied; a store failure ends the pull; without a local conflict the mirror of a single hub survives |
| Client.SyncEngine.Sync | crates/client-core/src/engine.rs:112-118 | a failed push ends the sync with files and checkpoints untouched; a finished sync has pulled the answering hub's whole feed; the mirror of a single hub survives every outcome without a local conflict, and a hub that answers in full causes none |
| Client.Perform | crates/client-core/src/engine.rs:112-342 | one operation against any hubs keeps the queue sound and changes it as that operation may |
| Client.QueueRun | crates/client-core/src/engine.rs:202-454 | over every run against any hubs, with failures and short answers: one entry per path, no entry leaves but by a push answered in full, and what would be pushed is what the run recorded last |
| Client.PerformWith | crates/client-core/src/engine.rs:112-342 | one operation with one hub keeps the mirror unless its pull reports a local conflict |
| Client.Run | crates/client-core/src/engine.rs:114-342 | over every run of recording, pushing, pulling and writes elsewhere, until a pull reports a local conflict, each path is queued, still to be pulled, or the hub's in content, revision, mtime and type; after a finished sync nothing but the queue and later changes on the hub is missing to an exact copy |
| Client.FreshClientInSync | crates/client-core/src/engine.rs:136-150 | a client without checkpoint has everything still to pull |
| Reconcile.ScannedIsListed | crates/client-desktop/src/fs_store.rs:73-90 | every path the scan shows is one the metadata listing shows |
| Reconcile.ScannedIff | crates/client-desktop/src/reconcile.rs:69-111 | the scan shows exactly the paths in which no name between slashes ends in `.tmp` |
| Reconcile.TemplatesAreScanned | crates/client-desktop/src/reconcile.rs:80-88 | "a.tmpl" is scanned and listed, "a.tmp" is neither |
| Reconcile.RecordFound | crates/client-desktop/src/reconcile.rs:28-41 | a touched file is recorded with the content and time found on disk |
| Reconcile.RecordMissing | crates/client-desktop/src/reconcile.rs:44-49 | a missing file is recorded as deleted |
| Reconcile.LeftIsNoticed | crates/client-desktop/src/reconcile.rs:18-49 | what a failed pass did not record, the next pass still notices |
| Reconcile.RecordChanges | crates/client-desktop/src/reconcile.rs:18-49 | a pass records every new, touched or missing path once and no other, up to a failed read; a client in step but for such edits is in step once all are recorded |
| Reconcile.RecordUpserts | crates/client-desktop/src/reconcile.rs:21-42 | all new and touched files recorded, what is left is missing from the scan |
| Reconcile.RecordDeletes | crates/client-desktop/src/reconcile.rs:44-49 | all paths missing from the scan recorded as deleted |
| Reconcile.QuietIffTidy | crates/client-desktop/src/reconcile.rs:5-7 | with times in step, a pass notices nothing if every scanned path has a positive recorded mtime and every listed path is scanned, and only if so when the times on disk are positive |
| Reconcile.PassThenSync | crates/client-desktop/src/reconcile.rs:18-59 | after a pass and a finished sync, the next pass is quiet under that condition, and only under it when the times on disk were positive before |
| Reconcile.PulledBelowTmpIsDeleted | crates/client-desktop/src/reconcile.rs:80-88 | a pulled file below a directory ending in `.tmp` is seen as deleted by the next pass |
| Reconcile.ReconcileAndSync | crates/client-desktop/src/reconcile.rs:17-59 | records as many changes as there are on disk, then syncs; a quiet disk and an empty queue push nothing; disk edits since the last sync do not break the mirror |
| Reconcile.TwoPasses | crates/client-desktop/src/reconcile.rs:5-7 | after a finished pass with tidy metadata, a second pass records and pushes nothing |

## Left out

- HTTP, JSON, base64, multipart and URLs in `couch.rs`, `hub.rs` and `common/http_client.rs`; only what the calls promise is modelled. A body that cannot be decoded counts as a failed request.
- The text of the three-way merge: the library is not part of this model. `Resend.ResendKeepsVisible` assumes that merging two equal sides gives that side or fails.
- Resend.ResendKeepsVisible: assumes that no other revision takes the id of the change's own branch; the ids have 64 bits, so this cannot be proved. `BranchId.OneByteChangesId` covers seeds that differ in one byte.
- NoLoss.TombstonedIsPreserved: for documents whose current leaves only resolvers delete. An accepted delete of a current leaf is meant to remove content, and an accepted write of a pusher is meant to replace it.
- Retries.MaxRetriesNeedsFiveWrites: for the retry loop of `resolve`, called during the run; the loop of `resolve_delete_winner` under races is outside the machine, which stops there.
- Resolver.ResolveDeleteWinner: with nobody else writing; under races it is entered only for documents outside the no-loss theorems.
- Planning.PlanConserves: for listings in which no revision occurs twice, as CouchDB lists them.
- HubService.Hub.Push: states what clients rely on, that acknowledged changes are in the feed. `Feed.BatchIsListed` derives it from the revision trees for a batch that nobody disturbs and for changes whose branch was not in the tree when they were queued; the hub of the client's model, to which others write in between, states it. A hub that answers more results than changes is not modelled.
- Client.Run: for one hub; agreement between hubs depends on replication, which is outside the code.
- CouchDb.Couch.PutRevision: for revisions whose parent is in the tree, as `branch_and_resolve` looks up before it branches; CouchDB itself would accept others.
- Client.SyncEngine.RecordUpsert: store failures between file, metadata and queue are not modelled for recording.
- Client.SyncEngine.Pull: the counts in the reports are modelled as one number and no property is stated of it.
- Reconcile.ReconcileAndSync: the disk does not change during a pass; a file that vanishes between scan and read is skipped, as in the code, but cannot occur.
- Feed.FileOf: a file whose winner has no content reads as empty; `GET /file` fails for it, as any request may.
- The one date all copies of a plan carry: each copy may see a different date, which allows more runs than the code has.
- Paths starting with `_`, which the hub hides from the feed, and the width of the counter in copy names.
- Store keys and encodings: file metadata, queue and checkpoints are separate typed fields, not byte blobs; a setting of the file time that fails is not modelled.
- Compaction and pruning of revision histories; every node stays.
- File-system errors, symbolic links, unsafe and non-UTF-8 paths count as store failures or are absent.
- The watcher, long-polling, notifications, signals, authentication, configuration, OPFS and wasm bindings, and calendar documents.
