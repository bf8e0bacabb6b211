# A verified model of knock

knock is a front door for container images and agent skills: it mirrors what a policy selects
from upstream registries and git repositories into destination registries, stamps and signs
what it places, marks or deletes what the policy no longer asks for, and feeds a scan queue.
This project models its decision logic and its protocols in Dafny and proves what they promise.

    dafny verify dfyconfig.toml

## What is modelled

**The registry mirror engine** (`Registry`, `Reconcile`, `Apply`, then `Planning`, `Runs`,
`Placements`, `Convergence`, `Hypotheses`, `Recovery`, `Stages`, `Preview`, `Reported`, `Report`,
`Purge`, `PurgeReport`). A destination repository is a map from tags to manifests and a set of
referrers attached to manifests; a manifest is content-addressed, so it stands for its own digest.
One application of a plan takes a snapshot, plans, and runs its work in stages; `Apply.ApplyPlan`
does so call by call on a mutable repository and is proved equal to `Apply.Run` and
`Apply.Report`, about which everything else is proved. `Planning` says what is decided and
`Placements` what a run leaves, bytes, annotations and referrers, in terms of the policy and the
upstream images alone. `outage` says which calls fail; a call that never happened because the
process died is one that fails, and `RunItem` keeps what the calls before it did.

The promise that re-running is a no-op (README.md:59-60) is `Convergence.ThirdRunIsNoOp`: from
any repository, two failure-free runs with one policy, source and clock reach a state a third
leaves alone. One run is not enough, because the marks a run adds and clears are decided from
the snapshot taken before it placed anything. The hypotheses are explicit predicates:

- one import per repository: the theorem is about one `Job`; `Hypotheses.TwoImportsFight` shows
  two imports into one repository delete each other's tags, which the ownership check permits;
- `Runs.DistinctNames`: output names and alias names are pairwise distinct
  (`Hypotheses.OverwrittenOutputIsUpdated` otherwise);
- `Convergence.Lasting`: every output is kept already, or is once placed, because the version
  stamped on it is the one read back: under a label prefix if it is transformed, and without a
  version of knock's own copied from upstream if it is not (`Hypotheses.EmptyPrefixRebuildsForever`
  and `Hypotheses.KnockUpstreamUpdatesForever` otherwise). `Convergence.PlacedIsKept` says that
  this is exact;
- `Convergence.Unshared`: no two selected tags designate one manifest, and in mark mode no dropped
  tag names the manifest of a selected one. Purge mode, the default, asks for the first half only.
  It follows from what a look at the repository shows (`Hypotheses.UnsharedFromSnapshot`).

Beyond names the condition is exact. An output that does not read back is placed by every run
(`Convergence.PlacedForever`). Marks hang on manifests, so tags on one manifest are marked alike;
`Convergence.Alike` says that they are to be. If outputs last and tags are alike after the first
run, every run after the second plans nothing; if not, no run after the first ever does
(`Convergence.ConvergesIff`). With outputs apart all of it can be read off before the first run
(`Convergence.MarkModeConvergesIff`): in mark mode no dropped tag may name a selected tag's
manifest. A dropped alias of a selected tag is the ordinary failure
(`Hypotheses.DroppedAliasNeverConverges`); two selected tags on one image, one protected and one in
excess, fail in either mode (`Hypotheses.TwinsNeverConverge`). `Hypotheses.OrdinaryJobQualifies`
shows that the hypotheses hold together; the source is fixed in a run.

Signed means, as in the code, that some signature bundle is attached, whichever statement it is
of. `Recovery.TransformAttestedIff` is the consequence: a kept image gets a transform attestation
it lacks exactly when it carries no bundle at all, so a placement cut off between an SBOM
attestation and the transform attestation, and only there, is never completed, unless the output
does not read back and is placed again (`Recovery.CrashLosesTransformIff`).

The reaper deletes the mark before the tag, so that a crash between the two is repaired by the
next reconcile (the comment in knock/use_cases/purge.py:133-138). That holds of dropped tags. A tag
marked because it is in retention excess is still selected: once deleted, the next reconcile
imports it again. `Purge.CutOffPassHeals` is the exact statement, in both deletion modes: a pass
cut off, then one reconcile and one pass, ends where an uninterrupted pass would if and only if no
tag in excess had been deleted; `Purge.HealsFromAnyCrashIff` is the condition that can be checked
before the pass.

**The scan queue** (`Redis`, `ScanQueue`, `QueueEffects`, `Redelivery`, `NoLoss`, `IdleTrim`,
`HandOuts`). Each
Redis command is one atomic step on a broker value; the adapter's methods are proved equal to
compositions of commands. `NoLoss` runs any number of clients concurrently, one command at a time,
with a crash possible between any two. That no enqueued reference is lost is false of the code as
it stands: `NoLoss.InterruptedTrimLoses` is a run of two enqueuers and one worker after which a
reference is nowhere. Trimming reads and then cuts, in separate commands; a floor read off the
pending entries stays safe (`NoLoss.CuttingIsSafe`), one read when nothing was pending need not.

What makes such a cut take a needed entry are two kinds of command of other clients: a reservation
between its first two reads, and an entry added below its floor after the last
(`IdleTrim.TakenIsCulprit`). Without them nothing is lost (`IdleTrim.CalmLosesNothing`); from any
of them, where a reference still rests on the entry, some continuation loses it
(`IdleTrim.DisturbanceLoses`). `HandOuts` counts deliveries over the same runs.

A dead-letter selector is compared by what follows its last colon, so a digest named with another
algorithm matches too (`ScanQueue.RefMatchesIff`).

**The git path** (`GitPlacement`, `GitTrees`): what a ref resolves to at the plan and what a later
fetch of it brings are unrelated values. A ref named `sha-...`, which the policy schema accepts,
makes the alias overwrite a revision tag (`RevisionNamedRefLies`); honesty of every `sha-` tag is
proved for all other refs, and that its tree is one a fetch brought with that revision.

**Archives** (`Texts`, `Paths`, `Packaging`, `ZipWriter`), **selection and aliases** (`Semver`,
`Aliases`), **retention and scan garbage collection** (`Retention`, `ScanGc`, `Sorting`), and
**sharding** (`Sharding`, and `Pods` for the mirror engine under it).

## Model

| member | source | states |
|---|---|---|
| Registry.Repository.Perform | knock/use_cases/reconcile_registry.py:457-551 | one call on the destination: it succeeds exactly when its subject exists and the call does not fail, and then changes the repository as the call does |
| Registry.Repository.PerformItem | knock/use_cases/reconcile_registry.py:465-551 | the calls of one `try` block, in order, up to the first that fails |
| Registry.Repository.PerformStage | knock/use_cases/reconcile_registry.py:226-235 | a stage: a failed item does not stop the others; outcomes are in input order |
| Registry.RunItemIsPrefix | knock/use_cases/reconcile_registry.py:457-551 | whatever fails, an item leaves the effect of a prefix of its calls, the whole exactly when it succeeds |
| Reconcile.DecisionOverTime | knock/domain/reconcile.py:39-56 | an import or update once due stays due; a tag is kept for ever exactly when version and digest agree; a moved digest is updated from the end of its grace on |
| Reconcile.UndatedIsNeverUpdated | knock/use_cases/reconcile_registry.py:83-87 | an upstream image without a creation time is pushed "now" for ever, so a moved digest never updates its tag |
| Reconcile.ReconcileVariant | knock/domain/reconcile.py:68-118 | the loop over the selected tags fills the four lists with exactly the tags of each decision, in order, and suffixes the aliases |
| Reconcile.DesiredNames | knock/domain/reconcile.py:161-165 | the desired names over all variants: output tags and alias names |
| Reconcile.CollectExcess | knock/domain/reconcile.py:170-189 | the retention excess over all variants, alias targets protected |
| Reconcile.ReconcileImport | knock/domain/reconcile.py:131-201 | the whole plan of one import |
| Planning.FallbackTagIff | knock/domain/scan/refs.py:11-23 | a tag is a stored referrer exactly when it is `sha256-` and sixty-four lower-case hexadecimal digits |
| Planning.DecisionIs | knock/domain/reconcile.py:39-56 | read off the destination: a selected tag is imported exactly when knock has not stamped it, updated exactly when its transform version differs from what is resolved or upstream moved on at least a week ago, kept otherwise |
| Planning.RetentionExcessIff | knock/domain/reconcile.py:170-189 | a tag is in excess exactly when retention is on and in some variant it is an output no alias designates, stamped longer ago than the window, with the configured number of that variant's outputs stamped later |
| Planning.ListsAre | knock/domain/reconcile.py:161-201 | membership in each list of the plan, in terms of stamps, marks, outputs and aliases |
| Apply.TakeSnapshot | knock/use_cases/reconcile_registry.py:308-351 | the mirror state, the marks found, and the two marked sets, read from the destination |
| Apply.CollectWork | knock/use_cases/reconcile_registry.py:718-763 | the work of the first stages, flattened over variants in input order |
| Apply.ClearStale | knock/use_cases/reconcile_registry.py:786-801 | clears, best effort, the marks of the two unmark lists, each on its own axis only |
| Apply.ApplyPlan | knock/use_cases/reconcile_registry.py:277-855 | one application on a mutable repository ends in `Run` and returns `Report`, whatever calls fail and whatever is a dry run |
| Runs.PlaceAdds | knock/use_cases/reconcile_registry.py:457-551 | a placement, run anywhere, adds the stamped manifest under its tag and every SBOM and signature to that manifest, and nothing else |
| Runs.TagDeltaTags | knock/use_cases/reconcile_registry.py:718-755 | the first three stages write exactly the tags to import or update, each with its stamped manifest |
| Runs.PlacedIsCovered | knock/use_cases/reconcile_registry.py:399-433 | a placed manifest gets an SBOM in every format and, when signing, a bundle |
| Runs.KeptIsCovered | knock/use_cases/reconcile_registry.py:756-758 | a kept tag has, or gets from the backfill stages, every SBOM and a bundle |
| Runs.AliasStage | knock/use_cases/reconcile_registry.py:760-765 | after the alias stage every alias designates what its target does, no other tag moved, and no copy failed |
| Runs.SelectionStage | knock/use_cases/reconcile_registry.py:767-774 | the selection stage deletes exactly the dropped tags, or in mark mode marks exactly those without a mark |
| Runs.RetentionStage | knock/use_cases/reconcile_registry.py:775-783 | the retention stage marks exactly the excess without a retention mark, in either mode |
| Runs.RunClosed | knock/use_cases/reconcile_registry.py:277-855 | a failure-free run in closed form, and nothing in it fails |
| Placements.PlacedAsAsked | knock/domain/stamp.py:118-163 | after a failure-free run every placed output is the upstream image's bytes by its digest, or the rebuild of them if there are steps; each key of its stamp has its value, and every other key is the upstream image's on a copy and absent on a rebuild; an alias designates the same |
| Placements.ReferrersAfterRun | knock/use_cases/reconcile_registry.py:277-855 | exactly which referrers a failure-free run leaves: SBOMs of every format on what it places and of the missing ones on what it keeps, their signatures, the statement of the source digest, and marks where they are due, stale ones cleared |
| Convergence.PlacedIsKept | knock/domain/stamp.py:118-163 | a tag just placed is kept by the next plan exactly when the version stamped is the one read back: a prefix if it is transformed, no version of knock's own from upstream if it is not |
| Convergence.PlacedForever | knock/domain/reconcile.py:39-56 | an output that is not kept and does not read back is imported or updated by every run |
| Convergence.StaleIff | knock/use_cases/reconcile_registry.py:786-801 | the marks a run clears are those on a desired tag's manifest, or for retention those on a tag no longer in excess |
| Convergence.OutputsAfterRun | knock/use_cases/reconcile_registry.py:277-855 | after one failure-free run every selected tag is stamped and covered, and kept by the next plan exactly if it was kept before or reads back |
| Convergence.TargetsNotExcess | knock/domain/reconcile.py:173-189 | the target of a desired alias is never in retention excess |
| Convergence.StandsAfterRun | knock/use_cases/reconcile_registry.py:277-855 | one run from anywhere leaves aliases following and in purge mode nothing dropped, and every selected tag covered and kept exactly if those not kept before read back |
| Convergence.StandsAgain | knock/use_cases/reconcile_registry.py:277-855 | that state keeps itself, and no later run moves a tag, whoever shares a manifest |
| Convergence.FirstRun | knock/use_cases/reconcile_registry.py:767-801 | if tags on one manifest are to be marked alike after the first run, that run also leaves dropped tags without retention marks |
| Convergence.UnsharedIsAlike | knock/use_cases/reconcile_registry.py:683-693 | with outputs apart, and in mark mode dropped tags apart from them, tags on one manifest are to be marked alike after a run |
| Convergence.SecondRun | knock/use_cases/reconcile_registry.py:767-801 | the next run moves no tag and makes every mark the one the plan asks for |
| Convergence.ConvergesIff | README.md:59-60 | exactly when re-running becomes a no-op: every run after the second plans nothing if outputs that are not kept read back and tags sharing a manifest after the first are to be marked alike, and no run after the first ever does if not |
| Convergence.MarkModeConvergesIff | knock/use_cases/reconcile_registry.py:683-693 | with outputs apart the condition shows before the first run: what is not kept reads back, and in mark mode no dropped tag names a selected tag's manifest |
| Convergence.ThirdRunIsNoOp | README.md:59-60 | two-run convergence: a third run plans no import, update, signature, SBOM, deletion, mark or unmark and leaves the repository as it is, in both deletion modes, with retention, whatever the builder produces |
| Hypotheses.UnsharedFromSnapshot | knock/domain/stamp.py:118-163 | the sharing hypothesis follows from an observable one: under a prefix, no two mirrored selected tags share a manifest, in mark mode no dropped one shares with them, and nothing was stamped this instant |
| Hypotheses.SharingIsNeverQuiet | knock/use_cases/reconcile_registry.py:338-351 | a dropped tag sharing a desired tag's manifest always leaves something to mark, unmark or delete |
| Hypotheses.DroppedAliasNeverConverges | knock/use_cases/reconcile_registry.py:683-693 | so in mark mode such a repository never becomes quiet, however many runs |
| Hypotheses.SharedExcessNeverConverges | knock/use_cases/reconcile_registry.py:775-801 | nor does one, in either mode, where of two tags on one manifest only one is in retention excess |
| Hypotheses.TwinsNeverConverge | knock/domain/reconcile.py:170-189 | such a repository: one image under two variants, one of them the target of an alias, the other beyond the window |
| Hypotheses.EmptyPrefixRebuildsForever | knock/use_cases/reconcile_registry.py:304 | without a prefix a transformed tag is imported or rebuilt by every run |
| Hypotheses.KnockUpstreamUpdatesForever | knock/domain/reconcile.py:39-56 | an untransformed tag to be copied from an upstream that carries knock's own version is copied again by every run |
| Hypotheses.OverwrittenOutputIsUpdated | knock/use_cases/reconcile_registry.py:624-634 | an output name an alias has overwritten with another tag's image is updated again once its grace is over |
| Hypotheses.OrdinaryJobQualifies | knock/use_cases/reconcile_registry.py:277-855 | the hypotheses of the convergence theorem hold together, of a policy with two variants, a transform, aliases, signing, SBOMs and retention, in both modes |
| Hypotheses.TwoImportsFight | knock/domain/collision.py:41-42 | a second import into the repository deletes what it does not ask for, and the first must import it again |
| Recovery.PlacementCutOff | knock/use_cases/reconcile_registry.py:465-520 | a placement cut off before its stamp is imported again exactly when what was pushed carries no base digest; cut off later it is kept exactly if it reads back, and the formats found absent are exactly those not reached |
| Recovery.RecoversFromAnything | knock/use_cases/reconcile_registry.py:744-758 | after any calls from any state, one failure-free run leaves each selected tag stamped, with every SBOM and a bundle, and kept exactly if it was kept or reads back |
| Recovery.OnlyMissingAttached | knock/use_cases/reconcile_registry.py:318-336 | to a kept manifest a run attaches only missing SBOMs, and a bundle only where none is or with a missing SBOM |
| Recovery.TransformAttestedIff | knock/use_cases/reconcile_registry.py:327 | after any number of runs a kept manifest has its transform attestation exactly if it had it before, or signing is on and it carried no bundle at all |
| Recovery.ApartStays | knock/use_cases/reconcile_registry.py:744-758 | where what is not kept reads back, outputs that designate manifests of their own in the first run do so in all |
| Recovery.CrashLosesTransformIff | knock/use_cases/reconcile_registry.py:504-520 | a placement cut off after some of its calls, where no bundle was before, never gets the transform attestation exactly when the output reads back and the cut falls from the first SBOM attestation to just before the last call |
| Recovery.CutOffStaysApart | knock/use_cases/reconcile_registry.py:465-520 | a placement cut off after its stamp leaves every output designating what it would have |
| Stages.SomeScheduleEnds | knock/use_cases/reconcile_registry.py:226-235 | from any point of a stage some schedule ends it: no item waits for another |
| Stages.StageConfluence | knock/use_cases/reconcile_registry.py:226-235 | every interleaving of independent items ends as the sequential stage, outcomes in input order, failing calls included |
| Stages.PoolRunIsRun | knock/use_cases/reconcile_registry.py:756-784 | however a pool interleaves the six stages, and whatever fails, the run ends and reports as the sequential one |
| Stages.PoolNeverFails | knock/use_cases/reconcile_registry.py:760-765 | without outages nothing fails under any interleaving: no alias is copied from an absent tag |
| Preview.PlanPartition | knock/domain/reconcile.py:87-118 | every selected tag is imported, updated or kept, exactly one of them; only kept ones are signed or covered again |
| Preview.DeletionsApart | knock/domain/reconcile.py:161-192 | deletions meet no output, alias, unmark or retention mark; every list holds mirrored tags only |
| Preview.DroppedMayBeUnmarked | knock/domain/reconcile.py:192 | the one overlap: a dropped tag with a retention mark is in both lists |
| Preview.ForeignTagsUntouched | knock/use_cases/reconcile_registry.py:318-336 | a tag without a stamp that the policy does not name survives every run, whatever fails in it |
| Preview.DryRunChangesNothing | knock/use_cases/reconcile_registry.py:465-551 | a full dry run changes nothing |
| Preview.DryTagsPlaceNothing | knock/use_cases/reconcile_registry.py:465-551 | with only the tag stages dry, whatever fails, no tag is written and only marks are attached |
| Preview.DryDeletionsKeepAll | knock/use_cases/reconcile_registry.py:652-716 | with only the deletion stages dry, whatever fails, no tag and no referrer goes and no mark is attached |
| Preview.VariantReportIs | knock/use_cases/reconcile_registry.py:803-843 | a variant's report is its plan written out: imports, updates, signatures, SBOMs, the unchanged tags, then aliases |
| Preview.SelectedTagReported | knock/use_cases/reconcile_registry.py:815-832 | each selected tag is listed as imported, as updated, as skipped, or with the backfills it needs, exactly one of these |
| Preview.ReportIs | knock/use_cases/reconcile_registry.py:803-855 | the report lists the same operations for dry and applied runs, whatever fails |
| Preview.FaithfulPreview | knock/use_cases/reconcile_registry.py:457-802 | a full dry run reports what an applied run from the same state reports |
| Reported.VariantOutcomes | knock/use_cases/reconcile_registry.py:457-650 | whatever fails, a variant's operations are its items of the four stages, failed exactly when one of the item's calls failed and applied exactly when all were carried out, neither in a dry run, and its skipped tags |
| Reported.TargetOutcomes | knock/use_cases/reconcile_registry.py:652-716 | the same of deletions and marks |
| Report.ExitCodeFor | knock/errors.py:179-200 | the code of each branch of the error tree; what is outside it counts as internal |
| Report.CountsConcat | knock/use_cases/report.py:94-126 | counting is a homomorphism from concatenation to merging |
| Report.EveryOperationCounted | knock/use_cases/report.py:109-126 | each operation is counted once, under its kind or as failed |
| Report.CountsAreSizes | knock/use_cases/report.py:109-126 | each field is the number of operations of its kind that did not fail, and `failed` the number of those that did |
| Report.NodeStatusIff | knock/use_cases/report.py:82-91 | a node is ok when nothing failed, failed when there are operations and all failed, partial when some did |
| Report.RunConserves | knock/use_cases/report.py:94-106 | the totals of every level count each operation below once |
| Report.ReportExitCode | knock/use_cases/report.py:129-140 | the exit code is the worst failure anywhere, and zero exactly when the run status is ok |
| Report.StatusFromTotals | knock/use_cases/reconcile.py:171-183 | the run is ok exactly when no operation is counted as failed and no policy fell as a whole |
| Report.RunStatusIff | knock/use_cases/reconcile.py:171-183 | a run is ok when every policy ran without a failed operation, failed when there is one and each fell or had nothing but failed operations, partial otherwise |
| Purge.ProcessOne | knock/use_cases/purge.py:100-147 | one candidate: inspect, ask the oracle, then delete the mark and after it the tag |
| Purge.PurgeMarks | knock/use_cases/purge.py:53-97 | the walk over tags and their marks, stored referrers skipped |
| PurgeReport.ProcessReported | knock/use_cases/purge.py:100-147 | the outcome of one mark: the verdict the answer calls for, failed exactly when the tag cannot be inspected or one of the two calls fails, and what it leaves of tags and marks |
| PurgeReport.PassReported | knock/use_cases/purge.py:53-147 | over a whole pass, whatever fails: each outcome is that of a mark, each mark of a tag still there at its turn has one, and a removal is reported of exactly the tags that are gone |
| Purge.OnlyCondemnedGo | knock/use_cases/purge.py:111-135 | a tag goes only if it carried a mark and the oracle answered that it is unused; no answer and a sighting protect |
| Purge.DryPassChangesNothing | knock/use_cases/purge.py:130-131 | without apply nothing is deleted |
| Purge.RemovalTakesMark | knock/use_cases/purge.py:132-140 | whatever fails, a tag that goes takes a condemned mark of its own with it |
| Purge.NoOrphanMarks | knock/use_cases/purge.py:132-140 | no pass, whatever its listing and wherever cut off, leaves the only mark of a tag that is gone |
| Purge.OrphanedIff | knock/use_cases/purge.py:84-97 | for tags that share no marked manifest, a pass without failures leaves a mark whose tag is gone if and only if a condemned tag carries two marks, and a cut-off pass never does otherwise |
| Purge.GoneTagFails | knock/use_cases/purge.py:111-114 | once its tag is gone the processing of every further mark fails and changes nothing |
| Purge.ReconcileRemarks | knock/use_cases/reconcile_registry.py:769-784 | the reconcile after a cut-off pass that spared the excess moves no tag and only adds the marks that were lost, on either axis |
| Purge.CutOffPassHeals | knock/use_cases/purge.py:133-138 | cut off anywhere, then one reconcile and one pass with the same answers, purging ends where an uninterrupted pass would if and only if no tag in retention excess had been deleted |
| Purge.HealsFromAnyCrashIff | knock/use_cases/purge.py:133-138 | it does so from every crash if and only if no tag in retention excess is condemned |
| Purge.PurgedExcessComesBack | knock/domain/reconcile.py:39-56 | a deleted tag in retention excess is there again after the next reconcile and pass, and is not there after the uninterrupted pass |
| ScanQueue.TrimKeepsNeeded | knock/adapters/redis_streams.py:116-140 | trimming removes no unread and no pending entry, same-millisecond ones included |
| ScanQueue.TrimReclaimsAll | knock/adapters/redis_streams.py:132-135 | when everything is delivered and acknowledged, all entries are reclaimed |
| QueueEffects.TrimExactly | knock/adapters/redis_streams.py:116-140 | exactly which entries a trim leaves, in each of its cases, and that it changes nothing else |
| ScanQueue.CutIsSafeIff | knock/adapters/redis_streams.py:116-140 | a cut at an id loses nothing needed exactly when everything needed lies at or after it |
| ScanQueue.ScanLeavesFewer | knock/adapters/redis_streams.py:150-166 | each turn of the claim loop leaves strictly fewer pending entries ahead of the cursor, so it ends |
| ScanQueue.EnqueueAppends | knock/adapters/redis_streams.py:73-77 | enqueuing appends one entry per reference, in order, under new ids, records the digests as placed, and touches nothing delivered or dead |
| ScanQueue.ReplayMoves | knock/adapters/redis_streams.py:185-196 | replaying takes exactly the matching entries off the dead stream, appends their references to the work stream in order, and returns their number |
| ScanQueue.DropRemoves | knock/adapters/redis_streams.py:199-209 | dropping takes exactly the matching entries off the dead stream and changes nothing else |
| ScanQueue.RefMatchesIff | knock/adapters/redis_streams.py:212-221 | which selectors match a reference with a digest: `--all`, the digest, its hexadecimal part alone, and that part after any other algorithm's name; the empty selector matches nothing |
| ScanQueue.OnlyAllMatches | knock/adapters/redis_streams.py:212-221 | a reference without a digest is matched by `--all` alone |
| ScanQueue.RedisStreamsAdapter.EnqueueRefs | knock/adapters/redis_streams.py:73-77 | adds each reference to the work stream and its digest to the placed set |
| ScanQueue.RedisStreamsAdapter.Reserve | knock/adapters/redis_streams.py:80-91 | delivers the first unread entry, or nothing |
| ScanQueue.RedisStreamsAdapter.Acknowledge | knock/adapters/redis_streams.py:94-99 | records the confirmation, then acknowledges, then trims |
| ScanQueue.RedisStreamsAdapter.SendToDead | knock/adapters/redis_streams.py:101-114 | adds to the dead stream, then acknowledges, then trims |
| ScanQueue.RedisStreamsAdapter.Trim | knock/adapters/redis_streams.py:116-140 | the three branches of trimming |
| ScanQueue.RedisStreamsAdapter.Reap | knock/adapters/redis_streams.py:143-166 | the claim loop: claims what is idle, batch by batch, retires what was delivered too often, trims |
| ScanQueue.RedisStreamsAdapter.CoverageCheck | knock/adapters/redis_streams.py:169-174 | the gap is exactly the placed digests not confirmed within the window |
| ScanQueue.RedisStreamsAdapter.DlqReplay | knock/adapters/redis_streams.py:185-196 | re-enqueues and then deletes each matching dead entry, and counts them |
| ScanQueue.RedisStreamsAdapter.DlqDrop | knock/adapters/redis_streams.py:199-209 | deletes each matching dead entry, and counts them |
| ScanQueue.RedisStreamsAdapter.HandleReservation | knock/use_cases/scan_worker.py:33-59 | success acknowledges, a permanent failure dead-letters, anything else changes nothing |
| QueueEffects.AcknowledgeDoes | knock/adapters/redis_streams.py:94-99 | acknowledging records the time under the digest, ends that delivery alone, trims and changes nothing else |
| QueueEffects.DeadLetterDoes | knock/adapters/redis_streams.py:101-114 | dead-lettering appends the reference with its note under a new id, ends that delivery alone, trims and changes nothing else |
| QueueEffects.ReserveDoes | knock/adapters/redis_streams.py:80-91 | reserving hands out the oldest unread entry, counts one delivery and changes nothing else |
| QueueEffects.ReaperTrims | knock/adapters/redis_streams.py:165-166 | a reaper pass ends trimmed |
| Redelivery.ReaperOnIdle | knock/adapters/redis_streams.py:143-166 | a pass claims an idle entry once more, and retires it exactly when that is one delivery too many |
| Redelivery.ReaperOnBusy | knock/adapters/redis_streams.py:143-166 | a pass neither claims nor counts an entry that is not idle, and leaves it in the stream |
| Redelivery.RetiredAtLastClaim | knock/domain/scan_queue.py:29-31 | an entry that keeps going idle survives every claim before the max(1, max_deliveries)-th, which sends it to the dead stream |
| HandOuts.DeliveriesAreHandOuts | knock/adapters/redis_streams.py:143-163 | over every run the delivery count of a pending entry is the number of reservations and claims that handed it out |
| HandOuts.RetiredByHandOuts | knock/adapters/redis_streams.py:154-163 | with other clients' commands between, a claimed entry that is still pending is retired exactly when it has been handed out more than max_deliveries times; one acknowledged meanwhile counts once |
| NoLoss.StaysPoised | knock/adapters/redis_streams.py:94-114 | what a client relies on between two commands survives every step of the others |
| NoLoss.StepSteady | knock/adapters/redis_streams.py:73-209 | every command of every client keeps the invariant, an unsafe cut of a trim that found nothing pending excepted |
| NoLoss.CutKeepsIff | knock/adapters/redis_streams.py:132-140 | a cut keeps the last entry of every open reference exactly when none lies below its floor |
| NoLoss.CuttingIsSafe | knock/adapters/redis_streams.py:119-123 | a pending floor read earlier is still at or below everything needed, whatever happened since |
| NoLoss.NothingIsLost | knock/adapters/redis_streams.py:1-6 | no loss: over every interleaving with crashes in which idle cuts are safe, an enqueued reference is confirmed by its acknowledgement, dropped, unread or pending in the stream, or dead |
| NoLoss.NoLossIff | knock/adapters/redis_streams.py:116-140 | at every point of a run the last entry of every open reference is in place if and only if no idle cut took one |
| IdleTrim.TakenIsCulprit | knock/adapters/redis_streams.py:124-140 | whatever needed entry an idle cut takes was reserved by another client between the first two reads of that trim, or added by one below the floor after the last |
| IdleTrim.CalmLosesNothing | knock/adapters/redis_streams.py:124-140 | in a run without such reservations and additions no idle cut takes a needed entry, nothing is lost and what is pending is in the stream |
| IdleTrim.DisturbanceLoses | knock/adapters/redis_streams.py:124-140 | from any such reservation or addition, if the entry is the last of an open reference, some continuation takes it; if it is the only one, the reference is then nowhere |
| NoLoss.InterruptedTrimLoses | knock/adapters/redis_streams.py:124-135 | the condition can fail: a run after which a reference is neither confirmed nor dropped nor anywhere in the queue |
| NoLoss.ReservedAtMostOnce | knock/adapters/redis_streams.py:80-91 | over every run at all no id is handed out twice |
| NoLoss.PendingStays | knock/adapters/redis_streams.py:116-123 | what is pending is in the stream throughout every run whose idle cuts keep every needed entry |
| NoLoss.SplitTrimLosesReserved | knock/adapters/redis_streams.py:124-135 | a reservation between the two reads of an idle trim is cut away while pending |
| NoLoss.SplitTrimLosesUnread | knock/adapters/redis_streams.py:129-135 | an enqueue in the same millisecond before the cut is cut away unread |
| NoLoss.AckAlone | knock/adapters/redis_streams.py:94-99 | a client alone, step by step, does what the acknowledge operation does |
| NoLoss.DeadLetterAlone | knock/adapters/redis_streams.py:108-114 | and what the dead-letter operation does |
| NoLoss.RetireAlone | knock/adapters/redis_streams.py:154-163 | and what the reaper does to a claimed batch |
| NoLoss.ReapAlone | knock/adapters/redis_streams.py:143-166 | and its whole claim loop |
| NoLoss.EnqueueAlone | knock/adapters/redis_streams.py:73-77 | and what enqueuing does |
| NoLoss.ReplayAlone | knock/adapters/redis_streams.py:185-196 | and what replaying does |
| NoLoss.DropAlone | knock/adapters/redis_streams.py:199-209 | and what dropping does |
| QueueEffects.LaunchedAlone | knock/use_cases/scan_worker.py:33-59 | every kind of client, launched and left alone, ends as the operation of its kind: a worker reserves, then acknowledges, dead-letters or leaves the entry pending by how its scan went |
| GitPlacement.GitPlanner.Plan | knock/use_cases/reconcile_git.py:135-181 | resolves once per policy, reads each destination, replaces the batch and returns every alias it would move |
| GitPlacement.GitPlanner.ApplyTarget | knock/use_cases/reconcile_git.py:252-318 | one destination: skip, preview, or place what is missing and point the alias, keeping what was done when a call fails |
| GitPlacement.GitPlanner.Apply | knock/use_cases/reconcile_git.py:202-250 | every policy in turn, isolated from the others; a batch never planned is an error |
| GitPlacement.MovedRefPlacesNothing | knock/use_cases/intake.py:138-166 | a ref that moved since the plan is refused and nothing is placed or moved |
| GitPlacement.CalmBrings | knock/use_cases/intake.py:102-135 | without failures an application succeeds and leaves, under the revision tag, the tree the fetch brought if it was not placed, the same artifact under the ref, and every other tag as it was |
| GitPlacement.SucceedsIff | knock/use_cases/reconcile_git.py:252-318 | an application succeeds exactly when it is converged, or has only the alias to copy and can, or nothing it does fails |
| GitPlacement.FailureChangesLittle | knock/use_cases/intake.py:102-166 | a failure is that of the first check that does not hold, and leaves every tag as it was, but for the placed tree when only the alias could not be copied |
| GitPlacement.TargetListing | knock/use_cases/reconcile_git.py:252-318 | the operations listed for a destination, dry or not |
| GitPlacement.PointIsHonestIff | knock/use_cases/reconcile_git.py:312 | moving the alias keeps every `sha-` tag honest exactly when the ref is not another revision's tag name |
| GitPlacement.AlwaysHonest | knock/use_cases/reconcile_git.py:252-318 | over all runs, with refs moving and calls failing anywhere, every `sha-<r>` carries r, unless a policy's ref is named like one |
| GitPlacement.RevisionNamedRefLies | knock/domain/mirror_policy.py:83 | for any ref named like a revision tag a run exists that makes that tag lie |
| GitTrees.TreesAreFetched | knock/use_cases/intake.py:102-135 | over all runs, with refs moving and calls failing anywhere, the artifact under `sha-<r>` was there from the start or is the tree a fetch for a policy with that destination brought with revision r |
| GitTrees.AlwaysGenuine | knock/use_cases/intake.py:102-135 | where a revision fixes the tree, whatever names a revision carries its tree, over all runs |
| GitTrees.DesignatedTree | knock/use_cases/reconcile_git.py:183-200 | so a ref's alias that designates a revision carries the revision tag's artifact |
| GitPlacement.ConvergesIff | knock/use_cases/reconcile_git.py:183-200 | after a calm run the next plan is converged exactly when the revision tag was absent or honest, or the alias was already right |
| GitPlacement.NextRunSkips | knock/use_cases/reconcile_git.py:253-264 | once placed and designated a run only skips, whatever the world does |
| GitPlacement.RecoversFromFailure | knock/use_cases/reconcile_git.py:276-311 | from the state any failed run leaves, one calm run ends with the revision placed and designated, wherever the ref went meanwhile, with the tree its own fetch brought if there was something to place |
| GitPlacement.PolicyConverges | knock/use_cases/reconcile_git.py:202-250 | a calm application leaves every destination of the policy designating the planned revision, with the tree the fetch brought where it was not placed |
| GitPlacement.PolicyThenSkips | knock/use_cases/reconcile_git.py:202-250 | planning, applying calmly and planning again finds every destination of the policy converged |
| GitPlacement.FaithfulGitPreview | knock/use_cases/reconcile_git.py:266-272 | applying a planned batch dry changes no tag of any repository and lists, policy by policy and destination by destination, the operations a calm application performs |
| Paths.Normalise | knock/domain/packaging.py:139-158 | the component loop of `posixpath.normpath`, leading slashes included |
| Paths.EscapesIff | knock/domain/packaging.py:139-158 | a path with a backslash is refused as that, and any other as escaping exactly when it is absolute or its walk goes above the root at some prefix or ends at it |
| Paths.NormpathIsCanonical | knock/domain/packaging.py:173-186 | normalising is idempotent |
| Paths.NormpathLeadsTheSameWay | knock/domain/packaging.py:173-186 | a normalised path leads from every directory where the path leads |
| Paths.NormpathRoundTrips | knock/domain/packaging.py:173-186 | splitting and joining undo each other on its output |
| Paths.AcceptedStaysAccepted | knock/domain/packaging.py:161-170 | a path that passes still passes once normalised |
| Packaging.PlanArchive | knock/domain/packaging.py:274-388 | the checks in order, and the plan or the first refusal with its details |
| Packaging.PlannedIff | knock/domain/packaging.py:274-388 | a tree is planned exactly when every check passes: no negative size, symlink or unsafe path, normalised names distinct up to case, the total within the bound, and, on path components and by name, a marker file or directory at the root or inside the one directory that holds everything |
| Packaging.PlanIsSound | knock/domain/packaging.py:380-388 | entries are the files once each, strictly ascending, canonical, inside the root, distinct up to case, with sizes summing to the input's and within the bound |
| Packaging.EntriesAreFiles | knock/domain/packaging.py:380-388 | each file has its entry and each entry its file: the normalised path, the size, and mode 0755 exactly for executable files, 0644 otherwise |
| Packaging.RefusalNamesFiles | knock/domain/packaging.py:319-388 | a refusal is the first check that fails, and names exactly the files that fail it, or what was found at the root |
| Packaging.PlanIgnoresOrder | knock/domain/packaging.py:319-388 | verdict and entries are the same for every order of the input; only which negative size is named depends on it |
| ZipWriter.WriteEntries | knock/adapters/zip_writer.py:78-112 | the loop with its six checks returns every member or the first failure |
| ZipWriter.WrittenIff | knock/adapters/zip_writer.py:78-112 | it succeeds exactly on sound entries under distinct names, and writes each in order |
| ZipWriter.FirstFaultReported | knock/adapters/zip_writer.py:78-112 | a failure is that of the first entry that is not sound, and says which of the checks it fails first |
| ZipWriter.PlannerAndWriterAgree | knock/adapters/zip_writer.py:115-134 | the writer accepts every plan over an unchanged tree |
| ZipWriter.Directory.WriteArchive | knock/adapters/zip_writer.py:135-152 | all or nothing: on any failure the directory is as before but for a temporary file that could not be removed |
| Semver.SortTags | knock/domain/semver.py:74-78 | versions sorted, other tags after them in input order |
| Semver.SortSemverSorts | knock/domain/semver.py:74-78 | the result is a permutation ordered by version, ascending or descending |
| Semver.SortedByFields | knock/domain/semver.py:23-48 | in such an order the smaller major comes first whatever else, then minor, then patch; a pre-release comes before its final version, two pre-releases in code-point order; what is no version comes last in either direction |
| Semver.SortSemverIsStable | knock/domain/semver.py:74-78 | tags of one version, and tags of none, keep their order in either direction |
| Sorting.StrLeIff | knock/domain/semver.py:23-48 | code-point order: the first difference decides, and a prefix comes first |
| Semver.NumericPrereleasesAgreeIff | knock/domain/semver.py:23-48 | versions that differ in a last numeric pre-release identifier are ordered as section 11.4.1 of Semantic Versioning 2.0.0 asks exactly when the two have one width or the shorter is no greater than the digits of the longer it is compared with |
| Semver.NumericPrereleasesMisorder | knock/domain/semver.py:23-48 | every numeric identifier but zero and the powers of ten is ordered after a greater one, the next power of ten |
| Semver.SameWidthAgrees | knock/domain/semver.py:23-48 | on numbers of one width the two orders agree |
| Aliases.HighestIsHighest | knock/domain/aliases.py:47-52 | the first tag of the top version: none has a greater major, none of its major a greater minor, none of its minor a greater patch, no final version exists where it is a pre-release, and no later pre-release; without versions, the last in code-point order |
| Aliases.ResolveAliases | knock/domain/aliases.py:55-74 | the two nested loops, with dictionaries in insertion order |
| Aliases.GroupsAreMembers | knock/domain/aliases.py:62-71 | a group holds, in order, the tags that render to its name, and there is one per name |
| Aliases.MembersRender | knock/domain/aliases.py:62-71 | these are the tags for which the template yields the name, all of them for the template `latest` |
| Aliases.ResolvedIff | knock/domain/aliases.py:55-74 | an alias is resolved exactly when some template produces it |
| Aliases.AliasesAreHighest | knock/domain/aliases.py:55-74 | it targets a selected tag, the highest, by the fields of its version, of the tags that render to its name under the last template that produces it |
| Aliases.SelectTags | knock/domain/selection.py:16-36 | the selection is the filtered tags and the named ones that exist, once each, ordered by the fields of their versions |
| Aliases.ExpandIsPlannable | knock/domain/expand.py:39-52 | expansion keeps the variant's name, suffix, steps and selection, and gives what reconciling assumes: aliases are those resolved, designate selected tags, and have distinct names |
| Retention.ResolveArchive | knock/domain/retention.py:26-50 | the policy's values first, then the global ones, then the defaults |
| Retention.SelectRetentionExcess | knock/domain/retention.py:53-71 | the names beyond the newest `keep` and older than the window, protected ones apart, sorted |
| Retention.ExcessByCount | knock/domain/retention.py:53-71 | a tag is among them exactly when it is unprotected, older than the window, and at least `keep` unprotected ones were imported later, or at the same moment under a name later in code-point order |
| Retention.ExcessIff | knock/domain/retention.py:53-71 | they are the one set of old unprotected tags that holds with each tag every one that goes before it and numbers all beyond the first `keep`, or the old ones if fewer |
| Retention.OldSurvivors | knock/domain/retention.py:53-71 | of the old unprotected tags at most `keep` survive, and exactly the smaller of `keep` and their number when all are old |
| Retention.ExcessIsSuffix | knock/domain/retention.py:53-71 | the excess is a suffix of the newest-first ranking |
| Retention.KeepSurvives | knock/domain/retention.py:53-71 | at least the smaller of `keep` and the number of candidates survives |
| Retention.ExcessGrows | knock/domain/retention.py:53-71 | the excess only grows as the clock advances |
| Retention.FewerKeptLessExcess | knock/domain/retention.py:53-71 | removing tags puts no other tag in excess |
| Retention.ExcessIdempotent | knock/domain/retention.py:53-71 | once the excess is removed, selecting again finds none |
| ScanGc.SelectSupersededReferrers | knock/domain/scan/gc.py:45-68 | collects, stream by stream, the excess referrers |
| ScanGc.CollectedIff | knock/domain/scan/gc.py:45-68 | a referrer is collected exactly when its timestamp parses and is older than the window, and at least `keep` of its tool and format are newer |
| ScanGc.CollectsOnlyWhatItUnderstands | knock/domain/scan/gc.py:26-42 | a referrer that cannot be parsed is never collected |
| ScanGc.SecondGcCollectsNothing | knock/domain/scan/gc.py:45-68 | collecting twice collects nothing the second time |
| Sharding.DetectDestRepoCollisions | knock/domain/collision.py:34-52 | passes exactly when each repository is claimed by one policy; a refusal names one that is not |
| Sharding.DetectAliasCollisions | knock/domain/collision.py:22-31 | passes exactly when no alias is written twice into one repository |
| Sharding.OneShardPerRepo | knock/domain/sharding.py:13-21 | each repository is written by at most one shard |
| Sharding.ShardedIsUnsharded | knock/use_cases/reconcile.py:93-103 | when no shard reads what another writes, all shards in any order leave every repository as one unsharded run |
| Sharding.OrderMattersIff | knock/use_cases/reconcile.py:93-103 | the condition is exact: for given sources and destinations, some plans, world and order make a difference if and only if some shard reads what another writes |
| Sharding.Fleet.Reconcile | knock/use_cases/reconcile.py:93-168 | ownership over all policies, the shard's share, the alias check, then apply; a refusal changes nothing |
| Pods.ShardedPassIsRun | knock/use_cases/reconcile.py:93-168 | a pass of all shards, in any order and whatever fails, leaves each destination as one run of its own job |
| Pods.FleetConverges | README.md:59-60 | after two passes of all shards, each in any order, a third changes no repository; a target may read what it writes if its job does not change by it |

## Left out

- Foreign processes (regctl, buildctl, cosign, syft, git, the usage oracle) and the network: each is a call that may fail, or a parameter. What a build produces is a parameter that may differ in every run.
- Digests are identified with the manifests they name; the digest a call reports for what it just placed is the one the snapshot of the next run reads.
- SHA-256, zlib, JSON and YAML, and regular expressions: the hash of a policy name, the include and exclude patterns, the version pattern, the filling of one alias template and `str.lower` are parameters.
- Policy loading and merging, the deletion-mode cascade, roster resolution, transform resolution and sessions: a `Job` carries their results.
- Skipping the referrer probe when neither signing nor SBOMs are configured: the probe then decides nothing.
- Policy-level errors on the registry path (a snapshot that cannot be read): nothing of that target is applied, so the state is that of no run; only their place in reports and exit codes is modelled.
- Report fields that carry no decision (produced digests, transform steps, error messages) and the event journal.
- Purge.PurgeMarks: walks one repository whose listing and mark order are given; the catalog walk over registries is a sequence of these.
- Redis persistence, replication, blocking reads, consumer names and idle clocks: which entries are idle is a choice of the environment at each claim.
- ScanQueue.RedisStreamsAdapter.Reap: one clock reading serves a whole call of the sequential adapter; in NoLoss each command has its own.
- Failure classification by message text (`classify_failure`) and listing the dead stream.
- GitPlacement.GitPlanner.ApplyTarget: of the stamp of a placed skill only the revision is modelled, and a tree stands for the archive made of it.
- GitPlacement.GitPlanner.Apply: policies are grouped as planned; two policies of one name are not merged into one report.
- Sharding.Fleet.Reconcile: a planner that fails and a policy that no planner claims are not modelled here.
- Case folding is any function; that `str.lower` catches the confusions it is meant for is not stated.
- ZipWriter.Directory.WriteArchive: timestamps, compression and file modes on extraction are not part of the model; a full disk is one fault, wherever it strikes.
- Semver.NumericPrereleasesAgreeIff: pre-releases that differ in more than one identifier, or in one that is not numeric, are not compared with the precedence of Semantic Versioning 2.0.0.
- Sharding.ShardedIsUnsharded: pods running at the same time rather than one after another are not modelled.
- Pods.FleetConverges: stated for one target per destination repository, with no source that another target writes; with several imports into one repository it fails (Hypotheses.TwoImportsFight).
- Hypotheses.OverwrittenOutputIsUpdated: one step, because without distinct names what the alias stage leaves under an output name depends on the order of the aliases.
- Intake of skills outside the reconcile path, audit, verify, attach and the command line.
