# Verified model of the workspace's protocols and derivations

A Dafny model of the parts of this repository where a wrong step would lose data or mislead a reader, with proofs over
every input, run or interleaving.

| Module | What it models |
|---|---|
| `RestoreControl` | the restore control record and the interleavings of its updates |
| `RestoreMachine`, `RestoreInvariant`, `RestoreTheorems`, `RestoreConvergence`, `RestoreForward`, `RestoreFindings`, `RestoreAftermath` | an Operational Restore as a machine of single effects (rename, removal, journal write, settings write), each of which succeeds or fails, with a crash possible between any two |
| `RestoreService` | the service's methods in their own order; every effect is one step of that machine, so what holds of every run holds of them; which effects fail is an input, so a refusal can blame nothing else |
| `EvidenceDigest`, `EvidenceSupersession` | superseding Evidence: the canonical bytes behind its digest, prepare and execute |
| `Calendar`, `Rfc3339` | integer calendar arithmetic and RFC 3339 printing |
| `CompositionCache`, `EntityFilter` | the bounded LRU cache, grouping and filters |
| `Classification` | the join, fail-closed inheritance, ordinary writes and the folds naming a forcing contributor |
| `Attention`, `WorkQueue`, `Exceptions` | deriving and ranking attention, the Work Queue and the Cockpit's exception list |
| `Publication` | publishing a managed projection and attaching its manifest |
| `SampleSwap`, `SampleService`, `SampleDelete` | resetting and deleting the sample workspace |
| `Sorting`, `Prelude` | stable sorting by key, selecting, concatenating; options, results and lookups |

`dafny verify dfyconfig.toml` checks the whole project.

## What the code does and its documentation does not say

- A restore that crashes between renaming the previous Ledger back and putting the settings back ends as
  `FailedBeforeReplacement` with the archive's settings still in place: the next pass finds the Ledger home and never
  reads the settings preimage, while the comment at `crates/pmc-application/src/restore_service.rs:1318` says that no
  setting was applied. `RestoreFindings.SettingsCanStayReplaced` is a run that does this;
  `RestoreConvergence.SettingsAfterPass` says exactly when the settings do come back.
- For an inspectable Ledger, removing the installed copy's write-ahead log is the one failure a put-back ignores. If an
  interrupted pass left one, the next pass reports `RecoveryFailed` though all its own effects succeed and the Ledger is
  home. `RestoreFindings.LeftoverWalFailsRecovery` is such a run, `RestoreConvergence.PassPutsBack` gives the outcome of
  every pass, and `RestoreFindings.CrashesConverge` the runs it cannot happen in.
- A sample reset that was rolled back whole and lost power before recording it is not recognised at the next start: the
  previous sample is taken for the fresh one, and removed unless it verifies as what was built.
  `SampleSwap.RolledBackSampleCanBeRemoved` is such a run. A start can see when the previous sample will be removed
  (`SampleSwap.ReconcileHoldsIff`) and when nothing can go wrong (`SampleSwap.ReconcileTruthfulUnlessAlone`). What it
  cannot see is whether a sample that verifies as built is the one built or an edited one put back
  (`SampleSwap.NoVisibleConditionDecides`); `SampleSwap.ReconcileTruthfulIff` gives the condition in terms of the
  history.
- `rank_attention` leaves two reasons of one record in the order it was given when they share tier and time. The flags it
  is given come sorted by the reasons' declaration order, which `docs/policies/attention-ranking.md:43` refuses as a
  severity. `WorkQueue.RankingIsOrderFreeIff` says exactly when the input's order does not matter.
- `UnexpectedEntryId` and `DuplicateEntryId` of `RequiredClassificationSources::from_authority` are never returned: the
  checks before them already rule both out (`Classification.FromAuthority`).
- Rendering an instant before the first whole day of the 64-bit range (-9223372036828800000 milliseconds) underflows
  (`Rfc3339.SubtractionFits`).

## Model

| member | source | states |
|---|---|---|
| `RestoreControl.ApplyKeepsConsistent` | crates/pmc-application/src/restore_service.rs:529-541 | one update of the control record, whichever it is, keeps idempotency and intent ids pairwise distinct, across finished terminals and the active operation |
| `RestoreControl.TerminalsStayDistinct` | crates/pmc-application/src/restore_service.rs:1021-1068 | over every interleaving of updates the finished list only grows and its ids stay pairwise distinct |
| `RestoreControl.ClaimedAtMostOnce` | crates/pmc-application/src/restore_service.rs:960-1005 | an intent enters execution at most once, and not at all if it is neither fresh nor waiting for approval |
| `RestoreControl.SingleUse` | crates/pmc-application/src/restore_service.rs:960-1068 | from an empty record, over all interleavings, an intent is executed at most once and gets at most one terminal |
| `RestoreControl.PhaseMovesOn` | crates/pmc-application/src/restore_service.rs:1009-1020 | one update changes nothing of an executing restore but its phase, and that only to the next named one or to rolling back once a file may have moved |
| `RestoreControl.PhasesAreMonotone` | crates/pmc-application/src/restore_service.rs:1009-1020 | two sightings of one executing intent in a run show the same approval, the later phase last |
| `RestoreControl.NeverAgain` | crates/pmc-application/src/restore_service.rs:960-1005 | an intent no longer waiting and not executing never executes again |
| `RestoreControl.RepeatedApprovalAnswers` | crates/pmc-application/src/restore_service.rs:970-981 | a repeated idempotency id gets the outcome first recorded, whatever happened since, and changes nothing |
| `RestoreControl.ApprovalIsBound` | crates/pmc-application/src/restore_service.rs:960-1005 | an approval is consumed exactly if its request is new and it names the prepared restore, in time, with the digest of the very preview and its date; a refusal changes nothing |
| `RestoreControl.LatchStep` | crates/pmc-application/src/restore_service.rs:1050-1065 | each update changes the unresolved recovery failure only by recording a failed recovery or a success prepared to resolve one |
| `RestoreControl.LatchHolds` | crates/pmc-application/src/restore_service.rs:1392-1400 | after a failed recovery the Ledger stays closed in every later state until a restore prepared for that succeeds |
| `RestoreControl.LatchClears` | crates/pmc-application/src/restore_service.rs:1456-1467 | such a success clears the failure; from then on the Ledger is closed exactly while a restore executes, until recovery fails again |
| `RestoreInvariant.InitialInv` | crates/pmc-application/src/restore_service.rs:1098-1252 | a workspace no restore has touched satisfies the invariant |
| `RestoreInvariant.CheckKeepsInv` | crates/pmc-application/src/restore_service.rs:1142-1180 | every step up to the journal entry keeps the invariant, done, failed or half done |
| `RestoreInvariant.MoveKeepsInv` | crates/pmc-application/src/restore_service.rs:1181-1196 | every rename of the live set to its rollback names keeps the invariant |
| `RestoreInvariant.InstallKeepsInv` | crates/pmc-application/src/restore_service.rs:1197-1252 | every install, settings, verification and recording step keeps the invariant |
| `RestoreInvariant.BackKeepsInv` | crates/pmc-application/src/restore_service.rs:1289-1384 | every put-back step, of either variant, keeps the invariant |
| `RestoreInvariant.NextKeepsInv` | crates/pmc-application/src/restore_service.rs:1098-1451 | every step of the whole system, a crash or a failure included, keeps the invariant |
| `RestoreInvariant.RunKeepsInv` | crates/pmc-application/src/restore_service.rs:1098-1451 | the invariant holds in every reachable state |
| `RestoreTheorems.StepUpdatesOnce` | crates/pmc-application/src/restore_service.rs:1009-1020 | a step of the system updates the control record at most once, by one of its updates |
| `RestoreTheorems.RunIsInterleaving` | crates/pmc-application/src/restore_service.rs:1098-1451 | every run is, on the control record, one of the interleavings the single-use and latch results range over |
| `RestoreTheorems.RecordingMovesNothing` | crates/pmc-application/src/restore_service.rs:1021-1068 | the step that appends a terminal moves no file and changes no setting, and appends exactly the outcome reached |
| `RestoreTheorems.NothingIsLost` | crates/pmc-application/src/restore_service.rs:1098-1384 | while a claimed restore executes, each bound member's original bytes stand at its rollback name if anything does, else at its live name |
| `RestoreAftermath.NothingIsLostUntilRestored` | crates/pmc-application/src/restore_service.rs:1098-1451 | from the claim until Restored is recorded for the restore, through crashes, recorded failures, later startups, sweeps and other restores, each bound member's original bytes stand at its rollback name if anything does; otherwise at its live name while the restore executes, and they stood there when another outcome was recorded |
| `RestoreAftermath.FailedRecoveryKeepsCopies` | crates/pmc-application/src/restore_service.rs:1383-1426 | what a failed recovery left at rollback names stands there, with its original bytes, in every later state of every run |
| `RestoreAftermath.CopiesOutliveFailure` | crates/pmc-application/src/restore_service.rs:283-294 | no later step of any kind touches the rollback names of a restore whose terminal is not Restored |
| `RestoreTheorems.NothingReplacedIsTrue` | crates/pmc-application/src/restore_service.rs:1149-1187 | FailedBeforeReplacement is recorded only with the Ledger file as it was when execution was claimed and no rollback copy left |
| `RestoreTheorems.PutBackIsTrue` | crates/pmc-application/src/restore_service.rs:1364-1384 | RecoveryPutBack is recorded only with every bound member's original bytes live, still exactly what the preview bound, and the settings of the preimage |
| `RestoreTheorems.RestoredWasRederived` | crates/pmc-application/src/restore_service.rs:1217-1249 | before Restored can be recorded the live Ledger was read during the same restore and was the archive's revision, schema and inventory |
| `RestoreConvergence.PassPutsBack` | crates/pmc-application/src/restore_service.rs:1404-1451 | from any crash after the move was journaled, after any number of interrupted passes, one undisturbed pass ends the restore with the bound set live and nothing at the staged or rollback names; its outcome is decided by the rollback copy and a pending write-ahead log |
| `RestoreConvergence.SettingsAfterPass` | crates/pmc-application/src/restore_service.rs:1317-1326 | after that pass the settings are the preimage's exactly when the rollback copy was still there or they already matched |
| `RestoreConvergence.PassBeforeTheMove` | crates/pmc-application/src/restore_service.rs:1442-1444 | a crash before the move was journaled leaves every live file and setting as it was |
| `RestoreConvergence.LedgerCompletes` | crates/pmc-application/src/restore_service.rs:1331-1362 | with every sidecar home, moving the Ledger back restores an opaque set whole and nothing else, and an inspectable Ledger without sidecars |
| `RestoreConvergence.HomeWithoutAsides` | crates/pmc-application/src/restore_service.rs:1317-1326 | with no rollback copy left an opaque set is home whole; an inspectable Ledger is home, and counts as bound exactly when no write-ahead log is pending beside it |
| `RestoreForward.ExecutionAlone` | crates/pmc-application/src/restore_service.rs:1098-1252 | a claimed restore no effect of which fails ends, for an inspectable Ledger and an opaque set alike: Restored exactly if settings and files are still what the preview bound and the snapshot is the archive's Ledger, with the snapshot (or what SQLite made of it) alone at the live names, the settings merged and nothing staged or aside; put back whole if only the installed file shows otherwise; refused with the live Ledger as it was in every other case |
| `RestoreForward.RestoreGoesThrough` | crates/pmc-application/src/restore_service.rs:832-1252 | from any reachable workspace at rest, a preview of what is there, approved as shown and left alone, is restored and recorded for the request that approved it, with its evidence and time |
| `RestoreForward.PassConcludes` | crates/pmc-application/src/restore_service.rs:1404-1451 | an undisturbed startup pass over an interrupted execution ends in one way, however many steps it takes to rest |
| `RestoreFindings.CrashesConverge` | crates/pmc-application/src/restore_service.rs:1289-1384 | in every run whose interrupted passes removed the write-ahead logs they met, an undisturbed pass never reports a failed recovery |
| `RestoreFindings.SettingsCanStayReplaced` | crates/pmc-application/src/restore_service.rs:1317-1326 | a reachable run ends FailedBeforeReplacement with the archive's settings still in place |
| `RestoreFindings.LeftoverWalFailsRecovery` | crates/pmc-application/src/restore_service.rs:1331-1338 | a reachable run ends RecoveryFailed after a pass all of whose effects succeeded, the Ledger being home |
| `RestoreService.Service.constructor` | crates/pmc-application/src/restore_service.rs:446-452 | a service begins on files and settings no restore has touched |
| `RestoreService.Service.CheckArchive` | crates/pmc-application/src/restore_service.rs:529-541 | drops a prepared preview and never touches an executing one; refuses only an executing one or on a failed write |
| `RestoreService.Service.FinishPrepare` | crates/pmc-application/src/restore_service.rs:832-895 | keeps the settings document given, even one already behind the store, before the intent that binds it exists, and refuses only while another executes or on a failed write |
| `RestoreService.Service.RejectIntent` | crates/pmc-application/src/restore_service.rs:928-945 | discards exactly the prepared intent named, and does so unless the write fails |
| `RestoreService.Service.ApproveIntent` | crates/pmc-application/src/restore_service.rs:960-1005 | consumes a prepared intent only on matching id, expiry, acknowledged digest and typed date; answers a known idempotency id from its terminal |
| `RestoreService.Service.Claim` | crates/pmc-application/src/restore_service.rs:1098-1117 | an approved restore can be claimed, once, and nothing else; the claim is the compare-and-set to Staging, refused only if that write fails |
| `RestoreService.Service.ClearStaleSidecars` | crates/pmc-application/src/restore_service.rs:314-328 | refuses a non-empty write-ahead log untouched; otherwise, unless a removal fails, removes both stale sidecars and nothing else |
| `RestoreService.Service.Ready` | crates/pmc-application/src/restore_service.rs:1142-1161 | goes on only with settings and files still what the preview bound, and, if no effect fails, exactly then, for either kind of set |
| `RestoreService.Service.Stage` | crates/pmc-application/src/restore_service.rs:1162-1177 | goes on only with the checked snapshot staged whole; if no effect fails, exactly when it is what was checked |
| `RestoreService.Service.MoveLedgerAside` | crates/pmc-application/src/restore_service.rs:1179-1187 | one rename, or nothing but the staged copy changes; refused only if the Ledger is missing or the rename fails |
| `RestoreService.Service.MoveSidecarsAside` | crates/pmc-application/src/restore_service.rs:1257-1287 | goes on only if the rollback names hold exactly the bound set and no live name is left |
| `RestoreService.Service.InstallSnapshot` | crates/pmc-application/src/restore_service.rs:1197-1201 | the staged copy takes the Ledger's name after its phase is journaled |
| `RestoreService.Service.InstallSettings` | crates/pmc-application/src/restore_service.rs:1202-1213 | the archived settings are merged after their phase is journaled |
| `RestoreService.Service.VerifyInstalled` | crates/pmc-application/src/restore_service.rs:1214-1223 | goes on only if the installed Ledger is the archive's revision, schema and inventory |
| `RestoreService.Service.FinishRestored` | crates/pmc-application/src/restore_service.rs:1238-1249 | records Restored first, then removes rollback copies and leaves every live file alone |
| `RestoreService.Service.RemoveRollbackSet` | crates/pmc-application/src/restore_service.rs:283-294 | removes nothing but this intent's rollback names, and all that were moved if no removal fails |
| `RestoreService.Service.Execute` | crates/pmc-application/src/restore_service.rs:1098-1252 | answers exactly the outcome it recorded for the approved restore it claimed; each outcome is true: of the files as they were at the claim, or, for Restored, of the settings merged from those at the claim, which were the preimage, and of a Ledger awaiting its upgrade, which still is the archive's; without an answer no terminal was recorded; and if none of its effects fails, the answer is Restored exactly for what the preview bound and a snapshot that is the archive's Ledger, so a refusal comes only from an unmet bound or a fault |
| `RestoreService.Service.BackWithSidecar` | crates/pmc-application/src/restore_service.rs:1331-1359 | a bound sidecar waiting at its rollback name is back before the next step |
| `RestoreService.Service.BackWithSettings` | crates/pmc-application/src/restore_service.rs:1364-1378 | succeeds only with every display and operational setting but the selected workspace as in the preimage |
| `RestoreService.Service.RollBack` | crates/pmc-application/src/restore_service.rs:1289-1384 | the outcome it returns is what the files and settings show |
| `RestoreService.Service.SweepRollbackSets` | crates/pmc-application/src/restore_service.rs:1411-1427 | removes only rollback copies of restores recorded as Restored, and of those only members they moved; all of them if no removal fails |
| `RestoreService.Service.Reconcile` | crates/pmc-application/src/restore_service.rs:1404-1451 | drops a prepared intent, puts an interrupted execution back and never finishes it; what it answers it recorded, and it is true; if no effect fails it ends the operation as the pass results say, or sweeps every copy it may |
| `EvidenceDigest.Hasher.DigestField` | crates/pmc-domain/src/evidence.rs:764-767 | feeds the length in eight big-endian bytes, then the value |
| `EvidenceDigest.Hasher.DigestProvenance` | crates/pmc-domain/src/evidence.rs:769-778 | feeds the kind and a tagged reference |
| `EvidenceDigest.Hasher.DigestLinks` | crates/pmc-domain/src/evidence.rs:780-787 | feeds six fields a link, in link order |
| `EvidenceDigest.IntegerBytes` | crates/pmc-domain/src/evidence.rs:764-787 | integers are fed as eight bytes, the most significant first, a negative one offset by two to the 64 |
| `EvidenceDigest.ComputeDigest` | crates/pmc-domain/src/evidence.rs:789-853 | what the hasher was fed, field by field, is the encoding |
| `EvidenceDigest.FramedInjective` | crates/pmc-domain/src/evidence.rs:764-767 | length-prefixed field lists are uniquely decodable |
| `EvidenceDigest.FieldsInjective` | crates/pmc-domain/src/evidence.rs:789-853 | tagged options and counted links make the field list determine every field |
| `EvidenceDigest.EncodingInjective` | crates/pmc-domain/src/evidence.rs:789-853 | two previews have one encoding exactly when they are equal in every field |
| `EvidenceSupersession.PreviewIsOrderFree` | crates/pmc-domain/src/evidence.rs:535-576 | preview and digest do not depend on the order the links were read in |
| `EvidenceSupersession.PreparedShows` | crates/pmc-domain/src/evidence.rs:535-576 | what the approver reads, field by field: path, fingerprint and level of the source as it is, everything of the replacement and the rationale as asked for, the links in canonical order, the expiry and the least dominating level |
| `EvidenceSupersession.PrepareRefusals` | crates/pmc-domain/src/evidence.rs:504-534 | each refusal is given exactly when its condition is the first to hold |
| `EvidenceSupersession.PreviewLevelIsLeast` | crates/pmc-domain/src/evidence.rs:537-547 | the bound classification is the least one dominating source, replacement, links and targets |
| `EvidenceSupersession.CanonicalLinks` | crates/pmc-domain/src/evidence.rs:721-726 | two link sets sort alike exactly when they are the same links |
| `EvidenceSupersession.PreparedExecutes` | crates/pmc-domain/src/evidence.rs:657-684 | what was prepared executes exactly on a matching approval before expiry with identity, version and links undrifted, in any link order; a version at its limit is refused |
| `EvidenceSupersession.ExecuteRefusals` | crates/pmc-domain/src/evidence.rs:657-684 | each refusal of an approval is given exactly when its condition is the first to hold |
| `EvidenceSupersession.DriftStops` | crates/pmc-domain/src/evidence.rs:680-684 | any change of the link set alone turns a success into PreviewChanged |
| `EvidenceSupersession.EffectsConserve` | crates/pmc-domain/src/evidence.rs:685-719 | every source link carried over once, source version plus one, a new pinned identity with exactly the approved fields, one level dominating all involved |
| `EvidenceSupersession.DigestBindsPreview` | crates/pmc-domain/src/evidence.rs:664-669 | barring a hash collision, an approval that executes acknowledged exactly the preview carried out |
| `Calendar.YearOfEra` | crates/pmc-domain/src/time.rs:42-43 | the four divisions find the year of the era for every day of it |
| `Calendar.CivilOfMarch` | crates/pmc-domain/src/time.rs:38-56 | every day of every month comes out as its date |
| `Calendar.DayAfter` | crates/pmc-domain/src/time.rs:38-56 | the next day count gives the next Gregorian date |
| `Calendar.CivilIsCounted` | crates/pmc-domain/src/time.rs:38-56 | for every day count, before or after the epoch, the arithmetic equals counting day by day |
| `Calendar.DaysRecovered` | crates/pmc-domain/src/time.rs:38-56 | the date is valid and the inverse day count recovers the input |
| `Calendar.DateRecovered` | crates/pmc-domain/src/time.rs:38-56 | every valid date is recovered from its day count |
| `Calendar.DatesIncrease` | crates/pmc-domain/src/time.rs:38-56 | later days have later dates |
| `Rfc3339.SubtractionFits` | crates/pmc-domain/src/time.rs:22-23 | the subtraction stays within 64 bits exactly from the first whole day on |
| `Rfc3339.RenderIsText` | crates/pmc-domain/src/time.rs:21-31 | within four-digit years the rendered text is seven fixed-width fields |
| `Rfc3339.RenderedOrder` | crates/pmc-domain/src/time.rs:21-31 | text order of rendered instants is their order in time, and rendering is injective |
| `Rfc3339.RenderedReadsBack` | crates/pmc-domain/src/time.rs:21-31 | reading a rendered instant by the calendar gives the instant |
| `Rfc3339.RenderedGrammar` | crates/pmc-domain/src/time.rs:21-31 | the output is a date-time of section 5.6 of RFC 3339 exactly when the year has four digits |
| `CompositionCache.Cache.constructor` | crates/pmc-application/src/composition_cache.rs:76-82 | a cache starts empty, at any capacity |
| `CompositionCache.Cache.Get` | crates/pmc-application/src/composition_cache.rs:98-104 | answers exactly what is stored for the key and makes it the most recent |
| `CompositionCache.Cache.Put` | crates/pmc-application/src/composition_cache.rs:107-119 | stores, evicting the least recent entry only for a new key in a full cache; capacity none stores nothing |
| `CompositionCache.Cache.Clear` | crates/pmc-application/src/composition_cache.rs:123-126 | discards everything |
| `CompositionCache.Cache.Touch` | crates/pmc-application/src/composition_cache.rs:128-133 | moves one key to the recent end and keeps the order of the rest |
| `CompositionCache.Cache.Query` | crates/pmc-application/src/composition_cache.rs:98-119 | read-through use answers what would be computed, cached or not |
| `CompositionCache.PutStaysSound` | crates/pmc-application/src/composition_cache.rs:107-119 | map and recency list name the same keys, each once, never more than the capacity |
| `CompositionCache.RecencyIsByLastQuery` | crates/pmc-application/src/composition_cache.rs:128-133 | recency order is the order of last queries since the last clear |
| `CompositionCache.StackProperty` | crates/pmc-application/src/composition_cache.rs:98-133 | after any trace of queries and clears the cache holds exactly the last capacity distinct keys in recency order, each with its computed answer |
| `CompositionCache.LargerContains` | crates/pmc-application/src/composition_cache.rs:98-133 | a larger cache contains a smaller one, as its recent end |
| `CompositionCache.AnswersAreUncached` | crates/pmc-application/src/composition_cache.rs:98-104 | a query hits exactly for those keys, with the uncached answer |
| `CompositionCache.AnyTraceKeepsWithin` | crates/pmc-application/src/composition_cache.rs:98-133 | containment holds even for the same arbitrary gets, puts and clears on both caches |
| `CompositionCache.GroupByTier` | crates/pmc-application/src/composition_cache.rs:201-212 | the groups concatenate to the input and are its maximal runs of one tier |
| `CompositionCache.RankedGroups` | crates/pmc-application/src/composition_cache.rs:201-212 | over ranked items each tier has one group, in tier order |
| `EntityFilter.FilteredInOrder` | crates/pmc-application/src/composition_cache.rs:153-182 | a filter keeps exactly the entities within every bound it sets, each as often as it was there, in the order they came in |
| `EntityFilter.FingerprintInjective` | crates/pmc-application/src/composition_cache.rs:185-193 | two filters share a fingerprint only if they are the same filter |
| `Classification.CombineIsJoin` | crates/pmc-domain/src/classification.rs:35-54 | combining is the least upper bound, commutative and associative |
| `Classification.FromAuthority` | crates/pmc-domain/src/classification_governance.rs:175-212 | accepts exactly a manifest of distinct ids with one entry each; two of its six errors can never be returned |
| `Classification.ResolveInheritance` | crates/pmc-domain/src/classification_governance.rs:240-282 | the loop computes the resolution the lemmas are about |
| `Classification.ResolutionIsJoin` | crates/pmc-domain/src/classification_governance.rs:240-282 | fails closed exactly when a source is untrusted or Unclassified, and otherwise is the least level dominating every source |
| `Classification.ResolutionIsOrderFree` | crates/pmc-domain/src/classification_governance.rs:240-282 | independent of the order of manifest and entries |
| `Classification.Resolve` | crates/pmc-domain/src/classification_governance.rs:64-95 | fails closed exactly when the manifest is unreadable, empty or repeats an id, or a source is not read as a classified level |
| `Classification.WritesNeverLower` | crates/pmc-domain/src/classification_governance.rs:308-341 | over any run of ordinary writes a classified record stays classified and never drops a level |
| `Classification.WritesReachHighest` | crates/pmc-domain/src/classification_governance.rs:308-341 | over any run of ordinary writes a record ends at the highest classified level it had or was proposed |
| `Classification.Fold.Add` | crates/pmc-application/src/product_composition.rs:155-164 | one more contributor keeps the join and the first contributor attaining it |
| `Classification.EffectiveClassification` | crates/pmc-application/src/product_composition.rs:149-193 | the join of everything the inspector shows; nothing forces it exactly when the Product's own level stands, else the first contributor in traversal attaining it |
| `Classification.LensClassification` | crates/pmc-application/src/executive_lens.rs:493-506 | the same for what the Lens's three measures contribute |
| `Classification.ForcedIsLeast` | crates/pmc-application/src/product_composition.rs:149-193 | the effective level is the least one dominating everything shown |
| `Classification.EffectiveIsLeast` | crates/pmc-application/src/product_composition.rs:149-193 | it dominates exactly the Product, every structural child, every Evidence record now and as linked, every person and everything a person carries |
| `Attention.DeriveAttention` | crates/pmc-domain/src/attention.rs:537-889 | the five loops and the sort compute the flags and re-entry summaries the lemmas are about |
| `Attention.RequestFlaggedIff` | crates/pmc-domain/src/attention.rs:544-597 | an action request is flagged for a reason exactly when undecided and the reason holds of it |
| `Attention.ActionFlaggedIff` | crates/pmc-domain/src/attention.rs:598-660 | an action is flagged for a reason exactly when unfinished and the reason holds of it |
| `Attention.DecisionFlaggedIff` | crates/pmc-domain/src/attention.rs:661-713 | a decision request is flagged for a reason exactly when undecided and the reason holds of it |
| `Attention.RiskFlaggedIff` | crates/pmc-domain/src/attention.rs:714-759 | a risk is flagged for a reason exactly when open and the reason holds of its own fields: a review at or before the time asked for, exposure, evidence, control, owner |
| `Attention.IssueFlaggedIff` | crates/pmc-domain/src/attention.rs:760-852 | an issue is flagged for a reason exactly when not closed and the reason holds of it |
| `Attention.FlagsIncrease` | crates/pmc-domain/src/attention.rs:853-853 | with distinct ids each (target, reason) is raised at most once; flags stand by kind, then id, then reason |
| `Attention.FlagSourced` | crates/pmc-domain/src/attention.rs:537-852 | each flag carries its own record's metadata; guidance comes only from an issue whose verification failed, and always with its need for evidence |
| `Attention.DerivationIsOrderFree` | crates/pmc-domain/src/attention.rs:537-889 | flags and summaries do not depend on the order of any of the five lists |
| `Attention.ReentryIff` | crates/pmc-domain/src/attention.rs:854-883 | a summary is emitted exactly for an exited open risk with at least two of the four conditions |
| `Attention.ReentryLists` | crates/pmc-domain/src/attention.rs:854-883 | a summary lists exactly the review conditions that hold of its risk, each once, in the order of the reasons |
| `Attention.ReentriesIncrease` | crates/pmc-domain/src/attention.rs:883-883 | summaries stand by id, each risk once |
| `WorkQueue.RankOrder` | crates/pmc-application/src/attention_ranking.rs:174-203 | ranking rearranges its input by tier, then time with absent last, then id |
| `WorkQueue.TierReasons` | crates/pmc-application/src/attention_ranking.rs:88-125 | each tier by exactly the reasons it holds |
| `WorkQueue.RankingIsOrderFreeIff` | crates/pmc-application/src/attention_ranking.rs:174-203 | the ranking ignores the order of its input exactly when no two different items share tier, time and id |
| `WorkQueue.RankingCanDependOnOrder` | crates/pmc-application/src/attention_ranking.rs:174-203 | two reasons of one record can tie and then rank in the order given |
| `WorkQueue.RankingKeepsTies` | crates/pmc-application/src/attention_ranking.rs:174-203 | tied items keep the order they were given in |
| `WorkQueue.NameRankIsAlphabetical` | crates/pmc-application/src/work_queue_composition.rs:383-387 | kinds tie-break by their names' alphabetical order |
| `WorkQueue.QueueOrder` | crates/pmc-application/src/work_queue_composition.rs:369-388 | an item stands before another only by placement, then placing time with absent last, then kind name, then id |
| `WorkQueue.QueueIsOrderFree` | crates/pmc-application/src/work_queue_composition.rs:339-415 | for distinct (kind, id) the page, counts and total do not depend on the order records were read in |
| `WorkQueue.QueueHolds` | crates/pmc-application/src/work_queue_composition.rs:257-336 | an item stands in the queue as often as there are records with its identity, time, facts and flags that admit an intent and that the filter's kinds and flagged-only setting let through |
| `WorkQueue.DefaultShowsAll` | crates/pmc-application/src/work_queue_composition.rs:242-265 | under the default filter every record that admits an intent is shown |
| `WorkQueue.ComposedIs` | crates/pmc-application/src/work_queue_composition.rs:339-415 | the page is the queue from the offset on, at most the limit; the total and the five counts are numbers of records, the counts taken without the kind selection |
| `WorkQueue.FilteredIsSubsequence` | crates/pmc-application/src/work_queue_composition.rs:257-265 | a filtered queue is what the filter leaves of the whole queue, in its order |
| `WorkQueue.PagesConcatenate` | crates/pmc-application/src/work_queue_composition.rs:390-395 | consecutive pages are the queue, each item once |
| `WorkQueue.CountsAreTotals` | crates/pmc-application/src/work_queue_composition.rs:350-362 | each kind's count is the total of the query narrowed to that kind |
| `WorkQueue.PlacedByWorstFlag` | crates/pmc-application/src/work_queue_composition.rs:306-314 | a flagged item is placed by its most severe flag and stands before every unflagged one |
| `Exceptions.WorkItemFacts` | crates/pmc-application/src/work_queue_adapter.rs:318-442 | the five loops build the facts the lemmas are about |
| `Exceptions.FactsTold` | crates/pmc-application/src/work_queue_adapter.rs:318-442 | each record is told of once, under its own identity with its own time and facts, and admits an intent exactly while its state does |
| `Exceptions.FactsCarryOwn` | crates/pmc-application/src/work_queue_adapter.rs:325-331 | a record carries exactly the flags raised against it, each with that record's time |
| `Exceptions.RequestFlagged` | crates/pmc-application/src/work_queue_adapter.rs:138-240 | a stored request raises exactly the flags its own state, owner and response date decide, and none if its id is not well-formed |
| `Exceptions.ActionFlagged` | crates/pmc-application/src/work_queue_adapter.rs:138-240 | a stored action raises exactly the flags its own state and due date decide |
| `Exceptions.DecisionFlagged` | crates/pmc-application/src/work_queue_adapter.rs:138-240 | a stored decision request raises a flag exactly while undecided without an owner |
| `Exceptions.RiskFlagged` | crates/pmc-application/src/work_queue_adapter.rs:138-240 | a stored risk raises a flag exactly when open with its review at or before now |
| `Exceptions.IssueFlagged` | crates/pmc-application/src/work_queue_adapter.rs:138-240 | a stored issue raises a flag exactly for a recurrence, even when closed |
| `Exceptions.PortfolioAttention` | crates/pmc-application/src/work_queue_adapter.rs:275-303 | the exception list is the flagged Work Queue, flattened in its order |
| `Exceptions.ExceptionsConserve` | crates/pmc-application/src/work_queue_adapter.rs:247-303 | each derived flag whose record admits an intent appears exactly once, with that record's own time, and nothing else appears |
| `Exceptions.TimeIsOwn` | crates/pmc-application/src/work_queue_adapter.rs:445-470 | a flag's time is that of the very record it was raised against; decision requests and issues have none |
| `Exceptions.OnlyClosedIssuesDrop` | crates/pmc-application/src/work_queue_adapter.rs:138-240 | the flags dropped are exactly those raised against closed issues |
| `Exceptions.ExceptionsContiguous` | crates/pmc-application/src/work_queue_adapter.rs:275-303 | a record's flags stand together |
| `Publication.Publisher.OpenStage` | crates/pmc-platform/src/managed_publication.rs:166-191 | the temporary name is opened empty, after removing a regular leftover, and no other name changes; fails only if an effect does |
| `Publication.Publisher.WriteStage` | crates/pmc-platform/src/managed_publication.rs:122-129 | written piece by piece: success means the whole content is at the temporary name, and no managed file has changed meanwhile |
| `Publication.Publisher.PublishFile` | crates/pmc-platform/src/managed_publication.rs:102-139 | after every single effect the destination holds all of the old bytes or all of the new ones and no other file has changed; success leaves no temporary file |
| `Publication.Publisher.PublishEntry` | crates/pmc-application/src/projection_publication.rs:225-268 | lands exactly what was approved for the path, or changes nothing; refuses only what was not approved, or on a failed effect |
| `Publication.Publisher.PublishChangeSet` | crates/pmc-application/src/projection_publication.rs:188-304 | Committed items, at most one Failed, then Untouched; only committed paths differ and hold the approved hash; Succeeded exactly when the set verifies and all are committed; it stops only on a failed effect, an entry not approved or before the first change where it is asked to; lost power after any single effect leaves the publication of some first changes, each whole |
| `Publication.Publisher.AttachVerifiedManifest` | crates/pmc-application/src/projection_publication.rs:324-351 | a manifest is attached exactly when all was committed and every artifact on disk matches its hash |
| `Publication.DiffSays` | crates/pmc-knowledge/src/projections.rs:534-581 | created is exactly what is staged and was not published, updated what is staged under another hash, removed what was published and is not staged |
| `Publication.ChangesDistinct` | crates/pmc-application/src/projection_publication.rs:77-101 | the approved change set names each path once |
| `Publication.SucceededMatches` | crates/pmc-knowledge/src/projections.rs:534-581 | publishing the whole difference over what was last published leaves the staged set, removes what left it and touches no other path |
| `Publication.Publisher.Synchronize` | crates/pmc-application/src/projection_publication.rs:188-351 | difference, approval, publication and verification in a row attach a manifest exactly on success, and the disk then holds it; a set that verifies succeeds unless an effect fails or somebody asks to stop |
| `SampleSwap.NextKeepsInv` | crates/pmc-application/src/sample_lifecycle.rs:248-394 | every step, failure and crash of a reset keeps the folders where the recorded phase says, until a reconciliation begins in the trap |
| `SampleSwap.OutcomesAreTrue` | crates/pmc-application/src/sample_lifecycle.rs:248-392 | however interrupted, Reset is recorded only with the verified fresh sample in place, ResetRolledBack only with the sample there was or none; staging is gone or recorded for removal |
| `SampleSwap.OriginalIsKept` | crates/pmc-application/src/sample_lifecycle.rs:376-392 | until then the previous sample is in place or moved aside, whole |
| `SampleSwap.ResetAloneEnds` | crates/pmc-application/src/sample_lifecycle.rs:248-365 | a reset left alone installs exactly what was written if that verifies and the sample there was is none or not foreign, outdated or not; otherwise the sample there was stays; nothing is left beside it |
| `SampleSwap.ReconcileTruthfulIff` | crates/pmc-application/src/sample_lifecycle.rs:629-660 | one undisturbed reconciliation records the truth exactly when it did not begin in the trap, or the sample in place is the one built; both are facts of the history |
| `SampleSwap.ReconcileTruthfulUnlessAlone` | crates/pmc-application/src/sample_lifecycle.rs:633-660 | it records the truth whenever a start sees a staging or retired folder, or no recorded swap |
| `SampleSwap.ReconcileHoldsIff` | crates/pmc-application/src/sample_lifecycle.rs:633-660 | with Reset read as a sample that verifies as built, it records the truth exactly unless a start sees a recorded swap, no folder beside the sample, and a sample that does not verify as built |
| `SampleSwap.NoVisibleConditionDecides` | crates/pmc-application/src/sample_lifecycle.rs:633-641 | two reachable states a start cannot tell apart, of which reconciling one records the truth and reconciling the other records Reset with the old sample in place |
| `SampleSwap.CrashThenReconcile` | crates/pmc-application/src/sample_lifecycle.rs:611-660 | after a crash anywhere on the forward path one undisturbed reconciliation records the truth |
| `SampleSwap.RolledBackSampleCanBeRemoved` | crates/pmc-application/src/sample_lifecycle.rs:376-392 | a rollback finished but not recorded lets the next reconciliation remove the previous sample |
| `SampleService.Service.constructor` | crates/pmc-application/src/sample_lifecycle.rs:180-190 | a service begins with the sample there is and no operation |
| `SampleService.Service.BuildStaging` | crates/pmc-application/src/sample_lifecycle.rs:396-405 | a manifest comes back only for a folder that verifies as it; for a seed that verifies it does unless the write fails |
| `SampleService.Service.MoveAside` | crates/pmc-application/src/sample_lifecycle.rs:305-332 | what PMC did not write is never moved, and anything else is refused only if it cannot be renamed |
| `SampleService.Service.InstallAndVerify` | crates/pmc-application/src/sample_lifecycle.rs:334-342 | success means renamed into place and verified there |
| `SampleService.Service.RollBackInstall` | crates/pmc-application/src/sample_lifecycle.rs:376-392 | success means the previous sample is in place and staging is gone or recorded; fails only if an effect does |
| `SampleService.Service.CleanupRetired` | crates/pmc-application/src/sample_lifecycle.rs:739-747 | a retired folder with foreign contents is kept; otherwise it goes, or is recorded if its removal fails |
| `SampleService.Service.Replace` | crates/pmc-application/src/sample_lifecycle.rs:248-365 | a repeated request is answered from its terminal and an operation in progress refuses, neither changing anything; otherwise what it answers it recorded, and it is true; if no effect fails it installs a seed that verifies over any sample not foreign, and leaves nothing beside it |
| `SampleService.Service.Sweep` | crates/pmc-application/src/sample_lifecycle.rs:704-716 | removes only folders recorded for removal; one struck off the record is gone, and all are if no effect fails |
| `SampleService.Service.Reconcile` | crates/pmc-application/src/sample_lifecycle.rs:611-690 | with no operation it only sweeps; otherwise what it answers it recorded, and it is true unless this or an earlier reconciliation began in the trap; if no effect fails it ends the operation, with Reset exactly if the fresh sample is in place and verifies |
| `SampleDelete.DeletionIsTrue` | crates/pmc-application/src/sample_lifecycle.rs:576-604 | with crashes and failures anywhere and whatever earlier deletions left behind, Deleted is recorded exactly when the sample is gone from its place and whole at its own tombstone, NotDeleted exactly when it is there as approved |
| `SampleDelete.ApprovalIsBound` | crates/pmc-application/src/sample_lifecycle.rs:502-574 | a preview is consumed exactly while unexpired, acknowledged and still what exists; a known request id is answered only for its own preview and payload |
| `SampleDelete.RefusalsAre` | crates/pmc-application/src/sample_lifecycle.rs:502-574 | each refusal exactly when its condition holds; only an expired or changed preview is dropped |
| `SampleDelete.DeletionAlone` | crates/pmc-application/src/sample_lifecycle.rs:576-604 | a consumed deletion left alone removes the sample and its own tombstone, moves nothing else and records Deleted for its request |
| `SampleDelete.StartAlone` | crates/pmc-application/src/sample_lifecycle.rs:662-690 | a start left alone records an interrupted deletion, as Deleted exactly if the sample had left its place |

## Left out

Restore:

- Archives, encryption, inspection of a SQLite file, hashing and the preview's digest are uninterpreted functions; the checks of an archive's members are one step that may fail.
- What SQLite leaves at the live names once it has opened and marked a restored Ledger is an input, and anything at all if it fails. Which effects fail is an input too; a failed effect may be blamed for more than one step of the executor.
- An update of the control record is one atomic durable step, and whether a file is there is read truly. The record's version 1 format is not modelled.
- Other processes writing the Ledger's files, settings patched while a restore executes, and two host calls racing to write the settings preimage.
- RestoreService.Service.FinishPrepare: the document is one the store holds or held, with the revision the intent binds; the preimage and the intent are one step, because a failure between them leaves no intent to execute; and the intent id is assumed fresh, as the host draws it.
- RestoreService.Service.CheckArchive: clearing the work area is taken to succeed, because a failure refuses the check and leaves only files no intent refers to.
- RestoreTheorems.PutBackIsTrue: the settings are compared with the preimage on the display and operational settings other than the selected workspace, which a restore never changes. The presentation settings are not modelled: the repository neither compares them nor puts them back when the others agree.
- Making the recovery backup or preservation copy: an intent carries the evidence, and nothing is said of how it was made.

Evidence, calendar, cache:

- SHA-256 is an uninterpreted function; what is proved is that its input determines the preview. The approving actor's role, audit records and the repository's transaction are left out.
- EvidenceSupersession.PreparedExecutes: assumes the source's links have distinct targets, as the Ledger's key enforces; with repeated targets the order of reading matters.
- Rfc3339.RenderedOrder: holds for years 0000 to 9999, as RFC 3339 has no others.
- CompositionCache.Cache.Query: the get, compute and put in a row is this model's own way of using the cache.

Classification, attention, queue:

- Eligibility for external AI, rationale and label texts, `current_conditions`, `flagged_carried_work` and the Lens's own measures (timing, observability, coverage): single matches or counts that would only add easy members.
- Classification.LensClassification: takes the contributions of the three measures as given.
- Attention.IssueFlaggedIff: the failed-verification flag and the evidence flag of one issue exclude each other, so they are one check here, with its guidance.
- Exceptions.ExceptionsConserve: assumes ids distinct within each kind, as the Ledger's keys enforce; whether a stored id parses is a parameter.
- Integer widths: times are unbounded here, as the derivation widens them before subtracting.

Publication, sample:

- Path confinement, and creating a destination's folder. A link or other irregular file at a temporary name is refused there, and not modelled at a destination; no managed file has a temporary file's name, as the one ends in `.md` and the other in `.tmp`.
- Publication.Publisher.PublishChangeSet: that committed paths hold what was approved is stated for change sets that name no path twice.
- Publication.Publisher.Synchronize: the sequence of calls is this model's own; the repository makes them from several callers, with the approval in between.
- SampleSwap.OutcomesAreTrue: a failing control write inside a cleanup, which would leave a folder unrecorded, is not modelled; and the operation id is assumed fresh, so nothing stands at its folder names beforehand and no terminal answers it yet.
- What a sample folder contains: its inspection is an uninterpreted function. Audit records and the digests of a delete's binding are left out.
- The backup service, the vault root change, the entry facades, the desktop shell and the user interface.
