# RimWorld core logic in Dafny

A Dafny model of a set of RimWorld's game-logic classes, with proofs of what the code
promises. Each modelled C# file has its own module:

- `JobGiverWork.dfy` covers `RimWorld/JobGiver_Work.cs`. It is the think node that picks a pawn's next work job. It handles forced (emergency) work, then tiers of work givers; within a tier it runs each giver's thing scan and cell scan, keeping the best target. A giver that throws is logged and skipped.
- `WorkGiverRemoveRoof.dfy` covers `RimWorld/WorkGiver_RemoveRoof.cs`. It is a prioritized cell scanner over the no-roof area, with a neighbour-based priority.
- `SituationalThoughts.dfy` covers `RimWorld/SituationalThoughtHandler.cs`. It is the cache of situational mood and social thoughts, with its recalculation and expiry ticks.
- `LongEvents.dfy` covers `Verse/LongEventHandler.cs`. It is the queue of long events, the current-event slot, synchronous execution, and the non-reentrant list of actions run when the events finish.
- `Outfits.dfy` covers `RimWorld/OutfitDatabase.cs`. It handles outfit creation with fresh ids, the default outfit, deletion guarded by the pawns using an outfit, and the starting outfits.
- `DrugPolicy.dfy` covers `RimWorld/Pawn_DrugPolicyTracker.cs`. It handles a pawn's drug policy, the scheduled-drug checks and the per-drug take records.
- `Plants.dfy` covers `RimWorld/Plant.cs`. It handles growth, life stage, temperature growth factor, dying damage, the long-tick counters, ingestion amounts and yield.
- `CurveDrawer.dfy` covers `Verse/SimpleCurveDrawer.cs`. It handles coordinate conversion, measure spacing, the view rectangle of several curves, curve marks and the legend layout.
- `GraphicRequests.dfy` covers `Verse/GraphicRequest.cs`. It is the graphic cache key: its constructor, equality and hash.
- `PatchFindMod.dfy` covers `Verse/PatchOperationFindMod.cs`. It is the patch operation that applies `match` or `nomatch` depending on whether a mod is loaded.
- `Targetable.dfy` covers `RimWorld/CompTargetable.cs`. It handles target validation, use-option selection and applying every target effect to every target.
- `Caravans.dfy` covers `RimWorld.Planet/CaravanUtility.cs`. It handles caravan ownership, membership, destinations and auto-capture.
- `MedicalBills.dfy` covers `RimWorld/Bill_Medical.cs`. It handles a surgery bill's body part (cached and saved as an index), completion, and consuming the first medicine.
- `Common.dfy` holds shared vocabulary: `Option` for nullable references, `Result` for calls that may throw, `Vec2`, and the engine log with its `ErrorOnce` keys.

How the model is built:

- Objects whose fields the code updates in place are classes. Examples are the long event handler, thought handler, outfit database, drug policy tracker, plant, medical bill and targetable component. Their methods state their whole new state, in terms of a specification function of the old state.
- Loops are `while`/`for` loops with invariants.
- Engine collaborators the code calls but does not define are function-valued parameters or fields of "world" records. Examples are map and reachability queries, thought workers, `ModLister`, `Gen.HashCombine`, body-part lookups, stat values and rounding.
- Exceptions are explicit `Result` values or fault tags.

Three behaviours of `JobGiver_Work.TryIssueJobPackage` that the model keeps as the code has them:

- A cell found by a giver's cell scan replaces the thing that the same giver's thing scan found (RimWorld/JobGiver_Work.cs:138-142 and 180-184).
- The tier marker moves only past givers the pawn can use (RimWorld/JobGiver_Work.cs:231).
- The tier check runs before the usability check (RimWorld/JobGiver_Work.cs:69-73). A giver the pawn cannot use still ends the scan when it opens a new tier and a target is already held.

## Model

| member | source | states |
|---|---|---|
| JobGiverWork.DistSquared | RimWorld/JobGiver_Work.cs:155 | the horizontal squared distance is never negative and is zero only from a cell to itself |
| JobGiverWork.GetPriority | RimWorld/JobGiver_Work.cs:19-43 | 0 for a pawn without work settings or that never works; otherwise 5.5 for Anything (also when there is no timetable), 9 for Work, 2 for Sleep and Joy, and an exception for any other assignment |
| JobGiverWork.ThingQueryFor | RimWorld/JobGiver_Work.cs:85-137 | the thing scan ranks by priority exactly for prioritized scanners, searches globally up to 99999 exactly when unreachable targets are allowed, reachable things up to 9999 otherwise, and falls back to the thing request when the scanner gives no thing list |
| JobGiverWork.CellStep | RimWorld/JobGiver_Work.cs:154-186 | one cell replaces the record exactly when it is eligible (not forbidden, has a job, reachable unless unreachable targets are allowed) and beats the record: higher priority, or equal priority and strictly nearer, for a prioritized scanner; strictly nearer otherwise |
| JobGiverWork.CellsExamined | RimWorld/JobGiver_Work.cs:152-201 | a cell-scan exception cuts the examined cells to a strict prefix of the scanner's cells, and only then |
| JobGiverWork.BeatsTransitive | RimWorld/JobGiver_Work.cs:166-172 | the replacement order of the cell scan is transitive |
| JobGiverWork.NotBeatenBeats | RimWorld/JobGiver_Work.cs:166-172 | a rank that a better rank does not beat itself beats whatever that better rank beats |
| JobGiverWork.ScanCellsFromFirstBest | RimWorld/JobGiver_Work.cs:146-187 | the cell loop, from any record, ends on the earliest eligible cell no other eligible cell beats, when that cell beats the record, and on the record otherwise |
| JobGiverWork.CellScanPicksFirstBest | RimWorld/JobGiver_Work.cs:146-187 | from the reset record (distance 99999, priority -3.40282347E+38) the scan picks the reference cell exactly when that cell beats the reset record |
| JobGiverWork.FirstBestEligible | RimWorld/JobGiver_Work.cs:157-179 | the pick is an eligible cell of the list, and there is a pick whenever some cell is eligible |
| JobGiverWork.FirstBestNotBeaten | RimWorld/JobGiver_Work.cs:166-172 | no eligible cell of the list beats the pick: highest priority first, then smallest squared distance |
| JobGiverWork.FirstBestWinsTies | RimWorld/JobGiver_Work.cs:166-172 | among equal priority and distance the first cell found wins: the pick beats every eligible cell before it |
| JobGiverWork.FarCellNeverPicked | RimWorld/JobGiver_Work.cs:147-172 | without priorities a cell at squared distance 99999 or more is never picked |
| JobGiverWork.FoundBy | RimWorld/JobGiver_Work.cs:82-188 | a target found by a giver's scans belongs to that giver's scanner; a found cell is eligible and comes from a cell scan; a found thing comes from a thing scan, is not forbidden and has a job |
| JobGiverWork.ClosestWorkThing | RimWorld/JobGiver_Work.cs:82-137 | the thing the thing scan finds passes its validator (not forbidden for the pawn, HasJobOnThing) and lies in the giver's own thing list, or matches its thing request when it has none |
| JobGiverWork.CellOverridesOwnThing | RimWorld/JobGiver_Work.cs:138-184 | a cell flagged by a scanner's cell scan replaces the thing the same scanner's thing scan found, and the cell record starts afresh for every scanner |
| JobGiverWork.FirstWorkThing | RimWorld/JobGiver_Work.cs:261-272 | the thing chosen on the forced cell is on it, accepted by the thing request, not forbidden and has a job; when none is chosen no thing on the cell qualifies |
| JobGiverWork.FirstJobGiverShift | RimWorld/JobGiver_Work.cs:66-233 | the first-job-giver relation moves down the list one giver at a time |
| JobGiverWork.FirstJobGiverUnshift | RimWorld/JobGiver_Work.cs:66-233 | and back up: a first job giver of the rest is one of the whole list when the head gives no job |
| JobGiverWork.ScanGiversSoundFrom | RimWorld/JobGiver_Work.cs:66-234 | a job the tiered scan returns is the job of a giver that is reached (no tier boundary after a held target), usable, and the first usable one to yield a job, tagged with its tagToGive |
| JobGiverWork.ScanGiversCompleteFrom | RimWorld/JobGiver_Work.cs:66-234 | such a first job giver always has its job returned |
| JobGiverWork.ScanGiversFirstJob | RimWorld/JobGiver_Work.cs:63-66 | from the initial state (tier -999, no target) the scan returns the first job giver's job |
| JobGiverWork.ScanGiversJobSource | RimWorld/JobGiver_Work.cs:63-234 | from the initial state a returned job always comes from the first job giver |
| JobGiverWork.NonScanJobWins | RimWorld/JobGiver_Work.cs:77-81 | a reached, usable giver's non-null NonScanJob is returned at once with the giver's tagToGive |
| JobGiverWork.UsableGiverSetsTier | RimWorld/JobGiver_Work.cs:205-231 | a usable giver that does not return moves the tier marker to its own priorityInType and keeps or replaces the held target |
| JobGiverWork.TierBoundaryEndsScan | RimWorld/JobGiver_Work.cs:69-72 | once a target is held, the first giver of another tier ends the scan with no job, usable or not |
| JobGiverWork.UnusableGiverSkipped | RimWorld/JobGiver_Work.cs:73-240 | a giver the pawn cannot use changes nothing, not even the tier marker |
| JobGiverWork.ThrowingGiverContinues | RimWorld/JobGiver_Work.cs:191-201 | an exception in a giver is logged and the scan goes on as if the giver had found nothing |
| JobGiverWork.CellFaultKeepsEarlierCells | RimWorld/JobGiver_Work.cs:146-201 | an exception in the cell loop keeps what the cells before the failing one gave |
| JobGiverWork.TargetedJobIgnoresState | RimWorld/JobGiver_Work.cs:242-294 | the job of the forced-cell attempt depends on neither the log nor the last work type |
| JobGiverWork.TargetedJobSource | RimWorld/JobGiver_Work.cs:242-294 | a forced-cell job needs a usable giver that does not throw on that cell, and is its non-scan job, the job for an accepted, allowed thing with a job on the cell, or the job on the cell itself |
| JobGiverWork.FirstWorkThingIsFirst | RimWorld/JobGiver_Work.cs:259-272 | the thing the forced-cell loop takes is the qualifying thing of lowest index in the cell's thing list |
| JobGiverWork.TargetedJobOfFirstThing | RimWorld/JobGiver_Work.cs:259-272 | a usable thing scanner that does not throw gives the job of the first qualifying thing on the cell and records its work type |
| JobGiverWork.TargetedJobOfCell | RimWorld/JobGiver_Work.cs:274-279 | with no qualifying thing on the cell, a usable cell scanner that does not throw gives the job of an allowed cell with a job and records its work type |
| JobGiverWork.TargetedThrowLogged | RimWorld/JobGiver_Work.cs:248-293 | the exception text is logged exactly when a usable giver throws on the cell, and a throw gives no job and keeps the last work type |
| JobGiverWork.TargetedFaultUnreached | RimWorld/JobGiver_Work.cs:248-281 | a fault the forced-cell attempt does not reach (a thing fault on an empty cell, a cell fault after a thing gave a job) changes nothing |
| JobGiverWork.EmergencyScanFirstJob | RimWorld/JobGiver_Work.cs:49-59 | the forced-work loop returns the first giver's job for the cell, marked player-forced, with that giver's tag |
| JobGiverWork.EmergencyScanNoJob | RimWorld/JobGiver_Work.cs:49-59 | when no giver has a job for the forced cell, the loop yields none |
| JobGiverWork.ForcedWorkWins | RimWorld/JobGiver_Work.cs:47-58 | on the emergency node, prioritized work whose giver has a job for its cell wins, player-forced, and the forced work is kept |
| JobGiverWork.ForcedWorkCleared | RimWorld/JobGiver_Work.cs:47-66 | forced work with no job is cleared and the normal scan of the emergency list follows in the same call |
| JobGiverWork.NoForcedWorkScansList | RimWorld/JobGiver_Work.cs:62 | without forced work, or on the normal node, the result is the scan of the node's list (emergency or normal) |
| JobGiverWork.MissingWorkSettingsThrow | RimWorld/JobGiver_Work.cs:47-62 | a pawn without work settings that no forced giver serves makes the node throw when it reads the giver lists, after the emergency node has cleared the forced work |
| JobGiverWork.JobGiverWorkNode.TryIssueJobPackage | RimWorld/JobGiver_Work.cs:45-235 | the method's result, last work type, log and forced work are those of the reference package function (including the exception for a pawn without work settings), whose properties the lemmas above state |
| JobGiverWork.JobGiverWorkNode.TryGiver | RimWorld/JobGiver_Work.cs:73-232 | one usable giver in the loop is the reference step: non-scan job, scans, logged exception, then the held target |
| JobGiverWork.JobGiverWorkNode.AfterTryBlock | RimWorld/JobGiver_Work.cs:205-231 | a held target sets lastGivenWorkType and gives its scanner's job, or logs once under key 6112651 and the scan goes on at the giver's tier |
| JobGiverWork.JobGiverWorkNode.TryScans | RimWorld/JobGiver_Work.cs:75-204 | the try block throws exactly when the fault model says so and leaves held what the giver's scans found, or the earlier target |
| JobGiverWork.JobGiverWorkNode.ScanCells | RimWorld/JobGiver_Work.cs:144-188 | the cell loop with its num2/num3 record is the reference cell scan over the cells before any failing one |
| JobGiverWork.JobGiverWorkNode.GiverTryGiveJobPrioritized | RimWorld/JobGiver_Work.cs:242-294 | the forced-cell attempt: null for an unusable giver, the non-scan job, the first qualifying thing's job, the cell's job, or null after a logged exception, each fault raised only where the attempt reaches it |
| JobGiverWork.CanUse | RimWorld/JobGiver_Work.cs:237-240 | a non-colonist can use only givers open to non-colonists; a giver that skips the pawn, lacks a required capacity or whose work tags the pawn's story disables is unusable; a colonist with no disabled tags can use any giver that neither skips nor lacks a capacity |
| WorkGiverRemoveRoof.RoofedAmong | RimWorld/WorkGiver_RemoveRoof.cs:60-75 | the roofed-neighbour count never exceeds the number of neighbours looked at |
| WorkGiverRemoveRoof.HoldsRoofAmongMember | RimWorld/WorkGiver_RemoveRoof.cs:60-69 | the roof-holder search finds exactly the neighbours that hold a roof |
| WorkGiverRemoveRoof.RoofPriorityMeaning | RimWorld/WorkGiver_RemoveRoof.cs:56-77 | the priority is -60 exactly when an in-bounds neighbour holds a roof; otherwise it is minus the roofed in-bounds neighbours, capped at 3 |
| WorkGiverRemoveRoof.RoofPriorityValues | RimWorld/WorkGiver_RemoveRoof.cs:56-77 | the priority is always one of -60, -3, -2, -1 and 0 |
| WorkGiverRemoveRoof.GetPriority | RimWorld/WorkGiver_RemoveRoof.cs:56-77 | the 8-neighbour loop with its early return computes the reference priority |
| WorkGiverRemoveRoof.HasJobOnCell | RimWorld/WorkGiver_RemoveRoof.cs:32-49 | false outside the NoRoof area, on an unroofed cell or a forbidden one; otherwise whether the ceiling can be reserved |
| WorkGiverRemoveRoof.JobOnCell | RimWorld/WorkGiver_RemoveRoof.cs:51-54 | always a RemoveRoof job with the cell as both targets |
| WorkGiverRemoveRoof.RemoveRoofScanner | RimWorld/WorkGiver_RemoveRoof.cs:11-30 | the scanner is prioritized, ends paths at ClosestTouch and offers exactly the NoRoof area's active cells |
| WorkGiverRemoveRoof.RemoveRoofScanPick | RimWorld/WorkGiver_RemoveRoof.cs:11-77 | in the dispatcher's cell scan the roof scanner picks an active NoRoof cell that has a job, that no eligible cell outranks, and whose job is RemoveRoof on that cell |
| SituationalThoughts.CacheTimers | RimWorld/SituationalThoughtHandler.cs:21-35 | an entry expires exactly 300 ticks after its last query and is due for recalculation exactly 100 ticks after its last recalculation; a fresh entry (both ticks -99999) is both once the game clock is past -99699 |
| SituationalThoughts.Recalculated | RimWorld/SituationalThoughtHandler.cs:114 | RecalculateState changes only a thought's active flag, never its def or the pawn it is about (also line 245) |
| SituationalThoughts.RecalculatedAll | RimWorld/SituationalThoughtHandler.cs:111-116 | the recalculation loop recalculates every cached thought in place, position by position, and leaves the set of cached defs unchanged (also lines 241-247) |
| SituationalThoughts.ActiveOfMembers | RimWorld/SituationalThoughtHandler.cs:263-271 | the active list is exactly the cached thoughts that are active, nothing more and nothing less (also lines 69-76) |
| SituationalThoughts.ActiveOfAppend | RimWorld/SituationalThoughtHandler.cs:263-271 | collecting the active thoughts of a concatenation collects each part in turn |
| SituationalThoughts.TryCreateThought | RimWorld/SituationalThoughtHandler.cs:279-311 | a mood thought is created exactly when the pawn can get the def and its worker says the state is active, and it is then an active thought about nobody |
| SituationalThoughts.TryCreateSocialThought | RimWorld/SituationalThoughtHandler.cs:313-346 | a social thought about the other pawn is created exactly when the pawn can get the def and the social state towards that pawn is active, and it is then active and about that pawn |
| SituationalThoughts.Created | RimWorld/SituationalThoughtHandler.cs:122-129 | one iteration of the creation loop adds at most one thought, only for a def not already cached, about the right pawn and active (also lines 253-260) |
| SituationalThoughts.NewThoughtsMembers | RimWorld/SituationalThoughtHandler.cs:117-131 | every thought the creation loop adds is for an uncached def, about the right pawn, and active (also lines 248-262) |
| SituationalThoughts.NewThoughtsComplete | RimWorld/SituationalThoughtHandler.cs:117-131 | every uncached def of the list that is creatable gets a thought (also lines 248-262) |
| SituationalThoughts.NewThoughtsDistinct | RimWorld/SituationalThoughtHandler.cs:117-131 | over a def list without repeats, no two created thoughts share a def |
| SituationalThoughts.NewThoughtsFromDefs | RimWorld/SituationalThoughtHandler.cs:117-131 | the loop creates thoughts only for defs of the list it walks |
| SituationalThoughts.RecalcMoodListDefs | RimWorld/SituationalThoughtHandler.cs:109-131 | CheckRecalculateMoodThoughts never caches two mood thoughts with the same def, and afterwards every creatable non-social def has a cached thought |
| SituationalThoughts.MoodListAboutNobody | RimWorld/SituationalThoughtHandler.cs:109-131 | the cached mood list never holds a social thought |
| SituationalThoughts.RecalculatedAllAbout | RimWorld/SituationalThoughtHandler.cs:241-247 | recalculation keeps every thought about the pawn it was about |
| SituationalThoughts.RecalcSocialEntry | RimWorld/SituationalThoughtHandler.cs:238-272 | a recalculated social entry is stamped with the current tick, keeps its query tick, its active list is exactly its active thoughts, and it stays an entry about the same pawn |
| SituationalThoughts.PairsOf | RimWorld/SituationalThoughtHandler.cs:143-160 | the wanted set holds exactly the (def, candidate) pairs of mood-affecting social defs whose candidate is not the pawn itself |
| SituationalThoughts.ToAddExcludesSelf | RimWorld/SituationalThoughtHandler.cs:150-156 | the pawn never wants a mood-affecting social thought about itself |
| SituationalThoughts.KeepPairsMembers | RimWorld/SituationalThoughtHandler.cs:161-171 | the backwards RemoveAt loop keeps exactly the thoughts whose (def, pawn) pair is still wanted |
| SituationalThoughts.Refreshed | RimWorld/SituationalThoughtHandler.cs:206-221 | a refreshed entry keeps its query tick, its active list is exactly its active thoughts, and a non-empty entry is stamped with the current tick |
| SituationalThoughts.AffectingValid | RimWorld/SituationalThoughtHandler.cs:139-226 | after the recalculation every mood-affecting entry is non-empty, its active list matches its thoughts, and every thought in it is about its own pawn |
| SituationalThoughts.EntryPhases | RimWorld/SituationalThoughtHandler.cs:161-221 | one entry through pruning, creation and refresh ends non-empty, stamped now, holding only wanted recalculated thoughts about its pawn: exactly its kept thoughts recalculated, in order, then only created thoughts (active, creatable, of a def not kept); its query tick is unchanged, or never for a new entry |
| SituationalThoughts.PhasesKeys | RimWorld/SituationalThoughtHandler.cs:161-221 | an entry survives exactly for a pawn whose old entry keeps a wanted thought or for whom some wanted pair is creatable |
| SituationalThoughts.AffectingPhases | RimWorld/SituationalThoughtHandler.cs:139-226 | the four phases together leave entries for exactly the pawns with a kept or creatable wanted thought, each entry its kept thoughts recalculated followed by created ones, and every wanted creatable pair present |
| SituationalThoughts.PhasesComplete | RimWorld/SituationalThoughtHandler.cs:172-205 | after the four phases every wanted pair whose thought is creatable has its def cached under its pawn |
| SituationalThoughts.Stamped | RimWorld/SituationalThoughtHandler.cs:77-86 | stamping keeps the same pawns and changes only each entry's query tick, to now |
| SituationalThoughts.Unexpired | RimWorld/SituationalThoughtHandler.cs:355-359 | the cache keeps exactly the entries that are neither expired nor about a discarded pawn, each unchanged |
| SituationalThoughts.SituationalThoughtHandler.constructor | RimWorld/SituationalThoughtHandler.cs:56-59 | a new handler has empty caches and has never recalculated its mood thoughts |
| SituationalThoughts.SituationalThoughtHandler.AppendMoodThoughts | RimWorld/SituationalThoughtHandler.cs:66-87 | after a recalculation check, the output gets the active cached mood thoughts followed by every mood-affecting entry's active list, in the dictionary's order, each entry stamped as queried now; the social cache is untouched and the handler stays valid |
| SituationalThoughts.SituationalThoughtHandler.AppendCachedMoodThoughts | RimWorld/SituationalThoughtHandler.cs:69-86 | the two output loops append the active mood thoughts and then each entry's active list, stamping only the query ticks |
| SituationalThoughts.SituationalThoughtHandler.AppendSocialThoughts | RimWorld/SituationalThoughtHandler.cs:89-99 | the entry about the other pawn is checked (created, and recalculated if due), stamped as queried now, and its active thoughts are appended; no other cache changes |
| SituationalThoughts.SituationalThoughtHandler.CheckRecalculateMoodThoughts | RimWorld/SituationalThoughtHandler.cs:101-137 | within 100 ticks of the last run nothing changes; otherwise the tick is stamped, the mood list becomes the recalculated cache plus the new creatable thoughts, and the mood-affecting dictionary is fully recalculated |
| SituationalThoughts.SituationalThoughtHandler.RecalculateSocialThoughtsAffectingMood | RimWorld/SituationalThoughtHandler.cs:139-226 | only the mood-affecting dictionary changes; it holds entries for exactly the pawns with a kept or creatable wanted thought, each its kept thoughts recalculated, in order, followed by created active thoughts; every wanted creatable pair is present, and the handler is valid afterwards |
| SituationalThoughts.SituationalThoughtHandler.CheckRecalculateSocialThoughts | RimWorld/SituationalThoughtHandler.cs:228-277 | only the entry about the given pawn changes: it is created when missing and recalculated when due |
| SituationalThoughts.SituationalThoughtHandler.NotifySituationalThoughtsDirty | RimWorld/SituationalThoughtHandler.cs:348-353 | all three caches are emptied and the mood recalculation tick is kept |
| SituationalThoughts.SituationalThoughtHandler.RemoveExpiredThoughtsFromCache | RimWorld/SituationalThoughtHandler.cs:355-359 | both social dictionaries lose exactly their expired entries and the entries about discarded pawns, and nothing else changes |
| SituationalThoughts.RecalculateEntry | RimWorld/SituationalThoughtHandler.cs:238-272 | the in-place recalculation of one social entry computes the recalculated entry |
| SituationalThoughts.AppendActive | RimWorld/SituationalThoughtHandler.cs:69-76 | the loop appends exactly the active thoughts, in order |
| SituationalThoughts.AppendThoughts | RimWorld/SituationalThoughtHandler.cs:94-98 | the loop appends every thought of the active list, in order |
| SituationalThoughts.StampQueried | RimWorld/SituationalThoughtHandler.cs:77-86 | the dictionary loop visits every entry once, stamps it as queried now, and appends the entries' active lists in visiting order |
| SituationalThoughts.RecalculateAll | RimWorld/SituationalThoughtHandler.cs:109-116 | the loop recalculates every cached thought and collects exactly the cached defs |
| SituationalThoughts.AddCreated | RimWorld/SituationalThoughtHandler.cs:117-131 | the loop appends the thoughts created for the uncached defs |
| SituationalThoughts.WantedPairs | RimWorld/SituationalThoughtHandler.cs:143-160 | phase one collects exactly the wanted (def, candidate) pairs |
| SituationalThoughts.AddCandidates | RimWorld/SituationalThoughtHandler.cs:149-158 | one def adds all its candidates except the pawn itself, and nothing else |
| SituationalThoughts.PruneEntries | RimWorld/SituationalThoughtHandler.cs:161-171 | phase two prunes every entry to its still-wanted thoughts |
| SituationalThoughts.PruneThoughts | RimWorld/SituationalThoughtHandler.cs:163-170 | the backwards RemoveAt loop leaves, in order, exactly the thoughts whose pair is wanted |
| SituationalThoughts.AddMissing | RimWorld/SituationalThoughtHandler.cs:172-204 | phase three extends each entry only at its end, with active thoughts about its pawn for wanted creatable pairs whose def it lacked, and gives every such pair a thought |
| SituationalThoughts.AddPair | RimWorld/SituationalThoughtHandler.cs:174-203 | one pair is skipped when its def is already cached under its pawn; otherwise a creatable thought is appended to the pawn's entry, which is created if missing |
| SituationalThoughts.ContainsDef | RimWorld/SituationalThoughtHandler.cs:179-188 | the search finds the def exactly when a thought of the entry has it |
| SituationalThoughts.RefreshEntries | RimWorld/SituationalThoughtHandler.cs:206-221 | phase four refreshes every entry |
| SituationalThoughts.RefreshEntry | RimWorld/SituationalThoughtHandler.cs:209-220 | one entry's thoughts are recalculated, its active list rebuilt from them and, when it has thoughts, its recalculation tick stamped |
| SituationalThoughts.CachedSocialThoughts.Expired | RimWorld/SituationalThoughtHandler.cs:21-27 | an entry is not expired at or before its last query and is expired from 300 ticks after it |
| SituationalThoughts.CachedSocialThoughts.ShouldRecalculateState | RimWorld/SituationalThoughtHandler.cs:29-35 | an entry is not due at or before its last recalculation and is due from 100 ticks after it |
| LongEvents.WindowPredicates | Verse/LongEventHandler.cs:34-56 | an event shown in the standard window is neither asynchronous nor an enumerator, so it never shows animated dots; an event waits to be displayed only when it uses the standard window, has not been displayed and has a non-empty text |
| LongEvents.LongEventHandler.constructor | Verse/LongEventHandler.cs:59-69 | the handler starts with an empty queue, no current event, an empty finish list and no drain in progress |
| LongEvents.LongEventHandler.IsAnyEventNowOrWaiting | Verse/LongEventHandler.cs:92-98 | the answer is the handler's busy predicate (a current event or a queued one); LongEvents.QueueKeepsBusy relates it to queueing and clearing (also lines 113-119) |
| LongEvents.QueueKeepsBusy | Verse/LongEventHandler.cs:92-158 | after any QueueLongEvent the handler is busy; after ClearQueuedEvents it is busy exactly when an event is current; ForcePause is the same predicate |
| LongEvents.LongEventHandler.QueueLongEvent | Verse/LongEventHandler.cs:121-130 | the new event is appended at the tail, with its action, text key, asynchrony and exception handler, and may use the standard window only when no current or queued event avoids it; nothing else changes |
| LongEvents.LongEventHandler.QueueLongEventEnumerator | Verse/LongEventHandler.cs:132-141 | an enumerator event is appended at the tail, never asynchronous, with the same standard-window rule |
| LongEvents.LongEventHandler.QueueLongEventLevel | Verse/LongEventHandler.cs:143-153 | a level-loading event is appended at the tail with its level, with the same standard-window rule |
| LongEvents.QueueKeepsWindowOrder | Verse/LongEventHandler.cs:121-153 | queueing keeps the window order (no event behind a non-standard-window event may use the standard window), and an event queued while a non-standard-window event is current or waiting does not use the standard window (also lines 100-111) |
| LongEvents.LongEventHandler.ClearQueuedEvents | Verse/LongEventHandler.cs:155-158 | the queue is emptied and everything else, the current event included, is kept |
| LongEvents.LongEventHandler.MarkDisplayed | Verse/LongEventHandler.cs:420-423 | a repaint marks the current event as displayed and changes nothing else |
| LongEvents.LongEventHandler.LongEventsUpdate | Verse/LongEventHandler.cs:195-225 | the update dispatches on the current event's kind and then fills an empty slot from the head of the queue, giving the event its text |
| LongEvents.UpdateFillsSlot | Verse/LongEventHandler.cs:213-224 | only an empty slot takes the head of the queue, the queue changes only by that dequeue, a null text key gives empty text and any other key its translation, and an event still running leaves everything as it was |
| LongEvents.UpdateKeepsWindowOrder | Verse/LongEventHandler.cs:195-225 | the update keeps the window order |
| LongEvents.LongEventHandler.UpdateCurrentSynchronousEvent | Verse/LongEventHandler.cs:329-363 | a synchronous update computes the synchronous-event rule: wait, succeed or throw |
| LongEvents.SynchronousWaits | Verse/LongEventHandler.cs:331-335 | a synchronous event still waiting to be displayed is not run and nothing changes |
| LongEvents.SynchronousSucceeds | Verse/LongEventHandler.cs:336-350 | an action that does not throw runs, the slot is freed, a scene change is reported exactly when there is a level to load, and the finish list, including what the action registered, is drained |
| LongEvents.SynchronousThrows | Verse/LongEventHandler.cs:352-362 | an action that throws frees the slot, logs one error, runs the exception handler if any, reports no scene change and leaves the finish list undrained |
| LongEvents.LongEventHandler.UpdateCurrentEnumeratorEvent | Verse/LongEventHandler.cs:248-289 | a running enumerator keeps everything; a finished one frees the slot and drains the finish list; a throwing one logs the error, runs the exception handler and frees the slot without draining |
| LongEvents.LongEventHandler.UpdateCurrentAsynchronousEvent | Verse/LongEventHandler.cs:291-327 | once the thread (and any level load) is done the slot is freed and the finish list drained; until then nothing changes |
| LongEvents.LongEventHandler.ExecuteWhenFinished | Verse/LongEventHandler.cs:227-234 | the action is appended to the finish list, which is drained at once only when no event is current (or the current one waits to be displayed) and no drain is in progress |
| LongEvents.WhenFinishedRunsNow | Verse/LongEventHandler.cs:227-234 | in the immediate case the listed actions run first, the new one after them, and the list ends empty |
| LongEvents.WhenFinishedDefers | Verse/LongEventHandler.cs:227-234 | in every other case the action is only appended |
| LongEvents.LongEventHandler.ExecuteToExecuteWhenFinished | Verse/LongEventHandler.cs:391-412 | the drain loop computes the drain rule |
| LongEvents.DrainedEffect | Verse/LongEventHandler.cs:391-412 | a drain already in progress only warns; otherwise every listed action runs, including the ones appended during the run, the list is emptied, the flag reset and the event slot and queue are untouched |
| LongEvents.DrainedKeepsSlot | Verse/LongEventHandler.cs:391-412 | draining never touches the queue or the current event |
| LongEvents.DrainOrderFifo | Verse/LongEventHandler.cs:399-409 | the drain runs the listed actions first, in order, before anything they append |
| LongEvents.DrainOrderComplete | Verse/LongEventHandler.cs:399-409 | the drain runs exactly as many actions as the listed ones and all they transitively append, and whatever a run action appends also runs |
| LongEvents.RunFinishEffect | Verse/LongEventHandler.cs:399-409 | the loop traces the actions in drain order, logs one error per throwing action, and changes nothing else |
| LongEvents.RunFinishExecuted | Verse/LongEventHandler.cs:399-404 | the actions run are those of the drain order |
| LongEvents.RunFinishFrame | Verse/LongEventHandler.cs:399-409 | the loop leaves the queue, the slot, the flag and the warn-once keys alone |
| LongEvents.RunFinishLog | Verse/LongEventHandler.cs:405-408 | a throwing action is caught and logged once, and the loop goes on |
| LongEvents.ThrowErrors | Verse/LongEventHandler.cs:405-408 | at most one log entry per action, each the post-long-event error |
| LongEvents.LongEventHandler.Invoke | Verse/LongEventHandler.cs:340 | running an action traces it, appends what it registers to the finish list without starting a drain, and logs its exception if it throws (also line 403) |
| LongEvents.QueuedLongEvent.UseAnimatedDots | Verse/LongEventHandler.cs:34-40 | an event with animated dots never uses the standard window, and one without them uses it whenever it may |
| LongEvents.QueuedLongEvent.ShouldWaitUntilDisplayed | Verse/LongEventHandler.cs:42-48 | an event waits to be displayed only in the standard window, and never once displayed or when it has no text |
| LongEvents.QueuedLongEvent.UseStandardWindow | Verse/LongEventHandler.cs:50-56 | an enumerator event, an asynchronous event or one queued behind a non-standard window never uses the standard window |
| LongEvents.ForcePause | Verse/LongEventHandler.cs:113-119 | the game is paused exactly while an event is running or waiting in the queue |
| Outfits.MaxId | RimWorld/OutfitDatabase.cs:67 | the largest unique id of a non-empty list: no outfit has a larger one and some outfit has it |
| Outfits.NextId | RimWorld/OutfitDatabase.cs:64-73 | the new id is 1 on an empty list, otherwise one more than the largest existing id, so it is above every existing id |
| Outfits.NextIdOfNumbered | RimWorld/OutfitDatabase.cs:64-73 | on outfits numbered 1, 2, ... in order the next id is the list length plus one (also lines 80-84) |
| Outfits.OutfitDatabase.MakeNewOutfit | RimWorld/OutfitDatabase.cs:62-78 | a new outfit with the next id, the label "Outfit" plus its id and a filter allowing all apparel is appended at the end and returned; ids stay distinct |
| Outfits.OutfitDatabase.DefaultOutfit | RimWorld/OutfitDatabase.cs:30-37 | the first outfit is returned; on an empty list one outfit with id 1 is made first, otherwise the list is unchanged |
| Outfits.OutfitDatabase.TryDelete | RimWorld/OutfitDatabase.cs:39-60 | the delete is refused, naming the first living pawn that follows the outfit and changing nothing, exactly when such a pawn exists; otherwise every pawn (alive or dead) following it is reset to none, no other pawn changes, and exactly that outfit is removed |
| Outfits.WithoutMembers | RimWorld/OutfitDatabase.cs:58 | removal keeps exactly the outfits with another id |
| Outfits.WithoutDistinct | RimWorld/OutfitDatabase.cs:58 | removal keeps the ids distinct |
| Outfits.WithoutLength | RimWorld/OutfitDatabase.cs:58 | removal shortens the list by one exactly when an outfit with that id was there |
| Outfits.WithoutRemovesId | RimWorld/OutfitDatabase.cs:58 | with distinct ids, removal drops exactly the outfit with that id and keeps the ids distinct |
| Outfits.DistinctTail | RimWorld/OutfitDatabase.cs:58 | the rest of a list with distinct ids has distinct ids and none equal to the first |
| Outfits.OutfitDatabase.constructor | RimWorld/OutfitDatabase.cs:20-23 | a new database holds exactly the four starting outfits |
| Outfits.OutfitDatabase.GenerateStartingOutfits | RimWorld/OutfitDatabase.cs:80-117 | the four starting outfits are made in order |
| Outfits.StartingOutfitsFacts | RimWorld/OutfitDatabase.cs:80-117 | the starting outfits have ids 1 to 4 and the labels Anything, Worker, Soldier and Nudist; Anything allows exactly the apparel, Worker and Soldier exactly the apparel carrying their tag, Nudist exactly the apparel covering neither legs nor torso, and the last three forbid dead men's apparel |
| Outfits.OutfitDatabase.MakeLabelledOutfit | RimWorld/OutfitDatabase.cs:82-85 | on outfits numbered 1, 2, ... a new outfit numbered next, labelled with the given title and allowing all apparel, is appended (also lines 95-96, 106-107) |
| Outfits.OutfitDatabase.SetLastFilter | RimWorld/OutfitDatabase.cs:86-116 | only the filter of the outfit made last is replaced |
| Outfits.AllowTagged | RimWorld/OutfitDatabase.cs:86-105 | the def loop allows exactly the defs carrying the tag, with dead men's apparel forbidden |
| Outfits.AllowNudist | RimWorld/OutfitDatabase.cs:108-116 | the def loop allows exactly the apparel covering neither legs nor torso, with dead men's apparel forbidden |
| Outfits.OutfitTracker.constructor | RimWorld/OutfitDatabase.cs:53-55 | a pawn's outfit tracker starts with the given current outfit (also line 43) |
| DrugPolicy.DrugPolicyTracker.constructor | RimWorld/Pawn_DrugPolicyTracker.cs:99-102 | a new tracker has no assigned policy and no intake records (also lines 13-15) |
| DrugPolicy.DrugPolicyTracker.CurrentPolicy | RimWorld/Pawn_DrugPolicyTracker.cs:19-28 | the getter answers the assigned policy, installing the database default first when none is assigned, so every later read answers the same policy; the records are untouched |
| DrugPolicy.DrugPolicyTracker.SetCurrentPolicy | RimWorld/Pawn_DrugPolicyTracker.cs:29-36 | the setter assigns the given policy, null included (assigning the same one again changes nothing), and leaves the intake records alone |
| DrugPolicy.HoursPerDayNotSleeping | RimWorld/Pawn_DrugPolicyTracker.cs:75-93 | 16 for a caravan member; otherwise the number of the day's 24 hours not assigned to sleep, always between 0 and 24 |
| DrugPolicy.AwakeHoursBounds | RimWorld/Pawn_DrugPolicyTracker.cs:83-91 | the awake-hour count over n hours is at most n, equals n exactly when none of them is sleep and is 0 exactly when all are |
| DrugPolicy.DrugPolicyTracker.HasEverTaken | RimWorld/Pawn_DrugPolicyTracker.cs:110-118 | false with a "not a drug" warning for a non-drug; otherwise true exactly when some intake record is for that drug, with no log entry |
| DrugPolicy.FindRecord | RimWorld/Pawn_DrugPolicyTracker.cs:235 | List.Find answers the first record for the drug, or nothing exactly when no record is for it (also lines 161, 204) |
| DrugPolicy.DrugPolicyTracker.AllowedToTakeScheduledEver | RimWorld/Pawn_DrugPolicyTracker.cs:120-134 | false with an error for a non-ingestible thing or a non-drug (the policy is then not read); otherwise the policy entry must allow scheduled use and a non-medical drug is refused to a teetotaler |
| DrugPolicy.DrugPolicyTracker.AllowedToTakeScheduledNow | RimWorld/Pawn_DrugPolicyTracker.cs:136-183 | the same two error cases; otherwise allowed ever, not blocked by the mood or joy thresholds, and, for a drug taken before, not too soon: under daily frequency below one the day's intakes must stay below the rounded doses per day, otherwise the days since the last intake must reach the rounded frequency |
| DrugPolicy.ScheduledNowFacts | RimWorld/Pawn_DrugPolicyTracker.cs:136-183 | allowed now implies allowed ever; a drug taken fewer days ago than its rounded frequency is refused; a never-taken drug is limited only by the policy and the needs |
| DrugPolicy.DrugPolicyTracker.NotifyDrugIngested | RimWorld/Pawn_DrugPolicyTracker.cs:233-244 | the drug's record is found (or appended new), stamped with the current tick and its intake count for the day increased by one; the policy is untouched |
| DrugPolicy.IngestedRecord | RimWorld/Pawn_DrugPolicyTracker.cs:233-244 | after an intake the drug has exactly one record, stamped now, with one intake more than before (a new record ends at one), other records unchanged and the list one longer only for a new drug |
| DrugPolicy.IngestedExisting | RimWorld/Pawn_DrugPolicyTracker.cs:235-243 | an existing record stays at its place and only it changes |
| DrugPolicy.IngestedNew | RimWorld/Pawn_DrugPolicyTracker.cs:236-243 | a new record is appended at the end with the current tick and one intake |
| DrugPolicy.LastTicksWhenTakenDrugWhichCanCauseOverdose | RimWorld/Pawn_DrugPolicyTracker.cs:246-257 | the latest intake tick over the records of overdose-capable drugs, floored at -999999, which is the answer when there is no such record |
| Plants.Clamp01 | RimWorld/Plant.cs:73 | Mathf.Clamp01: the value itself inside [0, 1], otherwise the nearer end |
| Plants.InverseLerp | RimWorld/Plant.cs:270 | Mathf.InverseLerp always lies in [0, 1] (also lines 274, 645) |
| Plants.Lerp | RimWorld/Plant.cs:449 | Mathf.Lerp with a clamped parameter stays between its ends (also line 648) |
| Plants.Max | RimWorld/Plant.cs:174-183 | Mathf.Max is one of its arguments and at least both |
| Plants.Plant.constructor | RimWorld/Plant.cs:19-27 | a new plant has growth 0.05, age 0, no unlit ticks, leafless tick -99999, full hit points and is not sown |
| Plants.Plant.SetGrowth | RimWorld/Plant.cs:65-76 | the Growth setter stores the value clamped to [0, 1] and changes nothing else |
| Plants.LifeStage | RimWorld/Plant.cs:336-350 | Sowing exactly below 0.001, Mature exactly above 0.999, Growing exactly in between; the three cases are exclusive and cover every growth |
| Plants.GrowthRateFactorTemperature | RimWorld/Plant.cs:259-278 | the temperature factor always lies in [0, 1] |
| Plants.GrowthRateFactorTemperatureShape | RimWorld/Plant.cs:259-278 | the factor is 1 for an unknown temperature or one in [10, 42], rises as t/10 from 0 to 10, falls as (58-t)/16 from 42 to 58, and is 0 exactly at or below 0 and at or above 58 |
| Plants.DyingFacts | RimWorld/Plant.cs:163-203 | the dying damage is never negative and is 0 off the map; an overaged plant or a surface plant unlit for more than 450000 ticks takes at least 0.005; the plant is dying exactly when one of the three causes (age, darkness, light on a cave plant) holds |
| Plants.Plant.TakeDamage | RimWorld/Plant.cs:505 | damage lowers the hit points and destroys the plant at zero or below (also lines 529, 582) |
| Plants.Plant.MakeLeafless | RimWorld/Plant.cs:492-539 | poison kills a plant without a leafless graphic, a plant that dies when leafless is killed by either cause, and any other plant only has its leafless tick stamped now |
| Plants.Plant.TickLong | RimWorld/Plant.cs:541-609 | one long tick computes the TickLong rule on the plant's fields |
| Plants.TickLongFacts | RimWorld/Plant.cs:541-609 | a cold snap kills a plant that dies when leafless; otherwise the plant ages by 2000, an unlit plant gains 2000 unlit ticks and a lit one resets them, growth moves only in the growth season and never ends above 1, a cold snap stamps the leafless tick so the plant is leafless now, and hit points drop exactly when the plant is dying (also lines 372-378, 484-490, 531-534) |
| Plants.Plant.IngestedCalculateAmounts | RimWorld/Plant.cs:440-469 | the nutrition eaten is the def's nutrition times growth for sowable plants and times lerp(0.5, 1, growth) otherwise; a plant the harvest destroys reports one taken and is unchanged, any other reports none and loses 0.3 growth, not below 0.08 |
| Plants.Plant.PlantCollected | RimWorld/Plant.cs:471-482 | a plant the harvest destroys is destroyed; any other returns to its regrowth level |
| Plants.YieldBeforeRounding | RimWorld/Plant.cs:630-651 | the yield is 0 unless the plant is harvestable now, has a positive yield and is not blighted; otherwise it lies between a quarter and all of the yield times the difficulty factor |
| Plants.GrowthFactor | RimWorld/Plant.cs:645-646 | the growth factor of the yield lies in [0.5, 1] |
| Plants.HealthFactor | RimWorld/Plant.cs:648 | the health factor of the yield lies in [0.5, 1] |
| Plants.YieldProduct | RimWorld/Plant.cs:644-649 | the product of the factors lies between a quarter and all of yield times difficulty |
| Plants.YieldBounds | RimWorld/Plant.cs:644-649 | two factors in [0.5, 1] scale a positive product by between a quarter and one |
| Plants.LeaflessNow | RimWorld/Plant.cs:372-378 | a plant is leafless from the tick it was made leafless until 60000 ticks later, and not from then on |
| Plants.HarvestableNow | RimWorld/Plant.cs:91-97 | only a harvestable kind of plant grown past its minimum harvest growth is harvestable now; a mature plant of a harvestable kind whose minimum is below maturity always is |
| Plants.DyingBecauseExposedToLight | RimWorld/Plant.cs:189-195 | only a spawned cave plant in some light dies of light |
| Plants.DyingDamagePerTick | RimWorld/Plant.cs:163-187 | the dying damage is never negative, is 0 off the map, and for a cave plant in light is at least the light damage interpolated over the glow |
| Plants.Dying | RimWorld/Plant.cs:197-203 | only a spawned plant is dying, and a cave plant exposed to light always is |
| CurveDrawer.CoordinatesRoundTrip | Verse/SimpleCurveDrawer.cs:455-475 | curve-to-screen and screen-to-curve are inverse to each other in both directions on a non-degenerate view and rect, and the view's origin lands at the bottom-left corner (0, rect height) |
| CurveDrawer.RemovePointsOptimizationFreq | Verse/SimpleCurveDrawer.cs:521-541 | the frequency is count + 1 up to 1000 points, then 5, 4, 3 and 2 above 1000, 1200, 1400 and 1900 points |
| Common.CeilToInt | Verse/SimpleCurveDrawer.cs:300-303 | the result is the least integer not below its argument |
| CurveDrawer.CalculateMeasureStartAndInc | Verse/SimpleCurveDrawer.cs:296-312 | integer measures (integers only, and some integer in range): start at the ceiling of min, an integral step of at least 1, between 1 and the wanted count of labels, the last at most floor(max) and one more step beyond it; otherwise: start at min, exactly the wanted count, and start + inc * count reaches max |
| CurveDrawer.IntegerMeasuresOf | Verse/SimpleCurveDrawer.cs:298-305 | from integers lo <= hi: start at lo, a whole step of at least 1, between 1 and the wanted count of labels, the last label at most hi and the next one past it |
| CurveDrawer.EvenMeasures | Verse/SimpleCurveDrawer.cs:306-311 | the even branch divides [min, max] into the wanted count of equal steps |
| CurveDrawer.IntegerMeasures | Verse/SimpleCurveDrawer.cs:298-305 | a step of at least (n + 1) / wanted is at least 1, and n / inc + 1 labels, between 1 and the wanted count, reach at most n with the next label beyond n |
| CurveDrawer.UnionOf | Verse/SimpleCurveDrawer.cs:65-83 | the loop's view is none exactly when no curve is present; otherwise it contains every present curve's view |
| CurveDrawer.UnionAttained | Verse/SimpleCurveDrawer.cs:65-83 | each edge of the union is the edge of some present curve's view, so the union is the least box holding them |
| CurveDrawer.UnionOfViews | Verse/SimpleCurveDrawer.cs:65-83 | the index loop over the curves computes exactly the union, skipping null curves and seeding from the first present one |
| CurveDrawer.ApplyStyle | Verse/SimpleCurveDrawer.cs:86-106 | applied in order: a fixed section sets the x range; a fixed scale sets the y range; only-positive raises y min (the fixed scale's or the union's) to 0 and, without a fixed section, x min to 0; x max and y max are the union's unless a fixed section or scale sets them |
| CurveDrawer.DrawCurvesView | Verse/SimpleCurveDrawer.cs:51-110 | nothing is drawn outside a repaint or without curves; otherwise the view is the styled union (or the empty default) and nothing is drawn when its width or height is zero |
| CurveDrawer.DrawCurveMarks | Verse/SimpleCurveDrawer.cs:418-437 | the loop as written, whose index advances twice per pass, draws exactly the as-written mark list |
| CurveDrawer.MarksAsWrittenFacts | Verse/SimpleCurveDrawer.cs:424-435 | as written, only even-indexed marks inside the view's x range are drawn, each in the top row and at its scaled x position |
| CurveDrawer.OddMarkSkipped | Verse/SimpleCurveDrawer.cs:424-435 | with two marks both in view only the first is drawn, so the second in-view mark is lost |
| CurveDrawer.MarksIntendedFacts | Verse/SimpleCurveDrawer.cs:424-433 | with one step per pass every mark in the view's x range is drawn, in order, rows alternating with the index's parity |
| CurveDrawer.DrawCurveMarksIntended | Verse/SimpleCurveDrawer.cs:424-433 | the corrected loop draws exactly the intended mark list |
| CurveDrawer.DrawCurvesLegend | Verse/SimpleCurveDrawer.cs:314-347 | one cell per curve; cell k sits in column k mod n and row k div n, 160 and 20 units apart, where n is the rect width over 140 truncated, and all cells share one row when n is below 1 |
| CurveDrawer.CurveToScreenCoordsInsideScreenRect | Verse/SimpleCurveDrawer.cs:455-464 | the view's left and right edges map to the rect's left and right edges, its bottom edge to the rect's bottom and its top edge to the rect's top (y flipped) |
| CurveDrawer.ScreenToCurveCoords | Verse/SimpleCurveDrawer.cs:466-475 | the rect's edges map back to the view's edges, the rect's bottom to the view's bottom |
| CurveDrawer.CurveScreenCurve | Verse/SimpleCurveDrawer.cs:455-475 | curve to screen, then back to the curve, returns the point |
| CurveDrawer.ScreenCurveScreen | Verse/SimpleCurveDrawer.cs:455-475 | screen to curve, then back to the screen, returns the point |
| GraphicRequests.NewGraphicRequest | Verse/GraphicRequest.cs:27-38 | every field is stored as given except the shader parameter list, which is stored as null exactly when it is null or empty, so a stored list is never empty |
| GraphicRequests.Equals | Verse/GraphicRequest.cs:63-66 | the field-by-field comparison holds exactly when the two requests are the same value |
| GraphicRequests.EqualsIsEquivalence | Verse/GraphicRequest.cs:63-66 | Equals is reflexive, symmetric and transitive |
| GraphicRequests.OperatorEq | Verse/GraphicRequest.cs:68-71 | `==` holds exactly when the requests are equal |
| GraphicRequests.OperatorNeq | Verse/GraphicRequest.cs:73-76 | `!=` is the negation of `==`, so it holds exactly when the requests differ |
| GraphicRequests.EqualsObject | Verse/GraphicRequest.cs:58-61 | Equals(object) holds exactly for a boxed request equal to this one; null and objects of other types are never equal |
| GraphicRequests.HashInputsInjective | Verse/GraphicRequest.cs:46-55 | the nine values handed to the hash combiner determine the request: two requests give the same inputs exactly when they are equal |
| GraphicRequests.FoldAppend | Verse/GraphicRequest.cs:46-55 | threading the seed through a concatenation continues from where the first part ended |
| GraphicRequests.WithPath | Verse/GraphicRequest.cs:42-45 | after the first step the path is never null; a non-null path is left alone, and only the path can change |
| GraphicRequests.GetHashCode | Verse/GraphicRequest.cs:40-56 | the request left behind is the one with the path filled in, and the hash is the nine fields of that request combined in order from seed 0 |
| GraphicRequests.FoldNine | Verse/GraphicRequest.cs:46-55 | the fold over the nine inputs is the chain of nine combiner calls, in the source's order |
| GraphicRequests.HashRespectsEquals | Verse/GraphicRequest.cs:40-66 | requests equal under Equals hash alike for every combiner, and a request with a null path hashes as the same request carrying the bad-texture path |
| GraphicRequests.HashIsStable | Verse/GraphicRequest.cs:42-45 | filling in the path a second time changes nothing, and the hash of the twice-filled request equals the hash of the once-filled one |
| PatchFindMod.Dispatch | Verse/PatchOperationFindMod.cs:26-37 | found with a match operation: match's Apply result and document; not found with a nomatch operation: nomatch's; in either case without that operation: false and the document untouched |
| PatchFindMod.DispatchAppliesAtMostOne | Verse/PatchOperationFindMod.cs:26-37 | ApplyWorker applies exactly the operation chosen by the search, match when a mod is found and nomatch when none is, and leaves the document untouched when that operation is absent |
| PatchFindMod.PatchOperationFindMod.constructor | Verse/PatchOperationFindMod.cs:9-13 | the mod list and the two nested operations are stored as given |
| PatchFindMod.PatchOperationFindMod.FindFirstLoaded | Verse/PatchOperationFindMod.cs:17-25 | the search finds a mod exactly when some listed identifier is loaded, stopping at the first loaded one; when none is it has looked at the whole list |
| PatchFindMod.PatchOperationFindMod.ApplyWorker | Verse/PatchOperationFindMod.cs:15-38 | the result and document are the dispatch on whether any listed mod is loaded; an empty mod list takes the nomatch branch |
| PatchFindMod.AnyModLoaded | Verse/PatchOperationFindMod.cs:17-25 | no mod is found in an empty list, and a mod is found in a list exactly when its head is loaded or one is found in its tail |
| Caravans.IsOwner | RimWorld.Planet/CaravanUtility.cs:10-18 | a null faction logs the warning and gives false; otherwise the result is true exactly for a humanlike, non-wild pawn of that faction that no faction hosts, and nothing is logged |
| Caravans.GetCaravan | RimWorld.Planet/CaravanUtility.cs:20-23 | the caravan is present exactly when the pawn's parent holder is a caravan, and then it is that caravan |
| Caravans.MembershipFacts | RimWorld.Planet/CaravanUtility.cs:25-34 | a player-controlled member is a member; a member is player-controlled exactly when its caravan is; a pawn held by anything else is neither |
| Caravans.BestGotoDestNear | RimWorld.Planet/CaravanUtility.cs:36-46 | a passable, reachable tile is its own destination; any other answer is -1 or a passable, reachable tile the closest-tile search found |
| Caravans.BestGotoDestNearStable | RimWorld.Planet/CaravanUtility.cs:36-46 | a chosen destination is its own best destination, and a tile is its own destination exactly when it is passable and reachable |
| Caravans.PlayerHasAnyCaravan | RimWorld.Planet/CaravanUtility.cs:48-59 | true exactly when some caravan in the world is player-controlled |
| Caravans.ShouldAutoCaptureFacts | RimWorld.Planet/CaravanUtility.cs:68-71 | a caravan never captures its own owners, a pawn of its own faction, the dead, non-humanlikes or a prisoner it hosts, and captures every other living humanlike of another faction, a prisoner hosted by another faction included: the facts amount to an if-and-only-if |
| Caravans.IsCaravanMember | RimWorld.Planet/CaravanUtility.cs:25-28 | a pawn is a caravan member exactly when its parent holder is a caravan |
| Caravans.IsPlayerControlledCaravanMember | RimWorld.Planet/CaravanUtility.cs:30-34 | a pawn is a player-controlled caravan member exactly when its parent holder is a caravan the player controls |
| Caravans.ShouldAutoCapture | RimWorld.Planet/CaravanUtility.cs:68-71 | a captured pawn is a living humanlike of a faction other than the caravan's, and not a prisoner the caravan's faction already hosts |
| Targetable.BaseTargetValidatorCases | RimWorld/CompTargetable.cs:70-97 | a thing is rejected exactly when a set flag names it: a pawn of no psychic sensitivity, the corpse of a non-flesh pawn, or a desiccated corpse; anything else, and everything when no flag is set, is accepted |
| Targetable.OnOneThing | RimWorld/CompTargetable.cs:58-61 | the inner loop makes exactly one call per effect of the parent |
| Targetable.OnOneThingCalls | RimWorld/CompTargetable.cs:58-61 | on one thing the k-th call is the k-th effect's DoEffectOn on that thing, by the user |
| Targetable.EffectCallsAppend | RimWorld/CompTargetable.cs:56-62 | one more target adds that target's calls at the end |
| Targetable.EffectCallsCover | RimWorld/CompTargetable.cs:56-62 | the nested loops make exactly targets times effects calls, each a DoEffectOn of a listed effect on a listed target, and every (target, effect) pair occurs |
| Targetable.CompTargetable.constructor | RimWorld/CompTargetable.cs:7-22 | a component starts with no target and no calls made |
| Targetable.CompTargetable.SelectedUseOption | RimWorld/CompTargetable.cs:30-43 | the option is taken exactly when the player chooses the target, and then the target waits for the targeter; otherwise the target is cleared |
| Targetable.CompTargetable.TargetChosen | RimWorld/CompTargetable.cs:34-38 | the targeter's callback sets the clicked thing as the target |
| Targetable.CompTargetable.DoEffect | RimWorld/CompTargetable.cs:45-64 | nothing happens when a player-chosen target is missing or a set target can no longer be targeted; otherwise the base effect, then every effect on every target in order, and the target is cleared |
| Targetable.CompTargetable.ApplyEffectsOn | RimWorld/CompTargetable.cs:58-61 | the inner loop appends exactly one thing's calls, in effect order, and keeps the target |
| Targetable.BaseTargetValidator | RimWorld/CompTargetable.cs:70-97 | with no flag set every thing is valid; a pawn with positive psychic sensitivity and a flesh corpse that is not dessicated pass every flag |
| MedicalBills.GiverOf | RimWorld/Bill_Medical.cs:62-78 | the giver pawn is the pawn itself or a corpse's inner pawn; any other bill giver throws "Medical bill on non-pawn." |
| MedicalBills.PartAtIndex | RimWorld/Bill_Medical.cs:39 | resolving a saved index gives the part at that index of the body's part list, and null for an index outside it |
| MedicalBills.IndexOfPart | RimWorld/Bill_Medical.cs:52 | the index saved for a part is its first position in the body's part list, and -1 exactly when the body has no such part |
| MedicalBills.PartIndexRoundTrip | RimWorld/Bill_Medical.cs:37-58 | for every part of the body, resolving the index the setter saved gives back that part |
| MedicalBills.FirstMedicine | RimWorld/Bill_Medical.cs:130-132 | the loop's stopping point is the first placed thing that is medicine, -1 when none is |
| MedicalBills.ConsumeOneTouchesOneEntry | RimWorld/Bill_Medical.cs:134-140 | using one unit touches that entry only: it disappears when destroyed or emptied, otherwise exactly one is taken from its count, and the other entries stay as they were |
| MedicalBills.ConsumeOneAt | RimWorld/Bill_Medical.cs:135-140 | decrementing the entry in place and then removing it when destroyed or emptied is the same placedThings as ConsumeOne |
| MedicalBills.Job.constructor | RimWorld/Bill_Medical.cs:129 | the job holds the placed things it is given |
| MedicalBills.BillMedical.constructor | RimWorld/Bill_Medical.cs:11-15 | a new bill has no stack, no cached part, part index -1 and no consumed medicine |
| MedicalBills.BillMedical.Part | RimWorld/Bill_Medical.cs:35-42 | the getter resolves the saved index into the cache only when nothing is cached and the index is set, throwing for a bill on a non-pawn, and otherwise returns the cache unchanged |
| MedicalBills.BillMedical.SetPart | RimWorld/Bill_Medical.cs:43-59 | without a bill stack it logs the error and changes nothing; with one it stores the part and its index on the giver's body (-1 for null), throwing before any change for a non-null part on a non-pawn |
| MedicalBills.BillMedical.CompletableEver | RimWorld/Bill_Medical.cs:25-31 | always completable when the recipe targets no body part; otherwise exactly when the cached part is among the parts the worker can apply on, throwing on a non-pawn |
| MedicalBills.BillMedical.ShouldDoNow | RimWorld/Bill_Medical.cs:102-105 | the bill is worked on exactly when it is not suspended; Part, SetPart, Notify_IterationCompleted and Notify_DoBillStarted each ensure it is unchanged |
| MedicalBills.OperationEvents | RimWorld/Bill_Medical.cs:110-119 | a completable bill applies the recipe on the giver's part, followed for a flesh giver by both pawns' operation records; an uncompletable one does nothing |
| MedicalBills.BillMedical.NotifyIterationCompleted | RimWorld/Bill_Medical.cs:107-121 | the operation's calls when completable, resolving the part on the way, then always the deletion from the stack; nothing else changes |
| MedicalBills.BillMedical.NotifyDoBillStarted | RimWorld/Bill_Medical.cs:123-145 | the consumed medicine is reset; for a living giver, an anesthetizing recipe and anesthesia that takes, one unit of the first medicine entry is consumed, its def recorded and the entry updated as ConsumeOne; otherwise placed things and calls are untouched |
| Common.ErrorOnceIdempotent | RimWorld/JobGiver_Work.cs:221 | repeating an ErrorOnce with the same key writes nothing more |

## Left out

- Drawing and GUI. This covers `LongEventsOnGUI`, the long-event window, the `Widgets`/`GUI`/`Text` calls in `SimpleCurveDrawer`, tooltips, targeting UI, messages and map mesh updates. The model keeps only the values the drawing code computes: screen points, view rectangles, mark positions and legend cells.
- Threads and scene loading in `LongEventHandler`: the worker thread, its lock, `RunEventFromAnotherThread`, `SetCurrentEventText`, scene loading and the frame time budget. An asynchronous event's completion and an enumerator event's step are inputs. `ShouldWaitForEvent` and `CanApplyUIScaleNow` depend on UI state and are left out.
- Randomness. Examples are `Rand`, the random rounding of a plant's yield (the yield is modelled before rounding), and plant reproduction in `TickLong`. `ShouldTryToTakeScheduledNow` is left out: it draws a seeded random number.
- Floating point. C# `float` is `real`, and Unity's approximate `==` on `Vector2`/`Color` is exact equality. `Mathf.Approximately(x, 0)` is an exact zero test. `Mathf.RoundToInt` is an uninterpreted parameter.
- Division by zero. `CurveToScreenCoordsInsideScreenRect` and `ScreenToCurveCoords` (CurveDrawer.CoordinatesRoundTrip) require non-zero view and rect sizes, because a float division by zero gives infinities that `real` cannot represent. The mark functions require a non-zero view width, which `DrawCurves` itself checks before it draws marks. `Plants.YieldBeforeRounding` and `Plants.HealthFactor` require a positive maximum of hit points, because `Plant.YieldNow` divides by `MaxHitPoints` without checking it (RimWorld/Plant.cs:648); the model says nothing about a plant whose maximum is 0.
- CurveDrawer.CalculateMeasureStartAndInc requires a positive wanted label count, as every caller passes one. `GenMath.AnyIntegerInRange` is not part of this model; it is read as "some integer lies in [min, max]".
- DrugPolicy.HoursPerDayNotSleeping requires a timetable of at least 24 hours, which a pawn's timetable always has. `DrugTakeRecord.cs` is not part of this model, so a record's `TimesTakenThisDay` is a stored count without its day rollover. `DayPercentNotSleeping` is used only by `ShouldTryToTakeScheduledNow` and is left out with it.
- JobGiverWork.GetPriority returns 0 for a pawn without work settings (RimWorld/JobGiver_Work.cs:21). TryIssueJobPackage reads them at line 62, after the forced-work block may already have returned (line 57). The model gives the NullReferenceException there as the `NullWorkSettingsThrown` result and does not model its propagation.
- `JobOnThing` and `JobOnCell` never throw in the model. In TryIssueJobPackage they are called outside the per-giver try block (RimWorld/JobGiver_Work.cs:214-219), so a throw there would leave the node. In GiverTryGiveJobPrioritized they are inside the try (lines 269 and 277), so a throw there would be logged and give null after `lastGivenWorkType` was set; that path is not modelled.
- JobGiverWork.TryGiveTargeted: a thing-scan fault raises its exception at the first thing on the cell and a cell-scan fault at the cell test. A throw from `Accepts` or `HasJobOnThing` at a later thing, after earlier things were examined, is not distinguished.
- `WorkTagIsDisabled`, `ShouldSkip`, `MissingRequiredCapacity`, the closest-thing and closest-cell searches, and reachability are world queries given as parameters.
- MedicalBills.BillMedical.NotifyIterationCompleted and MedicalBills.BillMedical.NotifyDoBillStarted require the bill to sit on a pawn's or corpse's bill stack. On any other giver the source throws "Medical bill on non-pawn." (modelled for the other members by `GiverOf`), and that throwing path is not modelled for these two.
- `HealthUtility.TryAnesthetize` is an input. Whether a thing is destroyed after `SplitOff(1)` is an oracle. The base `Bill` and `CompUseEffect` calls are left out.
- The body part list lookups of `BodyDef` are modelled on a list of parts, and `BodyDef` itself is not part of this model. `CompUsable.TryStartUseJob` is left out of the targeting callback.
- `GenWorldClosest.TryFindClosestTile` is a parameter of `BestGotoDestNear`. `Pawn.NonHumanlikeOrWildMan` is an input. `RandomOwner` is random and left out.
- `Gen.HashCombine` is a parameter, and `BaseContent.BadTexPath` is a parameter. `GetHashCode` writing the path back into the struct is modelled by returning the updated request.
- Translation (`Translate`) used for outfit labels is a parameter. Save and load (`ExposeData`, `Scribe`) are left out everywhere.
- LongEvents.DrainedKeepsSlot, LongEvents.DrainedEffect, LongEvents.RunFinishEffect, LongEvents.RunFinishFrame and LongEvents.UpdateFillsSlot hold for actions that can only register finish actions (`Action(id, spawns, throws)`). An action that queues or clears long events, or changes the current event, while it runs is not modelled. These lemmas say nothing about such actions.
- GraphicRequests.HashRespectsEquals holds because equality of colours and sizes is exact in the model. Unity's `==` on `Color` and `Vector2` is approximate, while `HashCombineStruct` hashes the exact components. So two requests that are equal in the source can hash differently, and the model cannot show that.
- Outfits.IsApparel reads membership of the Apparel thing category as "the def has apparel properties" (`apparel != null`). The category tree of `ThingCategoryDef` is not part of this model.
- Plants.Plant.TakeDamage stands in for `Thing.TakeDamage`. It subtracts the amount from the hit points and destroys the plant at zero or below. Damage info, armour and notifications are left out.
- MedicalBills.BillMedical.NotifyDoBillStarted records the id of the placed medicine in its `ConsumeIngredient` event. The source consumes `SplitOff(1)`, which is a new thing when the stack holds more than one (RimWorld/Bill_Medical.cs:134). The event does not tell the two apart.
- MedicalBills.GiverOf: a corpse's inner pawn is never null in the model. `Corpse.InnerPawn` being null is not modelled.
- Plant glow interpolation and the growth per tick computation are inputs to the plant's long tick.
- SituationalThoughts.TryCreateThought and SituationalThoughts.TryCreateSocialThought do not model their catch (RimWorld/SituationalThoughtHandler.cs:298-309 and 333-344). In the source, an exception from `CanGetThought`, the worker's state or `RecalculateState` is logged as "Exception while recalculating … thought state for pawn …". The thought, once made, is still returned. The model's thought workers never throw.
- Dictionary and hash set iteration order in `SituationalThoughtHandler` is unspecified, so the model proves its results for any order. Thoughts are values, since no thought is shared between entries.
- The try/finally in `CheckRecalculateMoodThoughts` has no catch, so no exception behaviour is modelled there.

## Findings

| source | as written | input that shows it | evidently intended | confidence | as-written member | corrected member |
|---|---|---|---|---|---|---|
| Verse/SimpleCurveDrawer.cs:424-435 | the mark loop increments `i` both in its body and in its header, so every odd-indexed mark is skipped and every mark drawn lands in the top row | rect (0, 0, 100, 15), view (0, 0, 10, 10), marks at x = 1 and x = 2: only the first mark is drawn | every mark inside the view's x range is drawn, alternating between the top and bottom row by index | not executed | CurveDrawer.OddMarkSkipped | CurveDrawer.MarksIntendedFacts |
