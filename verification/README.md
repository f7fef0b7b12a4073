# dstore, modelled in Dafny

dstore is a content-addressed store spread over many nodes. References live in registers that the
voters agree on by CASPaxos (arXiv 1802.07000), objects live at owners chosen by weighted
rendezvous ranking, and a cluster-wide mark and sweep removes what no reference reaches. This project
models the parts of dstore whose guarantees span several steps or several nodes, and proves them.

The modules follow the program:

- `Ballots`, `Registers`, `Caspaxos`, `Agreement`, `Acceptor`, `AcceptorSteps`, `Proposer`, `Catalog`,
  `Scan`, `Snapshot`: the registers of one view. Acceptors are state, the network is a set of messages that
  may be lost, duplicated or reordered, and theorems are about every run. `Amnesia` lets acceptors
  lose their disks.
- `VoterChange`, `VoterRuns`, `CatalogChanges`, `VoterViews`, `StaleHolders`: registers across changes
  of the voter set, one voter at a time, with purges, what references mean then, and the view writes of
  whoever holds the change.
- `GcMark`, `GcWorker`, `GcTermination`, `GcSafety`, `GcRepair`, `GcCache`, `GcSnapshot`, `GcWhole`: the
  distributed mark, the polls that detect its end, why a sweep never takes a referenced key and where that
  ends, the snapshot's fence, and mark and sweep put together.
- `Log2`, `Placement`, `Movement`: the fixed-point logarithm, the ranking with zones, and what a
  change of members moves.
- `Gate`: the walk that decides whether a reference may be written.
- `Transition`, `FairPasses`: a placement transition: adopt, freeze, pass, commit, the deferral rule,
  and when every pass ends.
- `Trees`, `Apply`, `Merge`, `Working`: tree difference, the applier and the three-way merge.
- `Fetch`, `Watch`, `Glob`, `GlobText`: the fetch scheduler, the reference watch, the glob compiler and the
  texts it reads.
- `Options`: the option type of all of them.

An object that the program updates in place is a class whose methods are proved against functions on
values; the lemmas are about those functions. Concurrent parts are state machines over their steps.

Some properties do not hold without a condition. For each there is a lemma with an input or a run that
breaks it, and lemmas that give the condition:

- Purges and voter changes together can revive a deleted value or lose a chosen one. A run is safe when
  an acceptor that is added again holds no row, no accept that passed its gate before an acceptor was
  dropped lands after it came back, a ballot used under later voters is above every ballot purged
  under earlier ones, and a purge is sent only when every voter asked has answered
  (`VoterChange.AgreementAcrossVoterChanges`, `VoterChange.PurgeNeverResurrectsAcrossChanges`). None of the
  four can be spared (`VoterRuns.OldRowRevives`, `VoterRuns.LateLandingRevives`, `VoterRuns.LowBallotLoses`,
  `VoterRuns.EarlyPurgeRevives`), and settling revives exactly when an old row is left
  (`VoterRuns.SettlingRevivesIff`).
- The code does not meet the fourth by itself: a tombstone is purged when as many voters answered as the
  view has now, although the view before was asked (`Catalog.TryPurge`, `CatalogChanges.TryPurgeIsStep`).
  So a purge goes out early only when a voter was removed meanwhile, and then it can
  (`VoterChange.EarlyOnlyWhenShrunk`, `Catalog.ShrunkViewPurgesEarly`); that alone brings the deleted value
  back.
- The last write of a voter sync, and the write of its cursor, do not check that the change in the view
  is the one that was synced. Where they do land on it, every voter change waits for the registers
  (`VoterViews.ChangesWaitForSync`, with `Lands` as the test the callback could make). A last write that
  does not land opens the next change while registers are unsettled, and a cursor that does not land makes
  the next holder leave them out (`VoterViews.FinishOpensChange`, `VoterViews.CursorIsResumed`); a holder that
  was overtaken gets there (`StaleHolders.StaleFinish`, `StaleHolders.StaleCursor`).
- An acceptor that lost its disk takes accepts. Agreement survives when it takes none below a promise it
  forgot (`Amnesia.AgreementSurvives`), and can fail otherwise (`Amnesia.ForgottenPromiseLoses`).
- What was put is held through the sweeps of the epoch under way and the next, and a sweep spares the good
  copies below committed references (`GcSafety.PutSurvives`, `GcSafety.SweepSparesReferenced`), unless the copy
  was corrupt when it was put over or when the gate came by: the sweep still has the pack number of the
  corrupt record, and in every configuration there is a run in which it may take the repaired one
  (`GcSafety.RepairedMayGo`, `GcRepair.RepairedCopyGoes`). What a sweep may take is given exactly by
  `GcSafety.SweepMayRemoveIff`.
- A walk does not look below an entry that is fresh in its cache, and stamps it anew all the same
  (`Gate.Gatekeeper.WalkComplete`), so what lies below may have been found, and pinned, any time before. Such a key
  is safe under the new reference while the finding is no older than the collection interval less a barrier's
  delay (`GcCache.SweepSparesBorrowed`); for every age from six clock ticks beyond that a run exists in which
  the sweep may take it (`GcCache.OldFindingGoes`).
- `BumpBallot` hands out a fresh counter only after `NextBallot` was called since the restart
  (`BallotCounter.BumpIsFreshIff`, `BallotCounter.BumpAfterRestartReuses`).
- A participant's report is written without checking the round. A node that finishes an earlier
  round late counts as done in the new one without having reported its primary keys, and a lower-ranked
  node then waits for it until its delay has passed. Where that has not happened every fair run ends,
  however many packs come in (`FairPasses.EveryPassEnds`). Without delays a node is done at some time
  exactly when it never has a pack to do with a key that such a node ranks above it for
  (`FairPasses.DoneIffNeverBlocked`), and a late report leads there (`FairPasses.StaleReportBlocksForGood`).
- Merge takes an incoming retype of a directory over a local change of the directory's metadata, and what
  was added locally below is cleared away (`Merge.MergeExact`, `Merge.RetypeOverMetadata`). Adding a name
  moves the directory's modification time, which is such a change, so the conflict that is meant to stop
  this is only reported for additions deeper down (`Merge.RetypeVerdict`).
- A listing with a prefix and a cursor starts at the cursor. It names only what has the prefix exactly
  when no name lies between the two (`Scan.OnlyPrefixIff`).
- Hints of a watch may come in any order and any number of times (`Watch.HintsCommute`), but a deletion is
  remembered only up to the next reconcile, and after that a delayed older put is taken
  (`Watch.DelayedPutIsTaken`).
- A watch frame that deletes a name and creates it again is folded as set, then delete
  (`Watch.FrameFoldsIff`, `Watch.RecreatedIsLost`).

Where the code and its comments disagree the model follows the code: `Log2Fix` truncates at every
step, so its result is bounded from both sides instead of being the exact floor; a glob's `**` at the end
of a pattern takes one or more segments, not zero or more; re-applying a list of changes is reported
as an error when a deleted path lies below something that replaced a directory two or more levels up.

## Model

| member | source | states |
|---|---|---|
| Ballots.ParseOfBytes | paxos/ballot.go:44-66 | reading the bytes of a ballot gives the ballot back |
| Ballots.BytesOfParse | paxos/ballot.go:44-66 | writing a parsed ballot gives the bytes back, the empty string standing for the zero ballot |
| Ballots.BytesOrder | paxos/ballot.go:29-52 | the byte strings compare as the ballots do |
| Ballots.CodeOrder | paxos/ballot.go:17-40 | counter and proposer as one number order exactly as Compare, which is what the protocol modules use |
| Slots.HandlersKeep | paxos/acceptor.go:328-491 | prepare, accept and purge keep accepted at or below promised and never lower a promise, floor included; a grant needs a higher ballot to promise and an equal one to accept, a conflict changes nothing, and an accepted ballot goes only by its own purge |
| Quorums.QuorumsMeet | view/view.go:271-272 | two majorities of one voter set share a voter |
| Quorums.AdjacentQuorumsMeet | view/view.go:271-272 | a majority of a voter set meets every majority of a set that differs by one voter |
| AcceptorNode.Acceptor.HandlePrepare | paxos/acceptor.go:264-354 | a vote comes exactly when the installed view is of the request's incarnation and epoch, the voter is not retired and its marker, if it is a voter, names the epoch that added it; another marker answers amnesiac, a newer view is sent back, an older or none asks for one; the vote is by the register rules and every other register is untouched |
| AcceptorNode.Acceptor.HandleAccept | paxos/acceptor.go:356-395 | the same gate but for the marker: accepts are taken by the register rules also while amnesiac; after the deadline they are refused |
| AcceptorNode.Acceptor.HandleRead | paxos/acceptor.go:397-408 | behind the gate of a prepare, reports the row as it is, changing nothing |
| AcceptorNode.Acceptor.HandlePurge | paxos/acceptor.go:454-491 | removes only a row accepted exactly at the ballot, and raises the floor over every register |
| AcceptorNode.Acceptor.SetMarker | paxos/acceptor.go:134-146 | the marker names the epoch that added this voter |
| AcceptorNode.Acceptor.Install | paxos/acceptor.go:149-197 | installs only newer views; a dropped voter retires and wipes its rows |
| AcceptorSteps.PrepareStep | paxos/acceptor.go:286-354 | a prepare handled by the acceptor object is the machine's step at the request's voter set exactly when it is answered by a vote, and a promise it sends is the machine's message; a marked voter that is not retired does answer at its epoch |
| AcceptorSteps.AcceptStep | paxos/acceptor.go:356-395 | a handled accept is the machine's step, and its acknowledgement the machine's |
| AcceptorSteps.ReadStep | paxos/acceptor.go:397-408 | a row that is read is one the machine says is held |
| AcceptorSteps.PurgeStep | paxos/acceptor.go:454-491 | a handled purge is the machine's step at its register and at most a rise of the floor at every other |
| AcceptorSteps.InstallStep | paxos/acceptor.go:149-197 | installing a view of a later voter set is the machine's step, and an older view changes nothing |
| AcceptorSteps.StaleViewIsAdopted | paxos/acceptor.go:286-312 | the view sent with a refusal is the one the proposer goes on with exactly when it is newer than its own |
| AcceptorSteps.PrepareOrRefuse | paxos/acceptor.go:313-354 | an acceptor refuses as amnesiac exactly when it lost its disk in the machine with lost disks, and else its vote is a step there |
| AcceptorSteps.AcceptEitherWay | paxos/acceptor.go:356-395 | it takes accepts either way, each a step of that machine |
| BallotCounter.NextIsFresh | node/node.go:407-421 | a counter from NextBallot was never handed out, across restarts |
| BallotCounter.BumpIsFreshIff | node/node.go:424-436 | BumpBallot keeps later counters fresh exactly when a NextBallot came since the restart or the bump is above all that was reserved |
| BallotCounter.BumpAfterRestartReuses | node/node.go:424-436 | a bump first thing after a restart lets a counter be handed out twice |
| BallotCounter.Ballots.NextBallot | node/node.go:407-421 | the counter handed out is above all before, and the reservation is on disk before it is used |
| BallotCounter.Ballots.BumpBallot | node/node.go:424-436 | later counters are above the given one, and stay above all handed out when NextBallot came since the restart or the bump passes the reservation |
| BallotCounter.Ballots.BallotAbove | paxos/proposer.go:332-351 | a fresh ballot above the one seen |
| Caspaxos.StepKeeps | paxos/acceptor.go:328-491 | every step of the register machine keeps that proposals come from a quorum's highest row, acks are remembered until purged, and purged ballots were tombstones at every voter |
| Agreement.LaterProposalsStartAbove | paxos/proposer.go:249-425 | above a chosen ballot every proposal was computed from a row accepted at or above it, or after its purge |
| Agreement.ChosenIsAncestor | paxos/proposer.go:372-425 | a chosen proposal is an ancestor of every later proposal |
| Agreement.ChosenFormAChain | paxos/proposer.go:249-425 | of any two proposals chosen anywhere in a run the lower is an ancestor of the higher |
| Agreement.PurgeNeverResurrects | paxos/acceptor.go:454-491 | after a purge is sent nothing older is held, accepted, proposed from or newly chosen, whatever purges are lost |
| Agreement.FastReadIsDecided | paxos/proposer.go:466-503 | a read that does not settle returns a chosen value no older than anything chosen before it began, or the earlier one was purged |
| Agreement.UnflaggedScanRowIsDecided | paxos/proposer.go:515-597 | a row the scan does not flag is chosen, and proposals made before the scan are its ancestors or can never be chosen |
| Agreement.SettleDecides | paxos/proposer.go:455-461 | a proposal prepared after a point and chosen decides the register and fences everything proposed before that point; an identity transition decides the value its prepare found |
| Agreement.AbsentScanRowIsPurged | catalog/catalog.go:399-431 | a register in no reply holds nothing but what was purged |
| Proposer.Prepare | paxos/proposer.go:249-285 | the highest accepted row of a quorum of promises at the round's own epoch, or which reply or lack of promises ended the phase |
| Proposer.TryOnce | paxos/proposer.go:372-425 | one attempt: a result its two phases bear out, or the stale or conflicting reply that asks for another |
| Proposer.Accept | paxos/proposer.go:288-321 | committed on a quorum of acks; unknown when some came but all of them are too few; each other outcome names its reply |
| Proposer.Propose | paxos/proposer.go:332-425 | the answer is backed by the last attempt's two phases; every attempt is at a view no older and a ballot above what each earlier one was given up for; a refusal names a row re-accepted, absent, or with its re-accept open |
| Proposer.PreparedEnablesPropose | paxos/proposer.go:249-285 | what the prepare loop returns is a start the register machine allows |
| Catalog.ChangesAreStamped | catalog/catalog.go:247-341 | a put or delete that commits carries its own ballot as version, and a named version was the one replaced |
| Catalog.PutExactly | catalog/catalog.go:200-286 | a put commits exactly when forced, unconditional, or its named version, else its named key, is the present one, nothing named standing for absent; otherwise it is done already exactly when the same record is there |
| Catalog.DeleteExactly | catalog/catalog.go:200-341 | the same for a delete, which over an absent name is always done already |
| Catalog.VersionBound | catalog/catalog.go:247-341 | no value's version is above the ballot it was proposed at |
| Catalog.VersionsNeverFall | catalog/catalog.go:247-341 | along a reference's history versions never fall, equal versions are the same value, and a write is strictly newer, across put, delete, purge and recreate |
| Catalog.NoLostUpdate | catalog/catalog.go:200-238 | of all writes that replaced one version at most one is ever chosen |
| Catalog.NoLostKeyedUpdate | catalog/catalog.go:200-238 | what was chosen below a write over a value with the key it names is no newer than that value, and if as new has that key |
| Catalog.TryPurge | catalog/catalog.go:345-358 | the purge is sent exactly when at least as many answered as the view now has voters and all at the tombstone's ballot; when as many were asked, that is when every voter holds it |
| Catalog.ShrunkViewPurgesEarly | catalog/catalog.go:345-358 | when a voter was removed meanwhile, TryPurge can send the purge although a voter that stays did not answer; VoterRuns.EarlyPurgeRevives shows what comes of it |
| Catalog.PurgeMayBeSent | catalog/catalog.go:345-358 | answers gathered at different times still justify the purge |
| Scan.RangeIsPrefix | paxos/acceptor.go:418-425 | a scan that starts inside the prefix ranges over the names with the prefix above the cursor, but for those going on with four bytes of all ones |
| Scan.OnlyPrefixIff | catalog/catalog.go:369-374 | a listing ranges over names with the prefix only exactly when nothing lies between its cursor and the prefix |
| Scan.RangeOfAll | paxos/acceptor.go:418-425 | a scan without a prefix ranges over all names above the cursor but those that begin with a byte of all ones |
| Scan.AcceptorPage | paxos/acceptor.go:410-450 | a page holds every row of the range up to its next, in order, within the row limit, and is cut short only when the row or the byte limit is reached |
| Scan.FoldIsHighest | paxos/proposer.go:541-580 | merging replies keeps the highest accepted row of each register |
| Scan.UnflaggedIffUnanimous | paxos/proposer.go:541-597 | a register is left unflagged exactly when every reply has it at one ballot with no higher promise |
| Scan.MergePages | paxos/proposer.go:541-597 | one round of pages cut at the smallest next, sorted, one row per register |
| Scan.RoundFold | paxos/proposer.go:541-597 | up to the cut a round of pages merges like the whole tables |
| Scan.CursorRises | paxos/proposer.go:541-597 | the cursor strictly rises from page to page |
| Scan.ScanToEnd | paxos/proposer.go:515-597 | paging to the end lists each register of any reply in the prefix's range exactly once, in order, with its highest row |
| Snapshot.SnapshotIsDecided | catalog/catalog.go:399-431 | every register the snapshot lists is decided at the listed value and fences what was proposed before; one it does not list held nothing but what was purged; listed are exactly the decided values that are no tombstones |
| Snapshot.LaterValuesAreNewer | catalog/catalog.go:399-431 | however a run goes on, what is chosen above the listed ballot was proposed after the snapshot began, and what is chosen below is its ancestor |
| Amnesia.AgreementSurvives | paxos/acceptor.go:286-326 | with acceptors losing their disks at any time, agreement holds in every run whose wiped acceptors take no accept below a promise they lost |
| Amnesia.ForgottenPromiseLoses | paxos/acceptor.go:356-395 | without that, one lost disk lets two proposals be chosen of which the later knows nothing of the earlier |
| VoterChange.StepKeeps | node/maintenance.go:590-623 | every step of the register machine with voter changes and purges, sent on as many answers as the later view has voters, keeps the facts below where the run is clean or sends no purge |
| VoterChange.EarlyOnlyWhenShrunk | catalog/catalog.go:345-358 | a purge is sent before every voter asked has answered only when the view in force by then has fewer voters |
| VoterChange.GenerationsAreOrdered | node/maintenance.go:590-623 | a ballot prepared under later voters is above every ballot prepared under earlier ones |
| VoterChange.BlankMeansPurged | node/maintenance.go:852-899 | what was proposed under earlier voters of a register that a scan under the new ones does not list is at or below a purged ballot |
| VoterChange.ChosenInTime | paxos/acceptor.go:286-326 | a proposal made after a purge under later voters is never chosen |
| VoterChange.LaterProposalsStartAbove | paxos/acceptor.go:286-326 | a value chosen under any voters is seen by every later prepare, or was purged, however many changes lie between |
| VoterChange.AgreementAcrossVoterChanges | node/maintenance.go:692-829 | of any two proposals chosen in a run without purges, or with purges and clean steps, the lower is an ancestor of the higher, under whatever voters |
| VoterChange.PurgeNeverResurrectsAcrossChanges | paxos/acceptor.go:454-491 | after a purge under some voters of a clean run nothing older is held, proposed from or newly accepted under those or later voters, whatever purges are lost |
| VoterChange.SyncCarriesOver | node/maintenance.go:852-899 | when the sync is done every earlier chosen value has a descendant that a majority of the new voters accepted, or was purged |
| VoterRuns.RoundFinds | paxos/proposer.go:249-321 | in every reachable state a quorum without higher promises lets a ballot be chosen, starting from exactly the highest row one of them holds |
| VoterRuns.SettlingRevivesIff | node/maintenance.go:852-899 | where a purge emptied the rest of a quorum, settling revives the deleted value exactly when the last acceptor holds a row below the purged ballot |
| VoterRuns.OldRowRevives | paxos/acceptor.go:149-197 | with the other three conditions met, an acceptor that comes back with a row revives a deleted value |
| VoterRuns.LateLandingRevives | paxos/acceptor.go:356-395 | with the other three met, an accept that lands late revives a deleted value |
| VoterRuns.LowBallotLoses | paxos/acceptor.go:454-491 | with the other three met, a write chosen below a purged ballot is lost, since an added voter has not the floors of the others |
| VoterRuns.EarlyPurgeRevives | catalog/catalog.go:345-358 | with the other three met, a purge sent on three answers of four voters, one of the three removed meanwhile, brings the deleted value back |
| CatalogChanges.VersionsNeverFall | catalog/catalog.go:247-341 | under whatever voters, of two chosen proposals of a good run the later has no lower version, an equal version is the same value, a write is strictly newer, and absence means a purge |
| CatalogChanges.NoLostUpdate | catalog/catalog.go:200-238 | under whatever voters, of all writes that replaced one version at most one is ever chosen, and nothing newer was below it |
| CatalogChanges.NoLostKeyedUpdate | catalog/catalog.go:200-238 | the same for writes that name a key, under whatever voters |
| CatalogChanges.TryPurgeIsStep | catalog/catalog.go:345-358 | whenever TryPurge sends a purge the register machine may, and the step is clean exactly when as many answered as were asked |
| VoterViews.ChangesByOne | node/maintenance.go:590-623 | adding or removing moves the voters by one, starts an epoch, needs a finished sync, and leaves enough to tell the old voters |
| VoterViews.ChangesWaitForSync | node/maintenance.go:692-829 | in every run of the holders' view writes that land on the change they synced, the voter sets move by one and each change but the first waits until every register was settled under the voters it changes |
| VoterViews.FinishOpensChange | node/maintenance.go:815-820 | the last write of a sync opens the next change at once; that comes too early exactly when a register is unsettled by then, which cannot be when the write lands on the change that was synced |
| VoterViews.CursorIsResumed | node/maintenance.go:885-893 | whoever resumes after a cursor was written starts above every register below it and its own last write lands, which is right exactly when those were settled; when the cursor lands they were |
| VoterViews.RegistersAgree | node/maintenance.go:692-829 | in such runs every register agrees, under whatever voters, by the register machine's own steps |
| StaleHolders.StaleFinish | node/maintenance.go:815-820 | the last write of a holder that was overtaken lets a change be made before the registers are settled |
| StaleHolders.StaleCursor | node/maintenance.go:885-893 | so does its cursor |
| VoterViews.SyncRegisters | node/maintenance.go:852-899 | succeeds exactly when every listed register but the view's could be settled; the cursor covers only settled pages |
| GcMark.StepKeeps | node/gc.go:240-503 | every step of the mark keeps that each reached key is done, queued, being forwarded or in a batch not yet taken, and that totals count batches exactly |
| GcMark.EqualSums | node/gc.go:1104-1169 | rising counters whose sums agree did not move |
| GcWorker.WorkerOf | node/gc.go:310-317 | the worker of a key is the first acked node of its read order |
| GcWorker.MarkState.HandleKeys | node/gc.go:240-273 | a batch is taken once per sender and number; a duplicate changes nothing |
| GcWorker.MarkState.DeliverKey | node/gc.go:357-376 | each acked owner but this node gets the key, and the own sweepable copy is marked |
| GcWorker.MarkState.Process | node/gc.go:379-412 | a leaf ends, a foreign key is forwarded once, an own interior key is visited once |
| GcWorker.MarkState.Fetched | node/gc.go:415-435 | the children are queued, or the key is reported missing |
| GcWorker.MarkState.Take | node/gc.go:337-344 | at most 256 keys leave the queue together and count as busy |
| GcWorker.MarkState.NextFor | node/gc.go:448-477 | the next numbered batch for a target, expansions first, or its entry is closed when nothing is left |
| GcTermination.PollsDetectTermination | node/gc.go:1104-1169 | two polls with idle workers, equal totals and sent equal to received prove that nothing was queued or in flight between them |
| GcTermination.QuietMarksEverything | node/gc.go:321-503 | at rest with nothing missing every reachable key is marked at each acked owner that holds it sweepable |
| GcTermination.AcceptedMarkIsComplete | node/gc.go:275-297 | the mark the coordinator accepts is complete from then on |
| GcStore.NodeStore.PinKeys | node/node.go:645-657 | the keys' tails are stamped with the current barrier number, all others keep theirs |
| GcStore.NodeStore.LocalMissing | node/data.go:49-83 | every key is reported once, present or lacking, a corrupt one as lacking, and the present are pinned when asked |
| GcStore.NodeStore.StoreBatch | node/data.go:397-437 | records already held are pinned, the others written to the active pack and no longer corrupt |
| GcStore.NodeStore.HandleBarrier | node/gc.go:144-167 | the next number records the active pack; a barrier too soon after the last changes nothing |
| GcStore.NodeStore.DropPinsBelow | node/gc.go:778-790 | exactly the pins below the number go |
| GcSafety.StepKeeps | node/gc.go:144-182 | every step, a gate's requests one by one included, keeps that a key a gate found good is pinned since the gate or in a pack at or above the gate's barrier |
| GcSafety.LateGateIsRecent | node/refs.go:125-178 | a reference proposed after the snapshot began was gated at the previous barrier or later |
| GcSafety.ReferencedIsLive | node/gc.go:677-709 | a copy owned under the mark and below a committed reference that was a root, or whose gate found the copy good and it stayed so, is live for the sweep |
| GcSafety.SweepSparesReferenced | node/gc.go:712-775 | in every run no sweep removes such a copy |
| GcSafety.SweepMayRemoveIff | node/gc.go:677-709 | in every reachable state a sweep may remove a set of keys exactly when each is corrupt, or was listed in a pack below the previous barrier's, is not pinned since, and is either owned under the mark, unmarked and without overflow, or owned neither then nor now and of a settled pack |
| GcSafety.MarkLists | node/gc.go:205-223 | the mark lists exactly the records in packs below the latest barrier's, each with its pack |
| GcSafety.SweepLeaves | node/gc.go:712-790 | a sweep leaves every record but the dead, in its pack or the active one, and exactly the pins of the last two barriers |
| GcSafety.SweepSparesCurrent | node/gc.go:697-709 | in every run a good copy not owned under the mark is held after the sweep if it is owned now or its pack is not settled, an owned one after an overflow, and one the mark did not list always |
| GcSafety.PutSurvives | node/data.go:397-437 | in every run what was put is held through all sweeps of the epoch under way and of the next, unless corrupted, or put over a corrupt record the mark had listed |
| GcSafety.RepairedMayGo | node/gc.go:677-709 | in that exception the next sweep may take the record just written |
| GcRepair.RepairedCopyGoes | node/gc.go:677-709 | in every configuration that leaves time for the steps a run exists in which the sweep may take a good copy below a committed reference, repaired after the reference's gate found it corrupt |
| GcCache.BorrowedIsLive | node/refs.go:245-252 | a copy below a committed reference that any gate found good, at most the collection interval less a barrier's delay before the proposal, and that stayed good, is live for the sweep |
| GcCache.SweepSparesBorrowed | node/refs.go:245-252 | in every run no sweep removes such a copy |
| GcCache.OldFindingGoes | node/refs.go:306-319 | for every age from six ticks beyond that bound a run exists in which a committed reference rests on a finding of that age and the sweep may take the copy, good all the time |
| GcSnapshot.HeldIsListedOrNew | catalog/catalog.go:399-431 | whatever a register holds in any later state is what the snapshot listed or was written by a proposal made after it began, settles and purges included |
| GcSnapshot.CommitsAreFenced | node/gc.go:1032-1055 | so, in the collection's time, a commit after the snapshot is one its machine allows: a reference that replaces a root, or of a register not listed, is newer than the snapshot |
| GcWhole.AcceptedMarkFinishes | node/gc.go:275-297 | a mark that the coordinator accepts from the polls is complete for the sweep |
| GcWhole.CollectionSparesReferenced | node/gc.go:712-775 | in every run whose marks were accepted that way no sweep removes a copy owned under the mark below a committed reference, if the reference was a root or its gate found the copy good and it stayed so |
| Log2.Log2Fix | placement/placement.go:64-81 | the 64-bit loop computes the truncated logarithm; no word loses its top bit and none carries over |
| Log2.SquareIsNormal | placement/placement.go:71-79 | the mantissa keeps bit 63 through every step |
| Log2.Log2Bounds | placement/placement.go:64-81 | with y the result, 2^y <= x^(2^32) < 2^(y+2) for every x below 2^64 |
| Log2.Log2Monotone | placement/placement.go:64-81 | a larger argument never gives a smaller logarithm |
| Log2.L | placement/placement.go:85-91 | with l the term and n = h + 1, 2^(2^38 - l) <= n^(2^32) < 2^(2^38 - l + 2), l is at most 2^38, and it is 0 only for the all-ones hash |
| Log2.LRange | placement/placement.go:85-91 | the term lies between 0 and 2^38 and is 0 only for the all-ones hash |
| Log2.LFalls | placement/placement.go:85-91 | a larger hash never scores worse |
| Placement.LessIsCross | placement/placement.go:101-111 | comparing two words each is comparing the products weight times L, ties by id |
| Placement.BeforeMeans | placement/placement.go:101-123 | the ranking on the fields: weight per L, then id; no weight ranks last, by id |
| Placement.BeforeIsAsymmetric | placement/placement.go:101-123 | two members with different ids are ranked one way only |
| Placement.BeforeTransitive | placement/placement.go:101-123 | ranking is transitive, so with distinct ids a strict total order |
| Placement.SortIndices | placement/placement.go:158-164 | the indices sorted by ranking, none lost or doubled |
| Placement.Rank | placement/placement.go:145-166 | every member once, each ranked by weight per L on the fields, those without weight behind by id |
| Placement.RankingIsUnique | placement/placement.go:145-166 | there is one ranking of a set of members |
| Placement.RankIgnoresInputOrder | placement/placement.go:145-166 | the ranking does not depend on the order members are listed in |
| Placement.Owners | placement/placement.go:171-194 | on the fields: the first r along the ranking of the weighted members that lead their zone; no two owners have one nonempty zone, and a member without a zone stands for itself |
| Placement.PickAreOwners | placement/placement.go:171-194 | the loop's choice is the first r leaders of their zones, for every ranking and r |
| Placement.OwnersAreUnique | placement/placement.go:171-194 | no other list is |
| Movement.PickedAreOwners | placement/placement.go:171-194 | owners are weighted members with zones of their own, at most r of them |
| Movement.ShortOnlyWithoutZones | placement/placement.go:171-194 | fewer than r owners only when every weighted member shares its zone with one of them, zone fields compared |
| Movement.AddingMovesOnlyToTheNode | placement/placement.go:171-194 | after a node is added every owner is that node or was an owner before, zones included |
| Movement.RaisingMovesOnlyToTheNode | placement/placement.go:171-194 | the same when a node's weight is raised |
| Movement.ValidateChange | view/view.go:448-469 | a change is admitted exactly when forced, without replicas, or dropping fewer than R weighted nodes |
| Movement.DroppedMeans | view/view.go:448-469 | dropped are the weighted members the target does not list with weight |
| Movement.AdmittedKeepsAnOwner | view/view.go:448-469 | an admitted change leaves every slot with R owners one that the target lists with weight |
| Movement.MergeIds | view/view.go:343-378 | the current list first, then what only the pending list has, nothing twice |
| Gate.NegotiateComplete | node/refs.go:333-398 | every owner of a key is asked about it, and a key is short exactly when under nodes or under pending.nodes no set of as many owners as the smaller of minR and their number has each answered a question about the key without naming it lacking |
| Gate.CountIsEnough | node/refs.go:370-398 | the count of owners that have a key reaches the minimum exactly when such a set of owners exists; a failed owner is in none |
| Gate.Admit | node/refs.go:235-253 | each key is checked once; interior objects not fresh in the cache are fetched |
| Gate.Expand | node/refs.go:254-298 | the children of every fetched object are next, unread keys are remembered, a refused object ends the walk |
| Gate.Flush | node/refs.go:208-233 | a key that could not be read but is held ends the walk, short keys are counted and sampled |
| Gate.Walk | node/refs.go:196-323 | a finished walk negotiated exactly the keys it saw, all reachable from the root |
| Gate.WalkCovers | node/refs.go:196-323 | with nothing short, every reachable key was found held or lies below a cached entry found held |
| Gate.Gatekeeper.WalkComplete | node/refs.go:196-323 | success means that for every key below the root so many distinct owners answered that they have it, now or, below a fresh cache entry, to an earlier walk; each refusal and error is justified by a key; the cache keeps its meaning, and every interior object asked about is stamped anew, those not looked below included |
| Pass.RankAmong | node/reconcile.go:510-522 | the position among participating owners and the participants above |
| Pass.ReadyIff | node/reconcile.go:510-566 | a key may be forwarded exactly when this node is no participating owner, its share of the delay has passed, or every participating owner before it in the order has reported |
| Pass.HandledMeans | node/reconcile.go:541-594 | which keys of a pack are offered and to whom: pending owners that are new, and the current ones too unless the pack is settled |
| Pass.GroupPack | node/reconcile.go:541-594 | each live key ready to forward is grouped under exactly its targets; some key waiting defers the pack |
| Pass.ReconcilePack | node/reconcile.go:526-600 | the offers made are exactly those keys at those targets |
| Pass.Participant.TransitionStep | node/reconcile.go:413-492 | one step: at most one pack finished, primary_done when all that is left waits, then the cover pass, then done |
| Transition.VisitForwards | node/reconcile.go:526-600 | a pack with nothing to wait for is offered whole, or relies on its settled stamp for current owners |
| Transition.StepKeeps | node/maintenance.go:398-537 | every event keeps that done packs were forwarded and whoever is reported done finished some round |
| Transition.ForwardBeforeCommit | node/maintenance.go:488-503 | a transition commits only after every participant sent each live record it held at adoption to each pending owner |
| Transition.FirstSealStays | node/reconcile.go:363-401 | what a node held at adoption stays fixed while new packs only come above it |
| Deferral.StepProgress | node/reconcile.go:413-492 | a step that is not stuck leaves less of the pass to do |
| Deferral.SomebodyCanGoOn | node/reconcile.go:548-566 | while a participant is not done some participant can go on, even if no delay ever passes |
| Deferral.TakesKeeps | node/reconcile.go:494-506 | reports on the view in force keep that whoever is done has reported its primary keys |
| Deferral.PassCanEnd | node/reconcile.go:413-492 | from there boundedly many steps finish every participant |
| FairPasses.UnstuckRunsAreShort | node/reconcile.go:413-492 | steps that are not stuck, in any order, are at most as many as there was to do |
| FairPasses.ReportedInTime | node/reconcile.go:413-492 | in every fair run, after as many rounds as there was to do in the first passes, whoever is not done has reported, whatever packs came in |
| FairPasses.FairPassEnds | node/reconcile.go:413-492 | by then a participant none of whose packs is ever blocked is on its cover pass, and after as many rounds more as that has packs then it is done; packs that come in do not put that off |
| FairPasses.FairRunEnds | node/reconcile.go:413-492 | in every fair run that goes on for ever, with packs coming in without end, such a participant is done at some time, even if no delay passes |
| FairPasses.EveryPassEnds | node/reconcile.go:413-492 | where whoever is done has reported, every fair run comes to a time when every participant is done |
| FairPasses.DoneIffNeverBlocked | node/reconcile.go:548-566 | without delays, in a fair run a participant is done at some time exactly when it never has a pack to do with a live key that waits for a node done without a report |
| FairPasses.BlockedNeverDone | node/reconcile.go:548-566 | a participant with a pack that waits for a node done without a report is never done, however all step, while no delay passes |
| FairPasses.StaleReportBlocksForGood | node/reconcile.go:494-506 | a late report from an earlier round leads to such a participant |
| Deferral.StaleReportBlocks | node/reconcile.go:494-506 | a run in which a late report from an earlier round leaves the remaining participant waiting |
| Trees.CompareNoneIffEqual | worktree/change.go:79-112 | entries compare equal exactly when they are, modification time included |
| Trees.CompareMeans | worktree/change.go:79-112 | the kind is the first difference in the order type, content, bits, the rest |
| Trees.DiffIsPointwise | worktree/change.go:126-238 | the difference has one change for each path whose entry differs, with its kind and both entries, and no other |
| Trees.Diff | worktree/change.go:126-202 | the merge loops produce that difference |
| Apply.DelsRun | worktree/apply.go:72-86 | exactly the deleted paths go, except directories with something left below |
| Apply.RestRuns | worktree/apply.go:87-168 | every change that fits puts its entry and touches nothing else |
| Apply.WriteMeans | worktree/apply.go:87-168 | a change of bits or metadata keeps the content that is there and fails when nothing is; every other change brings its own; no other path is touched |
| Apply.UnsafeIff | worktree/apply.go:174-184 | refused are the empty path and paths with an empty part or one that stays or goes up |
| Apply.OverSortsFirst | worktree/apply.go:45-46 | a directory sorts before everything below it |
| Apply.WorkDir.RejectComponents | worktree/apply.go:191-208 | the check of the components above a path, from the parent up |
| Apply.WorkDir.Apply | worktree/apply.go:27-184 | an unsafe path refuses the list; else deletions deepest first, the rest in path order, directory metadata last; every listed directory ends with its metadata, time included, and others may have their time moved by what was done in them |
| Merge.MergeChanges | worktree/merge.go:23-80 | what is applied and what conflicts, in order, each conflict naming the local change at the path, else the nearest directory above that is gone, else the first change below |
| Merge.ConflictIff | worktree/merge.go:23-80 | told from the three trees alone, when an incoming change conflicts and when it is dropped |
| Merge.MergeLosesNothing | worktree/merge.go:23-80 | without conflicts and with nothing endangered, applying the result gives, up to directory times, the remote entry where the remote changed a path and the local one elsewhere; a deleted directory stays while local additions are below it |
| Merge.MergeExact | worktree/merge.go:50-53 | with no conflict, that holds exactly when no incoming retype of a directory meets a metadata-only local change with local additions below |
| Merge.RetypeVerdict | worktree/merge.go:50-73 | an incoming retype of a directory conflicts exactly when its bits changed locally, or nothing of its entry, time included, and something below; so with a name added in the directory itself it is taken |
| Merge.RetypeOverMetadata | worktree/merge.go:50-53 | a merge that loses an addition without a conflict exists, with no local change but the addition and the directory's time |
| Working.DiffThenApply | worktree/apply.go:27-184 | applying the difference of two trees to the first gives the second, up to the times of directories that are not listed |
| Working.ApplyingAgain | worktree/apply.go:72-86 | applying it again changes nothing up to directory times, and succeeds exactly when no deleted path is below a link or two levels below another replacement of a directory |
| Working.MergeInto | worktree/merge.go:23-80 | merge and apply together: with conflicts nothing changes, without them the directory ends as expected, up to directory times, exactly when nothing is endangered |
| Batches.PickBatch | client/fetch.go:207-235 | a batch from a full accumulator or the largest, within the key limit, within the byte limit unless it is one key, and as long as the limits allow |
| Fetch.KeysConserved | client/fetch.go:107-272 | in every interleaving each key handed in is in exactly one place, and no key is asked for more than twice the longest read order |
| Fetch.StopsWhenAllAnswered | client/fetch.go:142-175 | the dispatcher stops only when every key handed in has exactly one outcome |
| Fetch.RouteExactly | client/fetch.go:181-204 | a key goes to the next owner of its read order; past the end the view is fetched anew once and the key starts over, and after that it is missing |
| Fetch.MissingWasAsked | client/fetch.go:181-272 | in every run a key is reported missing only after the view was fetched anew and the key was asked for as often as its order is long |
| Watch.FrameFoldsIff | client/watch.go:212-227 | a frame folds to what its changes come to in turn exactly when it re-creates no name |
| Watch.RecreatedIsLost | client/watch.go:212-227 | a name deleted and created again in one frame is lost to the client |
| Watch.FoldFrame | client/watch.go:212-227 | the client's two loops are settings, then deletions |
| Watch.RefWatch.Flush | node/watch.go:295-304 | after a send, while no frame re-created a name, the client's map is exactly the node's known keys |
| Watch.RefWatch.ApplyHint | node/watch.go:250-276 | a hint at or below the known version changes nothing, a deletion is remembered, and the mirror is kept for any order, loss or repetition of hints |
| Watch.HintIsTakenIff | node/watch.go:250-276 | a hint is believed exactly when readable and newer than the belief, about its own name only |
| Watch.NewestIsBelieved | node/watch.go:250-276 | after any hints the belief about a name is the newest said, or the one before if that is no older |
| Watch.HintsCommute | node/watch.go:250-276 | the same hints in any order, any number of times, lead to the same belief |
| Watch.DelayedPutIsTaken | node/watch.go:201-276 | a remembered deletion refuses an older put; with the name gone from the beliefs the put is taken |
| Watch.RefWatch.Reconcile | node/watch.go:201-246 | afterwards the known names are those listed, each with the listed key unless a strictly newer version was sent, and the mirror holds |
| Watch.TookIff | node/watch.go:201-246 | a listed entry is believed exactly when its name matches, its record can be read and the belief is no newer |
| Glob.ClassPieceMatches | refglob/refglob.go:147-180 | the set written for a class holds exactly the class's characters and never a slash |
| Glob.ExpressionAgrees | refglob/refglob.go:43-107 | the expression matches a name without newlines exactly when the pattern does segment by segment |
| Glob.MatchStartsWithPrefix | refglob/refglob.go:205-206 | every name the expression matches starts with the literal prefix |
| Glob.ParsedIsWellFormed | refglob/refglob.go:62-75 | a whole-segment `**` is recognised only where a segment starts |
| Glob.ParseClass | refglob/refglob.go:112-149 | the class at a bracket with its items, its end and its errors |
| GlobText.ReadsWhatIsWritten | refglob/refglob.go:43-149 | the parser reads a text as a list of tokens exactly when the text is a proper writing of them: a grammar of plain and escaped characters, classes, ranges and stars, in both directions |
| GlobText.Utf8IsShortest | refglob/refglob.go:32-34 | the length limited is that of the shortest UTF-8 form of each character |
| Glob.Compile | refglob/refglob.go:28-108 | which patterns are refused and why, and for the others an expression with the pattern's meaning and a prefix of all its matches |

## Left out

- Transport, connection pool, wire framing, CBOR: messages are datatypes.
- Pebble, packstore, fstree, amberpack, BLAKE3: maps, a finite child function and given hashes; `Salt`, `Fmix64` and `Slot` are a given hash per member.
- Command line, progress, status, tickets, discovery, admin dispatch: no property across steps.
- `addVoterFromSingle` and `seed`: they need the holder to be the single voter.
- `resweep`: it reuses the pack numbers of an older mark.
- Weight ramps, leases, join tokens, backups: only easy members.
- The unknown-outcome branch of `CASView`: it recognises its own write by number only.
- `client.RefList`: listing is proved at the scan.
- Overflow of 64-bit counters, ballots and sequence numbers.
- Clocks, backoff, rate pacing and time-outs beyond the inequalities stated; in `GcSafety` all nodes share one clock and the five-minute skew is only in `HandleBarrier`.
- Persisting the mark and freezing it: a worker whose mark cannot be written is not idle, which only delays the end.
- Real disks: an entry has its type, mode, modification time and content, and its extended attributes and ownership are one value.
- The text of the emitted regular expression and its parsing by the regexp package: an expression is a list of parts.
- VoterViews.ChangesByOne: does not model the pings and the minimum of three voters that callers check before the callback.
- Transition.ForwardBeforeCommit: does not say that an offer was taken; a target that fails leaves the pack unsettled and the pass goes on.
- Fetch.KeysConserved: does not cover a key handed in twice, because two requests in one batch share one answer.
- Gate.Gatekeeper.WalkComplete: does not bound the age of what an earlier walk found, because there is no bound: a success stamps cached entries anew. `GcCache` says which ages are safe.
- GcSafety.ReferencedIsLive: for a reference that was no root it does not cover a copy repaired after the gate found it corrupt, because such a copy may be taken (`GcRepair.RepairedCopyGoes`).
- GcSafety.SweepSparesReferenced: speaks of the same copies.
- Amnesia.AgreementSurvives: its condition is sufficient, because whether a forgotten promise does harm depends on what the others accept later.
- GcMark.StepKeeps: does not model the limit of thirty retries separately; a batch may be delivered late, twice or never.
