# Verified model of the multi-site PostgreSQL operator

The operator is a hub with one agent per site. The hub turns an instance into numbered,
signed plans, one per site; agents cache a plan, apply it and report back; the hub moves a
long operation on only after every site has applied the active revision. This project models
that protocol and the operations stacked on it, and proves what every run keeps.

## How the model is laid out

**The protocol.** `PlanProtocol` is the kernel: hub status, plans on a wire that loses,
duplicates and reorders, agent caches, reports, and the record functions that ignore every
revision but the desired one. It is generic in the part of a plan that operation controllers
steer through annotations, so the major upgrade and the restore are both built on it. `PlanRuns`
has what holds over its whole runs: when a revision is issued, which pass wrote a plan that is met
anywhere, and which report a status stands for.
`HubObject` holds the same hub as a mutable object whose handlers are shown to take it from
one state of the machine to the next. `StatusMerge` is the interleaving of status merges with
reports, `PlanCache` the agent's durable cache and `PlanCacheRuns` the same call by call,
`PlanWorkers` the hub's send loop and the agent's worker table. `Delivery` says what sites can
hold while a serializer changes plans step by step.

**Major upgrades.** `UpgradePhases` has the thirteen phases, the hub's decisions and the
agent's drain and stop functions. `MajorUpgrade` is the machine with its invariant,
`MajorUpgradeSafety`, `MajorUpgradeAgent` and `MajorVersions` the theorems over all runs,
`MajorUpgradeMoves` the exact condition of every move, `MajorUpgradeWork` which site does which work
and when it is finished, and `MajorUpgradeWitness` reachable states that show which premises are
needed. `MajorUpgradeData`, `MajorUpgradeDataSteps` and `MajorUpgradeDataSafety` go down to the data
directories and prove that no member ever runs one version on the data of another;
`MajorUpgradeDataRuns` shows that their runs cover those of the machine.
`RollbackStorage` has the agent's loops over artifacts, claims and Pods, `RollbackRuns` and
`RollbackProgress` what holds when they are cut off after any API write. `PostUpgradeBackup`
is the bounded retry before completion, and `UpgradeCompletion` puts it into the upgrade machine.

**The other serializers and stateful cores.** `MinorUpgrade` with `MinorUpgradeMoves`,
`CredentialRotation` with `CredentialRuns`, `CredentialOrder`, `CredentialMoves` and
`CredentialSecrets`, and `AddressMigration` with `AddressMoves`, each put on the protocol by
`ImageDelivery`, `CredentialDelivery` and `AddressDelivery`, with starting points in
`DeliveryStarts`; `Restore` with `RestoreMoves`, `WireGuard` with `WireGuardRuns`, `DirectiveState`,
`BackupSchedule`, `Topology` and `IdentityRotation`.
`Names` has the string order used by every sorted list, and the member-name prefix test.

Loops and handlers that change things step by step are methods and classes; each is proved
equal to a specification function or relation, and the theorems are about that. A run is a
sequence of states joined by enabled events. I/O, clocks, hashes, signatures and the contents
of jobs enter as parameters: any value is allowed.

## Assumptions

- A hub reconcile pass, and an agent's load-and-apply, is one atomic step, except where a
  module is about interleaving or interruption (`StatusMerge`, `PlanCacheRuns`, `RollbackStorage`,
  `CredentialSecrets`, `WireGuardRuns`, `DirectiveState`, `IdentityRotation`).
- Fingerprint and operation hashes are collision-free; signatures are a yes-or-no property of
  an envelope.
- The set of sites is fixed during an operation. Registration name and status site name are
  one key.
- Every data site has PostgreSQL storage and a rollback policy, as admission and the planning of
  a major upgrade demand.
- A site runs the workloads of a plan only after the local work of the plan, stops its members before
  it restores claims, and reports Ready only on workloads it runs (internal/agent/reconcile.go:157-170,
  internal/agent/major_upgrade.go:124-133). An empty data directory is cloned by the member that
  starts on it.
- An observation gives each member one role (internal/agent/patroni.go:104-122), so the primary is not
  listed among its own synchronous standbys. `CredentialOrder.PrimaryLastExactly` says exactly when
  the order of a rotation keeps the primary last without this.
- A member belongs to one site only. `Names.MembersAreClaimedOnce` proves that the prefix test
  gives this exactly when no site name extends another by a dash.

## Properties the code does not have

Each of these has a reachable failing case and an exact condition:

- Deleting an upgrade in Drain, Stop or Snapshot enters Rollback, which deletes claims, before
  every artifact is ready (`MajorUpgradeWitness.DeletionOutrunsCapture`); in the phases from
  UpgradePrimary to StartPrimary it does not (`MajorUpgradeSafety.DeletionRollbackIsCovered`).
  `RollbackProgress.RollbackCanSucceed` gives the exact condition for such a rollback to end.
- With deletion in Drain, or after a forced release, a site may do destructive work while another
  serves writes (`DrainDeletionCanServe`, `ReleasedUpgradeCanServe`), and after a forced release
  two major versions may run (`ReleasedUpgradeMixesVersions`).
- When the primary moves to another site during a credential rotation, the next plan takes every
  updated member back (`CredentialMoves.PrimaryMoveRevertsMembers`); `NextChangesOneExactly` says
  when a plan changes one member at most.
- A minor upgrade of n members takes n+3 steps when the standby it picks first is not declared,
  and n+2 at most exactly when it is (`MinorUpgrade.BoundHoldsExactly`).
- A status merge from a stale read can ask a site for a revision older than the one it applied
  (`StatusMerge.StaleMergeBreaksOrder`, with `MergeKeepsConsistentExactly` and
  `StaleMergeKeepsOrderExactly`).
- Two stores that interleave under one cache name can take the cache back
  (`PlanCacheRuns.InterleavedStoresGoBack`, with `StepGoesBackExactly`). The agent stops the old
  worker of an instance before it starts the next one, which rules this out as long as cache
  names are distinct and a stopped worker makes no further call.
- A repeated revision lets an old worker's completion remove a live worker's table entry
  (`PlanWorkers.RepeatedRevisionLosesWorker`, with `EntryIsLostExactly`); the send loop rules
  this out on one connection.
- An operation stored as done is executed again when its instance was deleted and created anew
  under the same name: a declaration's operation depends on the declaration alone, and the
  directive names whichever instance has the name now (`DirectiveState.RecreatedInstanceReexecutes`,
  with `ReexecutesExactly`). For one instance a stored result is final.
- Topology consensus counts reports, so one from a site that is not required can stand in for a
  required one (`Topology.ReadyIsConsensusExactly`). Agents observe only where the hub counts
  (`ObserversAreCounted`), so such a report stems from an older plan: a data site that is turned
  into a witness keeps its report for two minutes (`ForeignObserverCounts`). The same counting
  would let another site stand in for a seed (`OtherSiteStandsInForSeed`), for which a new restore
  target has no older report, and lets a site with a shorter name stand in for the primary's
  (`ShorterNameStandsInForPrimary`), which the assumption on site names excludes.
- A failure that is reported twice, during the wait for the last backup attempt, makes the next
  passes request it at once (`PostUpgradeBackup.LateFailureSkipsWait`, with
  `UnwaitedRequestExactly`); during an earlier wait it uses up an attempt
  (`LateFailureUsesUpAttempt`).

## Model

| member | source | states |
|---|---|---|
| PlanProtocol.StepKeeps | internal/controller/multisitepostgres_controller.go:203-271 | every protocol step keeps: one tag per revision, desired = active, applied and acknowledged never ahead, genuine plans on wire and in caches, every applied revision was reported; history only grows |
| PlanProtocol.PassKeepsHub | internal/controller/multisitepostgres_controller.go:203-279 | a pass stays on its revision exactly when the stored fingerprint is that of the same inputs and annotations, stores the one it used, writes each declared site its plan, and is Ready only if all sites applied it |
| PlanProtocol.RecordKeeps | internal/control/server.go:662-752 | late, repeated or foreign reports never move a site past its desired revision and never lose a recorded one |
| PlanProtocol.ReceiveKeeps | internal/agent/cache.go:43-100 | an accepted plan is genuine and the cached revision never goes back, whatever order messages arrive in |
| PlanProtocol.AllAppliedMeansReported | internal/controller/multisitepostgres_controller.go:924-934 | when all sites count as applied, each of them did report the active revision |
| PlanRuns.RevisionsFollowInputs | internal/controller/multisitepostgres_controller.go:204-214 | in every run the first pass issues revision 1, and a later one keeps the revision of the pass before it exactly when inputs and annotations are the same, and issues the next one otherwise |
| PlanRuns.PlansStemFromPasses | internal/controller/multisitepostgres_controller.go:226-256 | in every run each plan that is stored, on the wire or in a cache was written for that site by a pass, with the body, annotations and revision of that pass |
| PlanRuns.OnePlanPerRevision | internal/controller/multisitepostgres_controller.go:568-630 | in every run whose plan contents follow from the fingerprinted inputs and annotations, a site has one plan per revision, whenever and wherever it is met |
| PlanRuns.DeliveryKeepsNewest | internal/agent/cache.go:43-100 | a delivery leaves a site with the delivered plan exactly when it is newer than the cached one, whose contents never change |
| PlanRuns.FailedIsLastReport | internal/control/server.go:680-752 | in every run a site counts as failed exactly when its last report on a desired revision said so |
| PlanRuns.StatusFollowsReports | internal/control/server.go:662-752 | in every run applied and acknowledged revision move only to the desired one, by the report of that site on it, and nothing else touches them |
| PlanRuns.ReadyExactly | internal/controller/multisitepostgres_controller.go:274-279 | a pass declares Ready exactly when it is healthy and every declared site applied the revision |
| HubObject.Instance.AllSitesApplied | internal/controller/multisitepostgres_controller.go:924-934 | the loop is true exactly when there are sites and all of them applied the revision |
| HubObject.Instance.MajorUpgradeFailed | internal/controller/postgresupgrade_controller.go:626-635 | the loop is true exactly when some site reports a failed upgrade condition |
| HubObject.Instance.PlanSites | internal/controller/multisitepostgres_controller.go:227-271 | the site loop writes one plan per declared site and keeps what each site reported |
| HubObject.Instance.Reconcile | internal/controller/multisitepostgres_controller.go:203-279 | the mutable object after a pass is the kernel's reconciled hub |
| HubObject.Instance.RecordAcknowledgement | internal/control/server.go:662-678 | found exactly when the site is part of the instance; only an accepting acknowledgement of the desired revision is recorded |
| HubObject.Instance.RecordProgress | internal/control/server.go:680-729 | found exactly when the site is part of the instance; progress for another revision changes nothing |
| HubObject.Instance.RecordResult | internal/control/server.go:731-752 | found exactly when the site is part of the instance; only a result for the desired revision is applied |
| HubObject.Instance.BeginMajorUpgrade | internal/controller/postgresupgrade_controller.go:344-364 | an upgrade takes the instance exactly when it is Ready, has no owner and an observed primary under an agreed topology |
| HubObject.Instance.ReactToFailure | internal/controller/postgresupgrade_controller.go:367-381 | a failed site starts the rollback of a conversion, does not stop a rollback, and stops everything else |
| HubObject.Instance.LeavePhase | internal/controller/postgresupgrade_controller.go:386-475 | the phase switch decides as the machine does, and touches the backup status in Finalize only |
| HubObject.Instance.ReconcileMajorUpgrade | internal/controller/postgresupgrade_controller.go:339-475 | the handler, with the status of the upgrade object it consults in Finalize, takes an object representing a machine state to the next one |
| HubObject.Instance.ReconcileUpgradeDeletion | internal/controller/postgresupgrade_controller.go:191-257 | deletion releases, rolls back or holds as the machine says; the finalizer goes exactly when the instance is released |
| HubObject.OnlyAnnotationsChange | internal/controller/postgresupgrade_controller.go:637-654 | an upgrade decision touches nothing of the instance but the phase and revision annotations |
| MajorUpgrade.StepKeeps | internal/controller/postgresupgrade_controller.go:339-475 | every event keeps the upgrade invariant: the window of tags sites may hold, phase order per operation, finished work behind every report |
| MajorUpgrade.AppliedPhaseIsIssued | internal/controller/postgresupgrade_controller.go:656-660 | when the phase counts as applied, the active revision carries it and every site reported that revision |
| MajorUpgrade.SnapshotIsCaptured | internal/agent/major_upgrade.go:256-305 | when the snapshot phase is applied everywhere, every data site has a ready artifact per claim |
| MajorUpgradeSafety.PhaseMovesAreWitnessed | internal/controller/postgresupgrade_controller.go:637-660 | in every run a phase is left, an upgrade completes and a rollback ends only after every site reported Ready on a plan carrying the phase; entering Rollback and release by deletion are the only moves that do not wait |
| MajorUpgradeSafety.AcceptedPlansAreAdjacent | internal/agent/cache.go:43-100 | in every run the plans accepted by any two sites are at most one forward phase of the operation apart |
| MajorUpgradeSafety.DestructiveWorkIsDrained | internal/agent/render.go:341-371 | whenever a site may convert, wipe or delete, every site keeps Pgpool at zero; during conversion every member everywhere is stopped |
| MajorUpgradeSafety.UndeletedUpgradeIsDrained | internal/agent/major_upgrade.go:57-158 | the same in every run without operation deletion, with no further premise |
| MajorUpgradeSafety.NoRollbackAfterReplicas | internal/controller/postgresupgrade_controller.go:227-257 | phases of one operation are issued in order; after Replicas no later plan of it rolls back, deletion included |
| MajorUpgradeSafety.FailureRollbackIsCovered | internal/controller/postgresupgrade_controller.go:367-381 | a failure-driven rollback starts only with a ready artifact for every claim of every data site |
| MajorUpgradeSafety.DeletionRollbackIsCovered | internal/controller/postgresupgrade_controller.go:237-245 | a deletion in UpgradePrimary, StanzaUpgrade or StartPrimary rolls back with every artifact ready |
| MajorUpgradeMoves.AppliedExactly | internal/controller/postgresupgrade_controller.go:656-660 | the revision annotation makes the applied test exact: every site applied the newest plan and that plan carries the phase |
| MajorUpgradeMoves.ForwardMovesExactly | internal/controller/postgresupgrade_controller.go:367-448 | in every run a forward phase is left exactly when every site applied it, none failed and its gate is open (standbys in sync, verified backup), for the next phase in order; a failure goes to Rollback from the three conversion phases and stops the others |
| MajorUpgradeMoves.BackwardMovesExactly | internal/controller/postgresupgrade_controller.go:449-475 | in every run a rollback phase is left exactly when every site applied it, whatever failed, for the next in order or the end |
| MajorUpgradeMoves.WritesReturnInSync | internal/controller/postgresupgrade_controller.go:411-424 | in every run RestoreWrites is entered only from Replicas, applied by every site, with the standbys in sync |
| MajorUpgradeMoves.DeletionExactly | internal/controller/postgresupgrade_controller.go:209-257 | in every run deletion lets go when forced or in Preflight, rolls back from Drain to StartPrimary, and holds otherwise |
| MajorUpgradeMoves.OwnersBeginNew | internal/controller/postgresupgrade_controller.go:344-364 | in every run an owner comes only to a Ready instance without one, under a name that no plan has carried |
| MajorUpgradeMoves.LeftPhaseIsHeld | internal/controller/postgresupgrade_controller.go:637-660 | in every run, when a phase is left in order, every site holds exactly the newest plan, with that phase |
| MajorUpgradeMoves.OutageIsExact | internal/agent/render.go:341-371 | at that moment Pgpool is away exactly from Drain to Replicas, members are stopped exactly from Stop to StanzaUpgrade and, but for the primary, in StartPrimary, and the target version runs exactly from there on |
| MajorUpgradeMoves.RollbackOutageIsExact | internal/agent/render.go:341-371 | the same for the three rollback phases, which run the source version throughout |
| MajorUpgradeWork.PrimaryHasOneHome | internal/agent/reconcile.go:615-617 | the prefix test finds exactly the site that declares the member |
| MajorUpgradeWork.WorkIsPlaced | internal/agent/major_upgrade.go:57-158 | the primary is converted, and the stanza upgraded, by exactly the site that declares it; every site captures in Snapshot, restores in Rollback and resets in Replicas and RollbackStart; no other phase has work |
| MajorUpgradeWork.ResetsCoverStandbys | internal/agent/major_upgrade.go:708-729 | the sites together reset exactly the declared members other than the primary, each one its own |
| MajorUpgradeWork.WorkIsFinishedInOrder | internal/agent/major_upgrade.go:57-158 | in every run a site holds a plan of some phase only after every site finished the work of all phases before it |
| MajorUpgradeWork.ReplacedBeforeWrites | internal/agent/major_upgrade.go:57-158 | so the primary is converted by its site before any plan starts it, and every other member is replaced by its site before any plan brings writes back |
| MajorUpgradeAgent.MajorReplicaResetJobs | internal/agent/major_upgrade.go:708-729 | the loop resets every local member but the primary, and no other |
| MajorUpgradeAgent.DataChangesAreDrained | internal/agent/major_upgrade.go:57-158 | while a site has data-changing work to do, Pgpool is at zero on every site, conversion has every member stopped, and the primary is never wiped |
| MajorUpgradeAgent.CaptureReadyExactly | internal/agent/major_upgrade.go:256-305 | a capture pass reports success exactly when the site is captured and the pass was not cut off, which is what the machine asks of a site before it finishes Snapshot |
| MajorUpgradeAgent.NoMixedVersions | internal/agent/render.go:1258-1278 | in every run, released or not, running members under accepted plans of one operation have one major version |
| MajorVersions.OneVersionEverywhere | internal/agent/render.go:1258-1278 | in every run over any number of upgrades, unless one was just released, all running members of all sites run one major version |
| MajorVersions.StepKeepsVersions | internal/controller/postgresupgrade_controller.go:425-437 | every event keeps: plans from the window on carry the version of the specification, which the step into Finalize replaces by the target |
| MajorUpgradeData.RewritesStoppedOnly | internal/agent/render.go:341-371 | of two plans that sites can hold at the same time, the later rewrites only data of members that the earlier keeps stopped |
| MajorUpgradeDataSafety.StepKeeps | internal/agent/reconcile.go:157-170 | every step of hub, wire, site work, capture, rendering and cloning keeps the data of every member in line with its plans |
| MajorUpgradeDataSafety.RunsOnItsOwnData | internal/agent/render.go:1258-1278 | in every run over any number of upgrades, with failures, rollbacks and deletions but none abandoned by force after Preflight, a running member has an empty directory or data of exactly the major version it runs with |
| MajorUpgradeDataSafety.RewritesNoRunningMember | internal/agent/major_upgrade.go:57-158 | in every such run, work that rewrites data meets no running member |
| MajorUpgradeDataSafety.EndsWithOneVersion | internal/controller/postgresupgrade_controller.go:438-475 | in every such run, an upgrade that completes or is rolled back leaves every member with data of the version in the specification |
| MajorUpgradeDataRuns.EveryRunHasData | internal/agent/reconcile.go:157-170 | every run of the upgrade machine without forced abandonment after Preflight, in which a rollback is finished only with its artifacts, is the upgrade part of a run with data directories |
| MajorUpgradeWitness.DeletionOutrunsCapture | internal/controller/postgresupgrade_controller.go:237-245 | deletion in Drain, Stop or Snapshot reaches Rollback with artifacts missing |
| MajorUpgradeWitness.DrainDeletionCanServe | internal/controller/postgresupgrade_controller.go:237-245 | deletion in Drain reaches a state where one site may delete claims while another serves |
| MajorUpgradeWitness.ReleasedUpgradeCanServe | internal/controller/postgresupgrade_controller.go:209-221 | forced abandonment reaches a state where one site still converts the primary while another serves |
| MajorUpgradeWitness.ReleasedUpgradeMixesVersions | internal/controller/postgresupgrade_controller.go:209-221 | forced abandonment after the start of the primary reaches a state with two major versions running |
| RollbackStorage.SiteStorage.DeleteManagedConsumers | internal/agent/major_upgrade.go:362-402 | the sweep marks consumers with their Job gone first, stops at a foreign Pod or when cut off |
| RollbackStorage.SiteStorage.ReconcileRollbackRestore | internal/agent/major_upgrade.go:307-360 | the ordinal loop acts on the first unfinished claim only, for every cut-off point |
| RollbackStorage.SiteStorage.ReconcileRollbackStorage | internal/agent/major_upgrade.go:256-305 | the capture loop is Ready exactly when every artifact is; no policy or no data site means nothing to do; an unknown strategy fails |
| RollbackRuns.PassEffect | internal/agent/major_upgrade.go:307-402 | a pass, cut off anywhere, creates one claim, or starts deleting one unused unrestored claim, or changes no claim |
| RollbackRuns.CaptureEffect | internal/agent/major_upgrade.go:256-305 | a capture pass leaves claims, Pods and existing artifacts alone and asks for one artifact at most |
| RollbackRuns.NoWriteNoChange | internal/agent/major_upgrade.go:256-402 | a pass that gets no write through changes nothing |
| RollbackRuns.OnlyDataSitesAct | internal/agent/major_upgrade.go:256-320 | a site acts only if it is a data site with a rollback policy, and captures only with a known strategy |
| RollbackRuns.StepKeeps | internal/agent/major_upgrade.go:307-402 | no step undoes a restored claim, and no Job is left to replace a deleted Pod |
| RollbackRuns.RunKeeps | internal/agent/major_upgrade.go:307-360 | over every run, a claim restored from its own artifact is never deleted or written again |
| RollbackRuns.SuccessMeansRestored | internal/agent/major_upgrade.go:307-360 | success is reported exactly when every local claim is restored and bound, and then each holds its artifact's data |
| RollbackProgress.StepLowers | internal/agent/major_upgrade.go:307-402 | no event raises a claim's measure, and finishing a pending delete or bind lowers it |
| RollbackProgress.PassNeverRaises | internal/agent/major_upgrade.go:307-402 | a pass, however cut off, raises no claim's measure |
| RollbackProgress.RollbackCanSucceed | internal/agent/major_upgrade.go:307-402 | a rollback can succeed exactly when every claim has a ready artifact and no foreign Pod holds an unrestored one |
| RollbackProgress.CaptureCopies | internal/agent/major_upgrade.go:256-305 | over every capture run a ready artifact holds the claim's data, and no claim changes |
| RollbackProgress.RollbackRestoresCapturedData | internal/agent/major_upgrade.go:256-360 | capture, any conversion, rollback: success leaves every claim with its data from before the capture |
| PostUpgradeBackup.RetryDelay | internal/controller/postgresupgrade_controller.go:603-624 | the loop computes min(60*2^(a-1)+j, 1800) seconds with j below 60, within 64 bits throughout |
| PostUpgradeBackup.DelayIncreasesUntilCap | internal/controller/postgresupgrade_controller.go:603-624 | whatever the jitters, a later attempt waits strictly longer until the cap |
| PostUpgradeBackup.RetrySchedule | internal/controller/postgresupgrade_controller.go:603-624 | the five retries wait 1, 2, 4, 8 and 16 minutes and the jitter, any further one half an hour |
| PostUpgradeBackup.UpgradeStatus.EnsurePostUpgradeBackup | internal/controller/postgresupgrade_controller.go:477-584 | one pass of the attempt machine; ready exactly when the condition is true |
| PostUpgradeBackup.CompletesAfterVerifiedBackup | internal/controller/postgresupgrade_controller.go:438-448 | over every run at most six directives, and completion exactly when a pass finds PostUpgradeBackupReady true, after one of them succeeded |
| PostUpgradeBackup.SixDirectivesCanBeNeeded | internal/controller/postgresupgrade_controller.go:502-544 | a run in which all six are created |
| PostUpgradeBackup.DirectivesWereRequested | internal/controller/postgresupgrade_controller.go:546-584 | in every run each directive was asked for by an earlier pass, carries the time that pass recorded, and keeps it |
| UpgradeCompletion.CompletesExactly | internal/controller/postgresupgrade_controller.go:438-448 | in every run of upgrades with their backups, Finalize ends by a reconcile pass exactly when every site applied it, none failed and PostUpgradeBackupReady is true |
| UpgradeCompletion.CompletionIsBackedUp | internal/controller/postgresupgrade_controller.go:438-448 | in every run an upgrade in Finalize is abandoned by force or completes after one of at most six backup directives was reported successful |
| UpgradeCompletion.BackupsFollowFinalize | internal/controller/postgresupgrade_controller.go:438-584 | in every run a backup is asked for only after every site reported Ready on the Finalize phase |
| PostUpgradeBackup.RetryWaits | internal/controller/postgresupgrade_controller.go:525-544 | a waited-for retry is requested no earlier than its delay after the failure was seen |
| PostUpgradeBackup.UnwaitedRequestExactly | internal/controller/postgresupgrade_controller.go:525-544 | in every run, a pass during the wait requests the retry exactly when it finds ManualInterventionRequired |
| PostUpgradeBackup.LateFailureSkipsWait | internal/controller/postgresupgrade_controller.go:492-544 | a run in which the last failure is reported twice requests the last attempt at once |
| PostUpgradeBackup.LateFailureUsesUpAttempt | internal/controller/postgresupgrade_controller.go:511-523 | a run in which an earlier failure is reported twice passes over an attempt without a directive |
| PostUpgradeBackup.SkippedAttemptStaysSkipped | internal/controller/postgresupgrade_controller.go:549-584 | an attempt that was passed over never gets a directive |
| MinorUpgrade.SelectUpgradeCandidate | internal/controller/postgresupgrade_controller.go:793-815 | the loop and sort give the least candidate, a synchronous standby first, never the observed primary |
| MinorUpgrade.MinorUpgradeController.Reconcile | internal/controller/postgresupgrade_controller.go:662-791 | one pass of the minor-upgrade machine over the annotations |
| MinorUpgrade.OneImageAtATime | internal/agent/render.go:1258-1278 | in every step at most one member's image changes, before Finalize never the observed primary's, and at Finalize all others already have it |
| MinorUpgrade.StepsAreBounded | internal/controller/postgresupgrade_controller.go:662-791 | every run issues at most n+2 steps, n counting the members and the standby picked first |
| MinorUpgrade.UndeclaredStandbyCostsAStep | internal/controller/postgresupgrade_controller.go:793-815 | for all members, a run that picks an undeclared standby first takes n+3 steps |
| MinorUpgrade.BoundHoldsExactly | internal/controller/postgresupgrade_controller.go:793-815 | all runs of n members that pick this standby first take n+2 steps at most exactly when it is declared |
| MinorUpgradeMoves.MovesExactly | internal/controller/postgresupgrade_controller.go:662-791 | in every run a pass changes something exactly when what its phase waits for is observed |
| MinorUpgradeMoves.StepsInOrder | internal/controller/postgresupgrade_controller.go:662-791 | in every run the steps are: the least standby, the switchover from the primary of that moment, the least members left one by one, Finalize with the primary alone left, and a clean end |
| MinorUpgradeMoves.RoleMovesBeforeSecond | internal/controller/postgresupgrade_controller.go:746-775 | in every run no second member is upgraded before the agreed primary is the member upgraded first |
| ImageDelivery.AcceptedImagesDifferInOne | internal/agent/render.go:1258-1278 | in every run of a minor upgrade with lost, repeated and late messages, the plans any two sites accepted differ in one member's image at most |
| CredentialRotation.CommonStagedVersion | internal/controller/multisitepostgres_controller.go:1230-1249 | the loop returns the one version all data sites staged, or nothing |
| CredentialRotation.ActiveCredentialVersion | internal/controller/multisitepostgres_controller.go:1211-1228 | the loop returns the one version active on all data sites, or nothing |
| CredentialRotation.CredentialUpdatedMembers | internal/controller/multisitepostgres_controller.go:1263-1284 | the loop collects exactly the members some site lists under the version |
| CredentialRotation.CredentialCatalogUpdated | internal/controller/multisitepostgres_controller.go:1251-1261 | the loop asks the first site that hosts the primary for the catalog of this version |
| CredentialRotation.PreviousCredentialsRevoked | internal/controller/multisitepostgres_controller.go:1197-1209 | the loop asks the first site that hosts the primary for the revocation |
| CredentialRotation.CredentialMemberOrder | internal/controller/multisitepostgres_controller.go:1286-1299 | the sorted standbys come first, the primary last, and in between every other declared PostgreSQL member |
| CredentialRotation.CredentialRotationPlan | internal/controller/multisitepostgres_controller.go:1141-1195 | the next plan: held, none, catalog, the first missing member, revoke or finalize |
| CredentialOrder.PlansExactlyWhenDue | internal/controller/multisitepostgres_controller.go:1141-1167 | in every run a plan that some site has not applied is kept, and otherwise a rotation is planned exactly when no other operation is, one version is staged everywhere and it is not the one to leave |
| CredentialOrder.PhasesFollowReports | internal/controller/multisitepostgres_controller.go:1168-1195 | in every run a new plan is Catalog until the host of the primary reports it, Member while a member of the order is reported by nobody, Revoke until that host reports it, then Finalize, with exactly the reported members |
| CredentialOrder.TargetsInOrder | internal/controller/multisitepostgres_controller.go:1286-1299 | in every run a newly planned member is not updated and everybody before it is: lesser standbys, all standbys before others, members in declared order, everybody before the primary |
| CredentialOrder.PrimaryIsPlannedLast | internal/controller/multisitepostgres_controller.go:1286-1299 | in every run the observed primary is planned only when every other declared member is updated |
| CredentialOrder.StandbysArePlannedFirst | internal/controller/multisitepostgres_controller.go:1286-1299 | in every run a member that is no standby is planned only when every observed standby is updated |
| CredentialOrder.PrimaryLastExactly | internal/controller/multisitepostgres_controller.go:1286-1299 | the primary comes last exactly when it is not listed as a standby, or is the last one with nobody behind it |
| CredentialRuns.OrderCovers | internal/controller/multisitepostgres_controller.go:1286-1299 | the order visits every declared member whatever is observed |
| CredentialRuns.RevokeAfterAllReloaded | internal/controller/multisitepostgres_controller.go:1174-1195 | in every run Revoke and Finalize are planned only when every declared member has reloaded the new version |
| CredentialRuns.OneMemberAtATime | internal/agent/render.go:1243-1256 | over every run with a stable primary a pass changes one member's version at most and fewer are left after each Member plan |
| CredentialRuns.StablePassChangesOne | internal/agent/render.go:1243-1256 | the member that changes is the target of the new plan |
| CredentialRuns.StablePassLeavesFewer | internal/agent/credentials.go:115-127 | the number of members not yet updated strictly decreases |
| CredentialMoves.ChangedExactly | internal/controller/multisitepostgres_controller.go:1151-1173 | which members the plan after an applied Member plan changes, for every staged version and observed primary |
| CredentialMoves.NextChangesOneExactly | internal/controller/multisitepostgres_controller.go:1151-1173 | that plan changes one member at most exactly when it disturbs one at most, which staged version, catalog report and active versions decide |
| CredentialMoves.PrimaryMoveRevertsMembers | internal/controller/multisitepostgres_controller.go:1168-1173 | from every staged, unrotated instance of three members a run reaches a moved primary whose next plan takes two updated members back |
| CredentialMoves.UnrotatedInstance | internal/controller/multisitepostgres_controller.go:1230-1249 | such an instance exists |
| CredentialDelivery.AcceptedVersionsDifferInOne | internal/agent/render.go:1243-1256 | in every run of a rotation with a stable primary and lost, repeated and late messages, the plans any two sites accepted differ in one member's version at most |
| CredentialSecrets.SiteSecrets.ReconcilePostgresCredentials | internal/agent/secrets.go:181-204 | a new version is staged beside the active one, which it never replaces |
| CredentialSecrets.SiteSecrets.PromotePendingCredentials | internal/agent/credentials.go:129-162 | promotion for every cut-off point |
| CredentialSecrets.SiteSecrets.DeleteRotationSecrets | internal/agent/credentials.go:164-172 | the final cleanup for every cut-off point |
| CredentialSecrets.StagingTakesEffect | internal/agent/secrets.go:181-204 | in every run staging refreshes the credential in force, or stages another beside it under reserved names, and is refused otherwise |
| CredentialSecrets.VersionMovesByPromotion | internal/agent/credentials.go:129-162 | in every run another version comes into force only by promotion of the staged one, with the old one kept |
| CredentialSecrets.PendingWasStaged | internal/agent/secrets.go:197-204 | in every run what is staged was staged under reserved user names |
| CredentialSecrets.FinishDropsPreviousLast | internal/agent/credentials.go:164-172 | however the cleanup is cut off, the credential in force stays and the previous one goes last |
| CredentialSecrets.OldCredentialIsKept | internal/agent/credentials.go:129-162 | however often staging and promotion are repeated or cut off, the old credential is at hand until the rotation is finished |
| CredentialSecrets.PromotionIsIdempotent | internal/agent/credentials.go:129-162 | a successful promotion is in effect, repeating it changes nothing, finishing keeps it |
| AddressMigration.AddressPlan | internal/controller/multisitepostgres_controller.go:1321-1364 | the loops give the next address plan: held while pending, else the least differing member moves |
| AddressMigration.OneAddressAtATime | internal/controller/multisitepostgres_controller.go:1332-1363 | from a complete plan, consecutive plans differ in one address at most, and a change starts only once the previous one was applied |
| AddressMigration.ChangesAreSeparated | internal/controller/multisitepostgres_controller.go:1332-1335 | between two address changes every site applied a plan |
| AddressMigration.PassConverges | internal/controller/multisitepostgres_controller.go:1341-1364 | with stable observations a pass that is not held brings exactly one differing member home |
| AddressMigration.ConvergesToObserved | internal/controller/multisitepostgres_controller.go:1341-1364 | as many applied passes as differing members reach the observed addresses |
| AddressMoves.LastReportWins | internal/controller/multisitepostgres_controller.go:1324-1327 | a member is observed where the last site to list it says |
| AddressMoves.NextIsUnique | internal/controller/multisitepostgres_controller.go:1321-1364 | an observation determines the next address plan |
| AddressMoves.PassPlansExactly | internal/controller/multisitepostgres_controller.go:1332-1364 | before the plan is complete a pass plans what is observed, complete exactly when everybody is; after that it changes addresses exactly with a migration, which describes the change |
| AddressMoves.LeastMovesFirst | internal/controller/multisitepostgres_controller.go:1350-1354 | members before the migrating one are already where they are observed |
| AddressMoves.PlannedWasObserved | internal/controller/multisitepostgres_controller.go:1321-1364 | in every run of a new instance each planned address was observed for that member |
| AddressMoves.MigrationIsLastChange | internal/controller/multisitepostgres_controller.go:1332-1364 | in every run of a new instance a migration stands in a complete plan and describes the one change by which that plan came about |
| AddressDelivery.AcceptedAddressesDifferInOne | internal/controller/multisitepostgres_controller.go:1321-1364 | in every run from an applied complete plan with lost, repeated and late messages, the plans any two sites accepted differ in one member's address at most |
| DeliveryStarts.AddressesCanStart | internal/controller/multisitepostgres_controller.go:924-934 | for all complete addresses there is an instance from which the address result starts |
| DeliveryStarts.ImagesCanStart | internal/controller/multisitepostgres_controller.go:924-934 | for all members and images there is an instance from which the image result starts |
| DeliveryStarts.CredentialsCanStart | internal/controller/multisitepostgres_controller.go:924-934 | for all staged, unrotated instances there is a state from which the credential result starts |
| Delivery.StepKeepsWindow | internal/agent/cache.go:43-100 | every protocol step keeps the two contents that accepted plans can have |
| Delivery.AppliedSettles | internal/controller/multisitepostgres_controller.go:924-934 | once every site applied a revision with the present content, every accepted plan has it |
| AddressMigration.AddressMigrationJob | internal/agent/render.go:373-393 | the endpoints are the other voters at their candidate addresses, refused without a quorum |
| AddressMoves.QuorumExactly | internal/agent/render.go:373-393 | a site rewrites its voter exactly from three voters on: the others are then a majority, each addressed where it was last seen or else planned |
| Restore.SelectRestoreSeed | internal/controller/postgresrestore_controller.go:352-368 | the loop picks a site of highest preference and least name, and fails exactly when no site has a member |
| Restore.SeedIsUnique | internal/controller/postgresrestore_controller.go:352-368 | with distinct names the seed is unique, so controller and plan agree on it |
| Restore.SeedIsBest | internal/controller/postgresrestore_controller.go:352-368 | no data site with a member has a higher preference than the seed, or the same and a lesser name |
| Restore.RestoreController.Reconcile | internal/controller/postgresrestore_controller.go:115-160 | the phase switch takes annotations and status to the machine's next state, also when the status write is lost |
| Restore.ReadyIsVerified | internal/controller/multisitepostgres_controller.go:432-490 | an instance that is Ready with an unfinished restore has issued Verify |
| Restore.StepKeeps | internal/controller/postgresrestore_controller.go:115-211 | every event keeps the restore invariant |
| Restore.RestoreExcludesUpgrade | internal/controller/postgresupgrade_controller.go:149-170 | in every run no instance has both an unfinished restore and an upgrade owner |
| Restore.CompletedWasAccepted | internal/controller/postgresrestore_controller.go:143-160 | in every run Completed comes only after every site reported a revision carrying Verify, with agreed topology and the required standbys |
| RestoreMoves.RestoreMovesExactly | internal/controller/postgresrestore_controller.go:115-152 | in every run a restore pass goes one phase further exactly when the phase is accomplished: the seed is the agreed primary, the required standbys are there, the instance is Ready and its encryption verified |
| RestoreMoves.OnlyPassesMove | internal/controller/postgresrestore_controller.go:115-190 | in every run nothing but a restore pass moves the phase, and nothing but forced abandonment ends it early |
| RestoreMoves.PhasesComeInOrder | internal/controller/postgresrestore_controller.go:115-152 | in every run each phase but the first was reached from the accomplished one before it |
| RestoreMoves.FinishedWentThrough | internal/controller/postgresrestore_controller.go:115-160 | in every run a finished restore left Seed, SeedReplicas and Verify one after the other, each accomplished |
| RestoreMoves.CompletedExactly | internal/controller/postgresrestore_controller.go:143-160 | the restore object becomes Completed exactly by a pass that finds the phase finished and gets its write through |
| RestoreMoves.InstanceReadyExactly | internal/controller/multisitepostgres_controller.go:432-490 | in every run an instance pass declares Ready exactly when all sites applied, trust, topology and standbys are as required, no restore is before Verify and no upgrade is between Drain and its end |
| Restore.OperationConflict | internal/controller/postgresrestore_controller.go:428-453 | the loops find a conflict exactly when an open upgrade or another open restore works on the target |
| WireGuard.ParsesExactly | internal/wireguard/config.go:334-343 | a network is accepted exactly when it has six usable addresses and is given by the first address of its block |
| WireGuard.NetworkFits | internal/wireguard/config.go:334-343 | an accepted network has eight addresses or more, all within IPv4 |
| WireGuard.ChooseAddress | internal/wireguard/config.go:288-314 | the scan returns the stored address, the least free peer address, or no space |
| WireGuard.AllocationStore.Reserve | internal/wireguard/config.go:264-317 | a reservation adds exactly the chosen address for its site |
| WireGuard.AllocationStore.Release | internal/wireguard/config.go:319-332 | a release removes exactly the site's allocation |
| WireGuard.ReserveIsStable | internal/wireguard/config.go:288-314 | reserving keeps allocations distinct and in range, and asking again gives the same address |
| WireGuard.FullExactly | internal/wireguard/config.go:296-314 | there is no space exactly when all 2^(32-bits)-3 peer addresses are taken |
| WireGuard.GivesNetworkAddresses | internal/wireguard/config.go:288-295 | whatever is stored, a site is given an address of the network, and a stored one outside of it is refused |
| WireGuardRuns.StepKeeps | internal/wireguard/config.go:113-187 | every API call of any interleaving keeps allocations distinct, peers on their allocation and snapshots honest |
| WireGuardRuns.PeersAreSound | internal/wireguard/config.go:113-187 | in every interleaving peers have distinct addresses, equal to their allocation, never network, hub or last |
| WireGuardRuns.AllocationIsStable | internal/wireguard/config.go:319-332 | a site keeps its allocation until its own release is written |
| WireGuardRuns.RevocationEndsReleased | internal/wireguard/config.go:176-187 | in every interleaving a revocation that is not stopped ends only without peer and allocation |
| WireGuardRuns.AuthorizationEndsWithPeer | internal/wireguard/config.go:113-169 | in every interleaving an authorization that is not stopped ends with the peer in place, or at once for want of a usable address |
| WireGuardRuns.PeerIsStable | internal/wireguard/config.go:113-187 | a peer stays as it is until its own revocation deletes it |
| WireGuardRuns.PeerKeyWasAsked | internal/wireguard/config.go:113-169 | in every interleaving a peer has a key with which its site was authorized |
| StatusMerge.PreviousSiteStatus | internal/controller/multisitepostgres_controller.go:913-922 | the loop finds the first status of that name, or none |
| StatusMerge.InstanceStatus.MergeReconciledSites | internal/controller/multisitepostgres_controller.go:894-911 | one merged entry per declared site, in order |
| StatusMerge.InstanceStatus.MergeReconciledStatus | internal/controller/multisitepostgres_controller.go:874-892 | the stored status after a merge |
| StatusMerge.MergeKeepsReports | internal/controller/multisitepostgres_controller.go:894-911 | a merge never overwrites a declared site's revisions, addresses or topology observation |
| StatusMerge.MergeAddsNewSites | internal/controller/multisitepostgres_controller.go:894-911 | a site new to the status, or without a name, is taken over as it is |
| StatusMerge.ComputedKeepsReports | internal/controller/multisitepostgres_controller.go:257-267 | a pass keeps all that a known site reported, starts a new one with nothing reported, and asks both for its revision |
| StatusMerge.RevisionFollowsFingerprint | internal/controller/multisitepostgres_controller.go:208-214 | in every interleaving the pass after a write works with the written revision exactly when it computes the same fingerprint, and with the next one otherwise |
| StatusMerge.MergeKeepsConsistentExactly | internal/controller/multisitepostgres_controller.go:874-892 | a merge keeps desired = active and applied below it exactly when its revision is not behind the stored one |
| StatusMerge.StaleMergeKeepsOrderExactly | internal/controller/multisitepostgres_controller.go:894-911 | even a stale merge keeps applied <= desired <= active exactly when no declared site went past its revision |
| StatusMerge.StaleMergeBreaksOrder | internal/controller/multisitepostgres_controller.go:894-911 | a stale merge asks a site for an older revision than it applied |
| StatusMerge.RunKeeps | internal/control/server.go:1072-1102 | in every interleaving the active revision never decreases and applied <= desired <= active for every site |
| PlanCache.SignedPlanVerifiesExactly | internal/plan/plan.go:172-217 | a plan is signed exactly when it names site and instance and has a positive revision, and then verifies for its own site and instance and no later minimum, and for nothing else |
| PlanCache.Cache.Store | internal/agent/cache.go:43-100 | a store checks, keeps or overwrites the entry |
| PlanCache.CacheOnlyMovesForward | internal/agent/cache.go:43-116 | over any sequence of whole stores the cached revision never decreases, a revision has one content, and no entry changes its instance |
| PlanCache.CachedWasStored | internal/agent/cache.go:43-116 | over any sequence of stores what is cached was stored under its name: genuine, of this protocol, site and instance, with a positive revision |
| PlanCache.NamesCollideExactly | internal/agent/cache.go:157-164 | two UIDs share a cache name exactly when their first forty characters agree up to case and underscores |
| PlanCache.NormalizesExactly | internal/agent/cache.go:157-164 | two characters count as the same exactly when they are, differ in case only, or are underscore and dash |
| PlanCache.CollisionIsRefusedExactly | internal/agent/cache.go:157-164 | a newer genuine plan is refused exactly when its cache name belongs to another instance, and then nothing changes |
| PlanCache.StoreThenLoad | internal/agent/cache.go:43-116 | a stored plan is what a later load returns |
| PlanCacheRuns.UndisturbedCallsAreStore | internal/agent/cache.go:43-100 | the calls of a store in a row are the store of the one-step model |
| PlanCacheRuns.StepGoesBackExactly | internal/agent/cache.go:43-100 | in every interleaving of calls, a step takes the cache back exactly when a write goes through after a second read that found a newer plan or another instance's |
| PlanCacheRuns.CacheMovesForwardCallByCall | internal/agent/cache.go:43-100 | in every interleaving where a worker begins only after those of its cache name have stopped, the cache only moves forward |
| PlanCacheRuns.PlainNamesAreDistinct | internal/agent/cache.go:157-164 | UIDs of at most forty characters without capitals and underscores have cache names of their own |
| PlanCacheRuns.InterleavedStoresGoBack | internal/agent/cache.go:43-100 | two interleaved stores under one cache name replace the newer or the other instance's plan |
| PlanWorkers.Sender.SendPlans | internal/control/server.go:160-212 | whatever revisions a listing shows, the stream stays increasing per instance, carries listed plans only, and ends for every listed instance at the listed revision or a newer one |
| PlanWorkers.WorkerTable.OnPlan | internal/control/client.go:189-214 | an older or equal revision is ignored, a newer one cancels the running worker and takes its entry |
| PlanWorkers.WorkerTable.OnCompletion | internal/control/client.go:215-219 | a completion removes the entry of the same revision |
| PlanWorkers.StreamIsIncreasing | internal/control/server.go:165-201 | what the send loop put on the stream arrives as increasing plans |
| PlanWorkers.OneWorkerPerInstance | internal/control/client.go:189-222 | on one connection at most one uncancelled worker per instance, and a superseded completion never removes the newer entry |
| PlanWorkers.EntryIsLostExactly | internal/control/client.go:215-219 | an old worker's completion can remove a new entry exactly when a running worker repeats the revision |
| PlanWorkers.RepeatedRevisionLosesWorker | internal/control/client.go:189-219 | a message order in which a live worker loses its entry |
| DirectiveState.StateStore.MarkRunning | internal/control/directive_state.go:74-80 | a terminal record is not reopened |
| DirectiveState.StateStore.MarkTerminal | internal/control/directive_state.go:82-95 | Failed exactly when some Succeeded condition is false; a terminal record is not replaced |
| DirectiveState.DirectiveSucceeded | internal/control/server.go:1000-1011 | the hub's loop: some Succeeded condition, all of them true |
| DirectiveState.VerdictsDifferExactly | internal/control/directive_state.go:82-95 | stored and hub verdict differ exactly on lists without a failed and without a plain success, such as the empty one |
| DirectiveState.CollectedResultsAgree | internal/control/client.go:299-312 | on every result that a handler can collect, agent and hub agree with each other and with what happened |
| DirectiveState.StoredResultIsFinal | internal/control/client.go:264-312 | in every run of deliveries and crashes a stored result never changes, is never executed again for its instance, and is what every later report for it carries |
| DirectiveState.ExecutionIsMarked | internal/control/client.go:279-291 | in every run an operation is executed only after it was marked as running, or as done for another instance |
| DirectiveState.RedeliveryReportsStored | internal/control/client.go:264-291 | every further delivery for the instance reports the stored result and changes nothing else |
| DirectiveState.ReexecutesExactly | internal/control/client.go:279-291 | an answered operation executes again exactly when the delivery names another instance, and leaves the record |
| DirectiveState.RecreatedInstanceReexecutes | internal/control/server.go:240-300 | a run in which an instance is created again under its name executes an operation stored as done |
| BackupSchedule.CatchUp | internal/controller/backups.go:68-73 | the loop ends at a slot with due <= now < next = Next(due) |
| BackupSchedule.GreatestDueSlot | internal/controller/backups.go:68-73 | the dispatched slot is the greatest due one |
| BackupSchedule.MinimumPositive | internal/controller/backups.go:194-202 | the requeue is a second or more, and no later than either candidate |
| BackupSchedule.ConfiguredSchedules | internal/controller/backups.go:90-112 | configured kinds are distinct and never empty |
| BackupSchedule.ConfiguredExactly | internal/controller/backups.go:90-112 | a schedule is in force for a kind exactly when it is configured for that kind, or is the default for full when nothing is |
| BackupSchedule.AdvanceOne | internal/controller/backups.go:57-84 | one schedule in one pass: first slot, not due, blocked, or dispatched; it waits for the next slot, or half a minute when blocked |
| BackupSchedule.Scheduler.ReconcileBackupSchedules | internal/controller/backups.go:42-88 | the loop advances every configured schedule from its previous status, and requeues before the next slot |
| BackupSchedule.StepKeeps | internal/controller/backups.go:57-84 | a runnable pass leaves last <= now < next = Next(last); a blocked one keeps the due slot |
| BackupSchedule.PassPlansFirstSlot | internal/controller/backups.go:57-84 | a pass plans the first slot after it, for a new kind without dispatching anything and for a due one after dispatching |
| BackupSchedule.SlotsIncrease | internal/controller/backups.go:42-88 | over every run dispatched slots strictly increase, also when schedules change, vanish and return |
| BackupSchedule.OneTrustedPerKind | internal/control/server.go:393-421 | at any time at most one scheduled directive per kind is trusted |
| BackupSchedule.TrustedExactly | internal/control/server.go:393-421 | a scheduled directive is trusted exactly when it is the one created for the slot last recorded for some kind |
| Topology.AggregateTopology | internal/controller/multisitepostgres_controller.go:936-1016 | the counting loops: ready exactly with the required number of fresh reports naming one primary, and the fully counted standbys sorted |
| Topology.StandbysAreIntersection | internal/controller/multisitepostgres_controller.go:1000-1012 | the published standbys are the sorted intersection of the duplicate-free lists |
| Topology.VerdictIsNamed | internal/controller/multisitepostgres_controller.go:988-1012 | the reports determine the verdict, and the published primary is a name that every counted report gives |
| Topology.ReportsLastTwoMinutes | internal/controller/multisitepostgres_controller.go:971-974 | a report that names a primary counts for two minutes, and any other never |
| Topology.ReadyIsConsensusExactly | internal/controller/multisitepostgres_controller.go:936-999 | in every mode, ready is consensus of the required sites exactly while no other site is counted; with one counted the two are never true together |
| Topology.PrimaryOnlyCountsExactly | internal/controller/multisitepostgres_controller.go:966-970 | while the primary alone runs, another site is counted exactly when the primary's site name extends its name by a dash |
| Topology.SeedOnlyCountsExactly | internal/controller/multisitepostgres_controller.go:953-961 | while a restore is seeding, exactly every fresh report is counted, whichever site made it |
| Topology.ForeignObserverCounts | internal/controller/multisitepostgres_controller.go:965-999 | turning a data site into a witness makes the topology ready at once although a required site is silent |
| Topology.OtherSiteStandsInForSeed | internal/controller/multisitepostgres_controller.go:953-987 | a fresh report from another site stands in for a silent seed |
| Topology.ShorterNameStandsInForPrimary | internal/controller/multisitepostgres_controller.go:966-987 | the report of site a stands in for the silent site a-b of the primary |
| Topology.ObserversAreCounted | internal/agent/reconcile.go:619-636 | under one plan the observing sites are among those counted, and exactly those except in RollbackStart and RestoreWrites, where exactly the site of the primary observes |
| Topology.ObserversMatchRunningMembers | internal/controller/multisitepostgres_controller.go:936-962 | observation is suspended exactly while the agents keep every member stopped, and narrowed while they keep the others stopped, RollbackStart excepted |
| IdentityRotation.OtherSlot | internal/siteidentity/rotation.go:181-191 | the slot to write is never the one in use |
| IdentityRotation.Rotator.Install | internal/siteidentity/rotation.go:128-179 | the handler is the install step of the machine; it reports success exactly when the pending request is answered |
| IdentityRotation.Rotator.Cleanup | internal/siteidentity/rotation.go:277-315 | after a rollout, stale managed slots are deleted, for every cut-off point |
| IdentityRotation.Rotator.Request | internal/siteidentity/rotation.go:78-126 | the handler is the request step of the machine; it cleans up and asks for a renewal only when the mounted identity is the one in use |
| IdentityRotation.CleanupSparesInUse | internal/siteidentity/rotation.go:277-315 | cleanup never touches the Secret in use, deletes only managed slots with another certificate, and changes no content |
| IdentityRotation.CleanupFinishes | internal/siteidentity/rotation.go:277-315 | an uninterrupted cleanup leaves in each slot the identity in use, the current one, one it does not manage, or none |
| IdentityRotation.InstallSwitchesWhole | internal/siteidentity/rotation.go:128-179 | cut off anywhere, the old identity is in use or one with the new certificate is in place, and the old Secret is still there |
| IdentityRotation.InstallsExactly | internal/siteidentity/rotation.go:128-179 | an installation gets through exactly when it is not cut off and its slot is free or holds the new certificate |
| IdentityRotation.SwitchAnswersRequest | internal/siteidentity/rotation.go:78-179 | in every run the Deployment is switched only by a valid answer to a renewal that was asked for while the mounted identity was in use, with its id and a certificate for its key |
| IdentityRotation.RequestDeletesStaleOnly | internal/siteidentity/rotation.go:277-315 | in every run a request deletes only managed slots with another certificate, after a rollout and while the mounted identity is in use |
| IdentityRotation.IdentityAlwaysUsable | internal/siteidentity/rotation.go:128-191 | in every run the Deployment names an existing Secret with matching certificate and key and the unchanged plan key |
| Names.Sort | internal/controller/postgresupgrade_controller.go:810-814 | sorted permutation under the byte order of names |
| Names.SortedListingIsUnique | internal/controller/multisitepostgres_controller.go:1282-1283 | a set of names has one sorted listing, so plans from equal sets are equal |
| Names.LessExactly | internal/controller/postgresupgrade_controller.go:810-814 | the order of names is that of their first difference, a prefix coming first |
| Names.BelongsExactly | internal/agent/reconcile.go:615-617 | the prefix test claims a site's own members and those of sites whose names extend it by a dash |
| Names.MembersAreClaimedOnce | internal/agent/reconcile.go:615-617 | each member belongs to one site exactly when no site name extends another by a dash |

## Left out

- Kubernetes client, gRPC, TLS, X.509, Ed25519, JSON and SHA-256: signatures, hashes and encodings are abstract.
- The text of scripts, Jobs, SQL and configuration, Vault and Patroni calls, telemetry, registration, lease gate, command-line programs.
- Webhook validation as a component; its accepted conditions are premises.
- Cron and timezone parsing: a schedule is its function to the next slot, and every configured expression parses.
- Deletion plans of an instance, and the removal of a restore target by deleting its restore object.
- Expiry of rollback artifacts during an operation, and Jobs removed by their time to live.
- Retry limits of the conflict loops: an operation that gives up is one that stops.
- Liveness, apart from rollback storage and address migration.
- Plan contents other than the operation's own part are one free number per plan, and the other fingerprint inputs one free number per pass. The time a plan was generated is not part of its contents: a pass leaves a stored plan alone when nothing else changed.
- HubObject.Instance.RecordAcknowledgement: a rejection changes no revision; its phase and condition text are not modelled.
- HubObject.Instance.RecordProgress: keeps the failure flag only; addresses, topology and conditions that travel with progress are in StatusMerge, Topology and CredentialRuns.
- HubObject.Instance.BeginMajorUpgrade: the fresh backup and the platform contract that precede it are not modelled.
- HubObject.Instance.ReconcileMajorUpgrade: does not model the upgrade object's own status text, events and timestamps.
- MajorUpgradeDataSafety.RunsOnItsOwnData: is about runs without forced abandonment after Preflight, which can leave a site in the middle of its work (MajorUpgradeWitness.ReleasedUpgradeMixesVersions has two versions running after one).
- AddressMigration.AddressPlan: the address candidates that travel with a plan are the observation itself; a change of them alone is the event Reissue.
- PlanCache.Cache.Store: does not model the receive time, and folds case for ASCII letters only.
- Restore.RestoreController.Reconcile: the preflight checks on the source instance, and the conflict found by OperationConflict, are one yes-or-no input.
- WireGuardRuns.PeersAreSound: rendering of the peer file and the key-conflict error text are not modelled.
