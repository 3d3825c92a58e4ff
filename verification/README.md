# Verified model of kleym

kleym turns an InferenceIdentityBinding into one ClusterSPIFFEID. This project
models its three hard parts and proves what they promise in every run:

1. the durable ownership protocol between a binding's status and its output
   (`Ownership`, `Output`),
2. the reconcile state machine around it: conflict phase, withdrawal, name
   replacement, deletion, rebased status writes (`Peers`, `Conflicts`,
   `StatusWriter`, `Reconciler`),
3. the identity compiler: pool labels to selectors to SPIFFE ID to conflict
   decision, with the parser of the same selectors (`Pools`, `Render`,
   `Boundary`, `Selection`, `Manifest`).

`dafny verify dfyconfig.toml` checks everything.

## How it is modelled

The API server is one value, `Store.State`, held by the class `Client.Cluster`.
Every client call is one atomic step. A script decides what happens around each
call: other actors take any permitted steps first (`Environment`), the call may
be refused, may land although an error is reported, may be the last one before
the process stops, and binding reads may serve any version ever persisted. The
controller's code is written as methods over an in-memory `Binding` object, as
in the source; each method is proved for every script. The ghost field `trace`
holds a path of states from the start of the run to the present one.

`Inv` holds in every state and `Step` between neighbours. Nobody forges a claim,
writes binding status or strips the controller's finalizer; reconciles run one
at a time. What else the world may do is a parameter, `Store.Rules`:

| rule | meaning | needed for |
|---|---|---|
| (none) | stale reads, stripped claim annotations, anything | ownership safety, automaton, status contract, finalizer and record move together |
| `current` | binding reads are current, nobody strips claims | no orphans, exclusive outputs, no pod selected twice |
| `latched` | a Pending binding is not marked deleting between the first read of its reconcile and the list | no orphans, exclusive outputs, no pod selected twice |
| `spaced` | no spec is edited into the boundary of a live output, or of one the reconcile under way may still create (`Environment.Spaced`) | exclusive outputs |
| `moored` | no spec leaves output behind in a boundary that others ask for, and none enters a boundary where output was left behind; output that the reconcile under way may write counts (`Environment.Mooring`) | no pod selected twice |
| `pristine` | nobody else edits the spec of a created object | no pod selected twice |

`Environment.Focus` says how far the reconcile under way has come, which is what
`latched`, `spaced` and `moored` depend on. The boundary of an output is the one its
selectors spell out (`Store.FenceOf`), whatever its binding says by now.

A write is proved safe from a condition that others cannot invalidate (`Calls`):
the object a record speaks of stays gone, a version read stays good to act on
(`Environment.Follows`), a rival output that is gone cannot come back. `Changes` shows once
for each kind of store change that it keeps every invariant.

Progress is about a calm world: a script of undisturbed turns, of any length.
`Reconciler.Expected` lists what one reconcile then does. `Settling.Ripe` says what a binding needs to become
ready (it renders; peers are exclusive or without output; no foreign object at
the desired name; no finalizer on the recorded output), `Settling.Settled` what
it then is.

## Findings

- No orphans does not hold in full generality. If a binding with a Pending claim
  is marked deleting between the reconcile's first read and its list of peers,
  the list serves a deleting copy of the binding itself; the conflict phase
  clears the persisted record through that copy and ignores it; apply then
  creates the object from the claim still in memory, without a status write.
  A stale first read that serves a cleared claim has the same effect.
  `Reconciler.ReconcilePlanned` and `Reconciler.Reconcile` state the exact
  condition: going on from a claim orphans nothing if and only if the version
  stored at the list still holds the claim and is not marked deleting. A mark
  after the list is harmless. `Orphans` proves both failures for all such
  clusters and gives a concrete run; `Guarantees.Run` gives the guarantee under
  `current` and `latched`.
- Exclusive outputs do not survive every spec edit, because peers are compared by
  the stored specs of one moment: an edit can move live output onto live output,
  and between list and Create, or under a Pending claim whose variant was read
  before, it can do so for the output about to be created. The single steps are
  exact in `Edits.EditKeepsExclusiveIff` and `Changes.MakeExclusiveIff`. For an
  edit inside a reconcile and the Create that follows, `Environment.Spaced` is
  the exact condition (`Edits.EditThenApply`, `Edits.EditThenReconcile`), and
  `Guarantees.Run` holds under it. `Edits.EditBreaksExclusive` is a concrete run
  that breaks it.
- Exclusive outputs do not survive the deletion race either, without any edit. The
  marked binding is left out of the comparison, so it creates whoever clashes with
  it; and its orphan is no obstacle to a rival, because a deleting peer counts as
  outputless once its record is empty. `Orphans.OrphanAfterDeletion` and
  `Orphans.RipeAmongRivals` say exactly when the property survives,
  `Orphans.OrphanBreaksExclusive` is a concrete run.
- No pod selected twice fails when output is left behind: live output keeps the
  boundary it was rendered for, while the conflict phase compares stored specs. The
  edit itself is innocent (`Fences.EditKeepsPods`); the step that fails is a later
  Create or Update, and `Fences.SpawnedPodsIff` and `Fences.UpdatePodsIff` say exactly
  when. For edits the exact condition is `moored`: `Fences.EditThenSettle` for an edit
  and the reconcile after it, `Fences.EditThenWrite` and `Fences.EditThenCompare` for
  an edit inside a reconcile. `Fences.EditSharesPods` is a concrete run. The rule
  speaks of boundaries, since the pool labels that may keep two outputs of one
  boundary apart can change at any time.
- Finalizer safety has the exceptions that a lost reply makes unavoidable: a clear or
  a finalizer removal that landed although an error was reported. Other lost writes
  excuse nothing.
- The second clear after an empty listing, in deletion and in name replacement
  (internal/controller/inferenceidentitybinding_controller.go:431-435 and
  internal/controller/inferenceidentitybinding_spiffe.go:201-205), is unreachable: listing already
  cleared the record. The model asserts this.
- The comment at internal/controller/inferenceidentitybinding_controller.go:107 says that adding the finalizer requeues; the
  code goes on in the same reconcile. The model follows the code.
- The final check of the SPIFFE ID prefix in `PlanIdentity` cannot fail, and
  Create always returns a UID; neither check is a branch of the model.

## Model

| member | source | states |
|---|---|---|
| `Guarantees.Run` | internal/controller/inferenceidentitybinding_controller.go:120-296 | every state of every run (any reconciles, interference, faults, lost replies, stale reads, restarts) keeps the promise, and every step obeys the ownership automaton, finalizer safety and settled conflicts |
| `Guarantees.InvKeepsPromise` | internal/controller/inferenceidentitybinding_ownership.go:122-237 | the invariant gives: Updates and Deletes hit only own incarnations; statuses consistent and classified; no orphans, at most one output, unclaimed conflicts; exclusive outputs; no pod selected twice |
| `Guarantees.CoveredIsAtMostOne` | internal/controller/inferenceidentitybinding_spiffe.go:178-259 | covered outputs: each binding has at most one live output, also during name replacement |
| `Guarantees.UnsharedIsNoPodTwice` | internal/identity/boundary.go:130-141 | outputs that spell out boundaries nobody shares never select the same pod |
| `Guarantees.UntendedIsFine` | internal/controller/inferenceidentitybinding_ownership.go:69-88 | a cluster the controller has not acted on satisfies the invariant under every rule set |
| `Guarantees.Converge` | internal/controller/inferenceidentitybinding_controller.go:120-296 | undisturbed, one reconcile of a ripe binding reaches Ready=True with a confirmed in-sync object, and a second one leaves the whole store unchanged |
| `Orphans.OrphanAfterDeletion` | internal/controller/inferenceidentitybinding_conflict.go:81-112 | for every cluster with a reserved binding whose peers can be told, clashing or not: if the binding is marked deleting between the first read of its reconcile and the pool read, the reconcile creates, leaves an orphan, and live outputs are exclusive afterwards exactly when they were and no rival has one |
| `Orphans.OrphanAfterStaleRead` | internal/controller/inferenceidentitybinding_controller.go:143-150 | the same for a first read that serves a version whose claim is no longer the stored record |
| `Orphans.RipeAmongRivals` | internal/controller/inferenceidentitybinding_conflict.go:81-112 | a ripe binding without output gets it: live outputs are exclusive afterwards exactly when they were and no rival has one, recorded or not |
| `Orphans.DeletionRaceOrphans` | internal/controller/inferenceidentitybinding_spiffe.go:110-140 | a concrete run of the deletion race from an untended cluster whose pool renders: a first process reserves and stops, the next reconcile orphans its output |
| `Orphans.OrphanBreaksExclusive` | internal/controller/inferenceidentitybinding_conflict.go:87-94 | the same run, then a rival binding is created and reconciled: two live outputs of one boundary, without any spec edit |
| `Reconciler.OrphanIff` | internal/controller/inferenceidentitybinding_conflict.go:81-112 | the outcome of comparison and Create from a claim in memory: nothing is orphaned exactly when the comparison met a stored version that holds the claim and is not deleting, and outputs are exclusive exactly when they were and no rival has one |
| `Reconciler.SpawnedExclusiveIff` | internal/controller/inferenceidentitybinding_spiffe.go:110-140 | one creation, whatever statuses changed around it, keeps outputs exclusive exactly when they were and no rival has one |
| `Edits.EditKeepsExclusiveIff` | internal/controller/inferenceidentitybinding_conflict.go:79-112 | the edit alone keeps live outputs exclusive exactly when the binding has none or no other live output has the new boundary |
| `Changes.MakeExclusiveIff` | internal/controller/inferenceidentitybinding_spiffe.go:110-140 | a Create keeps live outputs exclusive exactly when no rival of its binding has one |
| `Edits.SpacedIff` | internal/controller/inferenceidentitybinding_conflict.go:37-77 | after the list: the edit and the Create that follows it both keep outputs exclusive exactly when the edit is spaced |
| `Edits.EditThenApply` | internal/controller/inferenceidentitybinding_controller.go:224-295 | any edit between list and Create, then the rest of the reconcile: live outputs are exclusive afterwards exactly when the edit was spaced |
| `Edits.EditThenReconcile` | internal/controller/inferenceidentitybinding_controller.go:220-295 | the same for any edit between first read and list, from a claim, when the comparison after the edit finds no conflict |
| `Edits.EditBreaksExclusive` | internal/controller/inferenceidentitybinding_conflict.go:99-101 | a concrete run: two reconciles from an untended cluster make two exclusive outputs; an edit the other rules permit gives them one boundary |
| `Selection.OverlapIff` | internal/inspection/inspection.go:586-609 | two selections match a common pod exactly when namespace, service account and common labels agree |
| `Fences.SpawnedPodsIff` | internal/controller/inferenceidentitybinding_spiffe.go:110-140 | after a Create no pod is selected twice exactly when none was and no live output overlaps the new one |
| `Fences.UpdatePodsIff` | internal/controller/inferenceidentitybinding_spiffe.go:142-161 | after an update of live output no pod is selected twice, if none was before, exactly when no other live output overlaps the new selectors |
| `Fences.EditKeepsPods` | internal/controller/inferenceidentitybinding_conflict.go:99-101 | a spec edit by itself changes nothing about pods selected twice |
| `Fences.SpawnedUnsharedIff` | internal/controller/inferenceidentitybinding_spiffe.go:110-140 | after a Create no boundary is shared exactly when none was and no other live output was rendered for it |
| `Changes.PutMooredIff` | internal/controller/inferenceidentitybinding_conflict.go:99-101 | storing a version keeps every binding out of boundaries where output was left behind exactly when its spec is moorable |
| `Fences.MoorableIsSafeguard` | internal/controller/inferenceidentitybinding_conflict.go:99-101 | the rule for edits is exactly that the edit safeguards every binding of the namespace |
| `Fences.EditThenSettle` | internal/controller/inferenceidentitybinding_controller.go:120-296 | an edit, then an undisturbed reconcile of any ripe binding without output: no boundary is shared exactly when the edit safeguards that binding, and no pod is selected twice exactly when no live output overlaps what it renders |
| `Fences.EditThenWrite` | internal/controller/inferenceidentitybinding_controller.go:224-295 | any edit between list and Create, where nobody else has output in the boundary to be written: no boundary is shared, and every binding stays out of boundaries where output was left behind exactly when the edit obeys the rule |
| `Fences.EditThenCompare` | internal/controller/inferenceidentitybinding_controller.go:220-295 | an edit between first read and list, from a claim, when the comparison after it finds no conflict: no boundary is shared and every binding stays out of boundaries where output was left behind exactly when the edit obeys the rule |
| `Fences.EditSharesPods` | internal/controller/inferenceidentitybinding_conflict.go:99-101 | a concrete run without rule `moored` from an untended cluster to two live outputs that select one pod |
| `Reconciler.Reconcile` | internal/controller/inferenceidentitybinding_controller.go:120-296 | keeps the run valid under any interference; undisturbed: ripe settles, settled is untouched, a deleting binding is released, a failing one reports exactly its error and gives up its output, a clashing one settles a conflict that names exactly its rivals; for every version its first read may serve and every interference up to the pool read, going on from a claim orphans nothing exactly when the claim is then still stored in a version that is not deleting, and keeps outputs exclusive exactly when no rival has one |
| `Reconciler.ReconcileLive` | internal/controller/inferenceidentitybinding_controller.go:162-218 | the same for a binding that is not deleting, from the version in memory |
| `Reconciler.ReconcileComputed` | internal/controller/inferenceidentitybinding_controller.go:171-218 | the same once the finalizer is there: rendering, then conflict phase or failure report |
| `Reconciler.ReconcilePlanned` | internal/controller/inferenceidentitybinding_controller.go:220-295 | ripe to settled and settled to unchanged through conflict phase, name replacement and apply; from a claim in memory to a free name, with harmless peers or marked deleting among any peers that can be told, exactly the desired object is created; nothing is orphaned exactly when the stored version holds the claim and is not deleting; outputs are exclusive exactly when they were and no rival has one |
| `Reconciler.ReplaceAndApply` | internal/controller/inferenceidentitybinding_controller.go:224-295 | undisturbed, the desired output ends in force and only this binding and its own objects change; in force means no write; a claim creates even from an outdated version, an outdated version without claim creates nothing |
| `Reconciler.Apply` | internal/controller/inferenceidentitybinding_controller.go:243-295 | undisturbed, the output is in place and reported; already in force means no write |
| `Reconciler.PublishSuccess` | internal/controller/inferenceidentitybinding_controller.go:277-280 | publishing the success of an applied output stores exactly its report, and writes nothing when it was stored already |
| `Reconciler.EnsureFinalizer` | internal/controller/inferenceidentitybinding_controller.go:162-169 | on success the binding carries the finalizer and the record in memory is the stored one |
| `Reconciler.Prepare` | internal/controller/inferenceidentitybinding_controller.go:171-173 | initialized conditions and settings, still a working copy of the persisted version |
| `Reconciler.ComputeDesiredState` | internal/controller/inferenceidentitybinding_controller.go:446-492 | a confined plan of this very spec, or an allowed failure; undisturbed it is the rendering of the stored pool |
| `Reconciler.ReconcileDelete` | internal/controller/inferenceidentitybinding_controller.go:398-444 | no failed read, delete or refused call loses finalizer or record: on an error every finalizer stays, and so does the record (at most promoted) unless only the finalizer update failed; the exceptions are counted, and only a clear or a finalizer removal that landed behind a lost reply counts; undisturbed, a binding without held output is released |
| `Reconciler.ApplyStateError` | internal/controller/inferenceidentitybinding_controller.go:494-522 | the failure becomes the status in memory; undisturbed, the output is withdrawn and the record cleared first |
| `Reconciler.ReportStateError` | internal/controller/inferenceidentitybinding_controller.go:181-217 | success means a persisted version holds the failed condition; requeue exactly for a missing CRD |
| `Conflicts.ReconcileConflictState` | internal/controller/inferenceidentitybinding_conflict.go:196-233 | unhandled only if creating breaks no exclusivity; handled without error means a persisted Conflict=True or undecided status; harmless peers leave it uneventful; an undisturbed contest ends in Conflict=True with exactly the clashing peers, none holding a record |
| `Conflicts.EvaluateBindingConflicts` | internal/controller/inferenceidentitybinding_conflict.go:37-77 | no conflict and no block means every rival output met by the list is gone, or the version in memory is outdated and cannot reserve; members cover every named peer; undisturbed, the diagnoses are exactly those against peers that are not exclusive |
| `Conflicts.EvaluateListed` | internal/controller/inferenceidentitybinding_conflict.go:47-77 | the same over the listed bindings |
| `Conflicts.AssessAll` | internal/controller/inferenceidentitybinding_conflict.go:47-66 | every listed binding is compared, blocks, or holds no record |
| `Conflicts.EvaluationIsSole` | internal/controller/inferenceidentitybinding_conflict.go:37-77 | an empty diagnosis over an accounted list means that no rival output of that moment is still live, even if specs were edited since |
| `Conflicts.EvaluationIsUnlodged` | internal/controller/inferenceidentitybinding_conflict.go:37-77 | an empty diagnosis also means that no other output rendered for the boundary read first is still live, if this binding may write there |
| `Conflicts.CurrentConflictState` | internal/controller/inferenceidentitybinding_conflict.go:129-152 | exactly the current binding's diagnoses in evaluator order, and a unique withdrawal set with the binding and every named peer |
| `Conflicts.DiagnosesExact` | internal/controller/inferenceidentitybinding_conflict.go:129-152 | over a list that can be compared, a diagnosis is made exactly for each peer that clashes |
| `Conflicts.SettleConflict` | internal/controller/inferenceidentitybinding_conflict.go:212-232 | settled only after confirmed absence and never while blocked; undisturbed, the exact conflict is published |
| `Conflicts.PublishConflict` | internal/controller/inferenceidentitybinding_conflict.go:227-232 | the published entries are those of the clashing peers, in evaluator order |
| `Conflicts.OwnMembers` | internal/controller/inferenceidentitybinding_conflict.go:136-141 | selecting keeps exactly the diagnoses whose subject is the binding |
| `Conflicts.AppendMember` | internal/controller/inferenceidentitybinding_conflict.go:154-169 | appends unless the key is there; uniqueness and membership are kept |
| `Conflicts.WithdrawConflictOutputs` | internal/controller/inferenceidentitybinding_conflict.go:171-192 | reported absence means every member's persisted record is empty; undisturbed and unheld, absence is reached |
| `Conflicts.SettledIsPublishable` | internal/controller/inferenceidentitybinding_conflict.go:219-232 | confirmed absence of all members makes the conflict status publishable |
| `Peers.IdentityForConflictEvaluation` | internal/controller/inferenceidentitybinding_conflict.go:79-112 | a peer is ignored only without record, rendered from its own spec, or blocking; undisturbed, its exact standing |
| `Peers.AssessPeer` | internal/controller/inferenceidentitybinding_conflict.go:99-111 | an unrenderable peer blocks exactly while its output remains |
| `Peers.ResolveIdentity` | internal/controller/inferenceidentitybinding_render.go:54-69 | a plan confined to the binding's boundary, an allowed failure, or an error exactly for an unusable poolRef or a failed read |
| `Quiet.SweepStep` | internal/controller/inferenceidentitybinding_conflict.go:50-66 | assessing one more harmless peer raises no error, blocks nothing, and touches only that peer's record |
| `Quiet.SweepDone` | internal/controller/inferenceidentitybinding_conflict.go:47-76 | after the last peer there is no diagnosis against the binding and every peer is at rest |
| `Settling.PeersKept` | internal/controller/inferenceidentitybinding_conflict.go:37-112 | changes to one binding and its objects keep all its peers harmless and at rest |
| `Settling.ReadyToPublish` | internal/controller/inferenceidentitybinding_controller.go:277-280 | the success report is stored as it is, and is a fixed point |
| `Output.ReconcileOutput` | internal/controller/inferenceidentitybinding_spiffe.go:50-71 | success means Confirmed under the desired name; undisturbed, exactly the live in-sync object is recorded and reported; an object in place means no write |
| `Output.AuthorizeApply` | internal/controller/inferenceidentitybinding_spiffe.go:73-106 | a live object is handed on only if covered by the record and owned; foreign ones are refused; an absent slot only when it is absent |
| `Output.CreateManaged` | internal/controller/inferenceidentitybinding_spiffe.go:108-140 | creates only under a persisted claim and without rivals; success means Confirmed |
| `Output.UpdateManaged` | internal/controller/inferenceidentitybinding_spiffe.go:142-161 | drift is repaired on the same incarnation with its claim kept; in sync means no write |
| `Output.ReportIdentifies` | internal/controller/inferenceidentitybinding_spiffe.go:217-235 | two reports are equal exactly for the same object name and generation, SPIFFE ID and selector set |
| `Output.CleanupChangedName` | internal/controller/inferenceidentitybinding_spiffe.go:176-215 | moves on only with an empty record or the desired name; undisturbed it always does |
| `Output.ListManaged` | internal/controller/inferenceidentitybinding_spiffe.go:237-259 | empty means the record is empty; otherwise the one owned object is confirmed; undisturbed, exactly the live recorded incarnation; an error leaves the record, at most promoted, unless a clear landed behind a lost reply |
| `Output.CleanupManaged` | internal/controller/inferenceidentitybinding_spiffe.go:261-281 | deletes only owned incarnations; an error leaves the record, at most promoted, unless a clear landed behind a lost reply; undisturbed, an unheld recorded object is gone |
| `Output.CleanupThenList` | internal/controller/inferenceidentitybinding_controller.go:408-421 | cleanup then listing: empty means unclaimed; an outdated copy changes nothing; an error leaves the record, at most promoted, unless a clear landed behind a lost reply |
| `Output.RecordedNameMeaning` | internal/controller/inferenceidentitybinding_ownership.go:239-248 | the recorded name is the record's, and empty exactly when unclaimed |
| `Statuses.Decode` | internal/controller/inferenceidentitybinding_ownership.go:67-88 | unclaimed exactly without both fields, fail-closed on both or on blanks |
| `Statuses.RecordRoundTrip` | internal/controller/inferenceidentitybinding_ownership.go:67-88 | decoding what was stored gives the record back |
| `Ownership.Classify` | internal/controller/inferenceidentitybinding_ownership.go:120-159 | matched exactly when the record covers the live object, foreign exactly when it does not |
| `Ownership.ObservationMeaning` | internal/controller/inferenceidentitybinding_ownership.go:120-159 | matched means created for this binding and unique for its claim; anything else means the recorded incarnation is gone |
| `Ownership.Observe` | internal/controller/inferenceidentitybinding_ownership.go:90-118 | classifies the live object under the recorded name |
| `Ownership.ReserveClaim` | internal/controller/inferenceidentitybinding_ownership.go:161-186 | a fresh claim of this binding is persisted, from an unclaimed and current version only |
| `Ownership.ConfirmOwnership` | internal/controller/inferenceidentitybinding_ownership.go:188-203 | Pending becomes Confirmed under the same name for the incarnation created with that claim |
| `Ownership.ClearOwnership` | internal/controller/inferenceidentitybinding_ownership.go:205-218 | the record is cleared only for a gone incarnation; nothing recorded means no write |
| `Ownership.PatchOwnership` | internal/controller/inferenceidentitybinding_ownership.go:220-237 | compare-and-swap on the version in memory; any error rolls the memory back, whether or not the write landed |
| `StatusWriter.PatchStatus` | internal/controller/inferenceidentitybinding_status.go:219-248 | never changes any record; success means the status was persisted; a conflict is published only for unclaimed members |
| `StatusWriter.PatchApplyFailure` | internal/controller/inferenceidentitybinding_controller.go:524-543 | reports the failed apply and changes no record |
| `StatusWriter.InitializeConditions` | internal/controller/inferenceidentitybinding_status.go:32-65 | every canonical condition present, existing ones kept |
| `StatusWriter.ApplySuccess` | internal/controller/inferenceidentitybinding_status.go:76-106 | the success shape, which is consistent |
| `StatusWriter.ApplyConflict` | internal/controller/inferenceidentitybinding_status.go:108-137 | one entry per diagnosis in order; the reason is a duplicate identity exactly if some diagnosis is; consistent |
| `StatusWriter.ApplyWaiting` | internal/controller/inferenceidentitybinding_status.go:139-190 | the three waiting shapes, which claim neither readiness nor conflict |
| `StatusWriter.ApplyFailure` | internal/controller/inferenceidentitybinding_status.go:192-217 | the failed condition is the only one and shares reason and message with Ready=False |
| `Statuses.SuccessIsConsistent` | internal/controller/inferenceidentitybinding_status.go:76-106 | rendered fields exactly with Ready=True |
| `Statuses.FailureIsConsistent` | internal/controller/inferenceidentitybinding_status.go:192-217 | Ready=False exactly with one failure condition |
| `Statuses.ConflictIsConsistent` | internal/controller/inferenceidentitybinding_status.go:108-137 | conflict entries exactly with Conflict=True |
| `Statuses.WaitingIsConsistent` | internal/controller/inferenceidentitybinding_status.go:139-190 | waiting statuses keep the contract |
| `Statuses.ReservePatchIsConsistent` | internal/controller/inferenceidentitybinding_ownership.go:174-183 | reserving leaves a consistent status although unsaved initial conditions are part of the patch base |
| `Statuses.RecordPatchKeepsView` | internal/controller/inferenceidentitybinding_ownership.go:199-217 | promoting or clearing changes the record and nothing else |
| `Statuses.OutcomeIsClassified` | internal/controller/inferenceidentitybinding_metrics.go:187-227 | no outcome of a consistent status is unclassified; it carries Ready's own reason |
| `Boundary.EvaluateVariantConflicts` | internal/identity/boundary.go:91-116 | the sorted sequence of both directions of every non-exclusive pair |
| `Boundary.EvaluationIsOrderIndependent` | internal/identity/boundary.go:91-116 | every permutation of the input gives the identical sequence |
| `Boundary.EmittedMembers` | internal/identity/boundary.go:96-116 | a diagnosis is reported exactly for a non-exclusive pair |
| `Boundary.ConflictOrderIsTotal` | internal/identity/boundary.go:143-154 | the comparator is a total order |
| `Boundary.ConflictIsSameBoundary` | internal/identity/boundary.go:127-141 | rendered bindings conflict exactly when namespace, service account and variant agree; the cause says whether the pool agrees |
| `Boundary.GroupsAgree` | internal/identity/boundary.go:127-141 | among rendered plans, every member of a conflict computes the same group |
| `Agreement.NamedIff` | internal/controller/inferenceidentitybinding_conflict.go:129-152 | a settled status names a peer that renders exactly when the two clash |
| `Agreement.NamesEachOther` | internal/controller/inferenceidentitybinding_conflict.go:129-152 | one settled status names the other binding exactly when the other's settled status names it |
| `Agreement.GroupsSettleAlike` | internal/identity/boundary.go:127-141 | if one settled status names the other binding, both name the same bindings, each counting itself |
| `Boundary.ExclusiveMeansDisjoint` | internal/identity/boundary.go:127-141 | no pod matches the selectors of two plans reported as exclusive |
| `Render.VariantErrorMeaning` | internal/identity/boundary.go:64-89 | exactly label words are accepted |
| `Render.UniqueAndSorted` | internal/identity/render.go:187-206 | the canonical form |
| `Render.CanonicalUnique` | internal/identity/render.go:187-206 | the unique strictly sorted form of the trimmed nonempty set; idempotent |
| `Render.FingerprintBytes` | internal/identity/render.go:208-220 | the framing of the canonical selectors |
| `Render.FingerprintMeaning` | internal/identity/render.go:208-220 | equal hashed bytes exactly for equal canonical selectors, also with NUL bytes |
| `Render.ValidateSafetySelectors` | internal/identity/render.go:141-185 | accepts exactly the selector sets that stay in the boundary and name all of it |
| `Render.PlanIdentity` | internal/identity/render.go:28-96 | the plan, or the first failing check |
| `Render.PlanErrorsAreAllowed` | internal/identity/render.go:28-96 | every rejection carries an allowed condition and reason |
| `Render.PlanIsConfined` | internal/identity/render.go:98-111 | every pod the plan selects lies in the binding's namespace, service account and variant |
| `Render.SPIFFEIDInjective` | internal/identity/render.go:128-139 | equal SPIFFE IDs exactly for equal trust domain, namespace, service account, anchor and variant |
| `Pools.DeriveSelectors` | internal/gaie/resolver.go:98-165 | accepts exactly the well-formed selectors and lists each label once |
| `Pools.SelectorRoundTrip` | internal/gaie/resolver.go:98-165 | parsing a plan's selectors gives back namespace, service account and exactly the pool labels plus the variant label |
| `Pools.OrderDoesNotMatter` | internal/gaie/resolver.go:143-162 | the plan does not depend on map iteration order |
| `Pools.RenderIdentity` | internal/controller/inferenceidentitybinding_render.go:28-47 | the identity of binding and pool, confined or with an allowed error |
| `Selection.WorkloadSelectionFromSelectors` | internal/inspection/inspection.go:586-609 | the parser computes the selection the round trip is about |
| `Pools.RendersIff` | internal/controller/inferenceidentitybinding_render.go:28-47 | a binding renders exactly when pool selector, trust domain, variant, service account, pool name and boundary label are usable and the namespace survives trimming |
| `Manifest.SanitizeDNSLabel` | internal/spirecm/clusterspiffeid.go:206-233 | computes the sanitized label |
| `Manifest.SanitizeMeaning` | internal/spirecm/clusterspiffeid.go:206-233 | keeps exactly the letters and digits in order, never adjacent hyphens, identity on labels, idempotent |
| `Manifest.NameIsLabel` | internal/spirecm/clusterspiffeid.go:127-154 | the managed name is a DNS label, of at most 63 characters exactly when the sanitized kind has at most 52 |
| `Manifest.MergeRepairs` | internal/spirecm/clusterspiffeid.go:167-204 | drift repair reaches sync, keeps identity, claim and unmanaged labels, and is needed exactly when something observable differs |

## Left out

- Hash functions: fingerprints are stated on the hashed bytes, and the name digest is a parameter of eight hexadecimal digits.
- Condition order and transition times: the condition list is a record with one slot per type.
- Error texts: shortened or named; only nonblank text and the condition reasons matter.
- Unicode: strings are byte sequences, trimming and lower-casing are ASCII.
- Several pool API versions: one InferencePool kind is looked up, so a missing CRD and a missing pool cannot mix.
- Several identities per binding: the source always renders one, and the model has one.
- Overlapping reconciles: no worker count is configured, so reconciles are serialized; the choice of the next binding is arbitrary.
- Watches, field indexes, requeue delays, events, logging, Prometheus registration: plumbing around the modelled calls.
- CLI, reports and status aggregation: only the selector parser and the pod match are modelled.
- JSON merge patch encoding: a patch sends the status fields that differ between base and target.
- Label and name validators: restated as grammars with the length limits 63 and 253; the library that holds them is not part of this model.
- Progress under interference: convergence, release, failure reports and conflict settlement are stated for an undisturbed reconcile; under interference only safety is.
- Client.Cluster: models the API server the source calls, not a file of the repository, so its methods have no rows.
