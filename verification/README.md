# Verified model of the APISIX operator's ControlPlane reconciler

The operator turns a `ControlPlane` resource into a ServiceAccount, a ClusterRole, a
ClusterRoleBinding, a certificate Secret and a Deployment, and keeps its status. It does so in
passes: almost every stage of a pass makes at most one write and ends the pass, so that what the
operator achieves, and what it must never do, shows only over many passes that are interleaved
with users, other controllers, failing calls and restarts. This project models those passes call
by call and proves what holds over all of them.

## How the model is built

* `EnvVars`, `ControlPlaneEnv`: environment lists and the two writers that rewrite a
  ControlPlane's list in place. They never have work left after themselves or after each other.
* `Conditions`, `Metadata`, `Deployments`: conditions as a map kept in a list, finalizers, labels
  and owners, and the repair of a Deployment through a reference into its container list.
* `Cluster`: the stored cluster as a value. One counter hands out resource versions and UIDs;
  writes with a stale version are refused; the status is a subresource; an object under deletion
  goes with its last finalizer; the server picks name suffixes and the order of lists.
* `ControlPlaneObjects`, `ControlPlanePass`: what is generated and repaired, and one pass as a
  machine. A step is one API call followed by the computation up to the next call. The choice
  made in a step says what others did just before it, what time it is, whether the call was
  served, never arrived, or was served with its reply lost, and which suffix a new name got.
* `ControlPlaneRuns`, `ControlPlaneOwnership`, `ControlPlaneWiring`, `ControlPlaneConclusion`,
  `ControlPlaneRunning`, `ControlPlaneServed`, `ControlPlaneRollout`: runs of the whole system, with
  one worker per ControlPlane, restarts, and an environment that may do anything except forge the
  operator's marks, change them in part, or strip its finalizers. Proved over all runs: nothing
  cluster-wide leaks, at most one object per kind, workers stay with their own objects, a status
  says "provisioned" only after a wanted Deployment served, and nothing is rolled out; and, as long
  as nobody else takes objects away or rewires them, the objects refer to each other as they should
  and a status says "provisioned" only when everything exists and runs as wanted.
* `ControlPlaneGoals`, `ControlPlaneStages`, `ControlPlaneConvergence`, `ControlPlaneConverged`,
  `ControlPlaneReadiness`, `ControlPlaneResults`, `ControlPlaneDeletion`, `ControlPlaneObstacles`: what
  undisturbed passes achieve, and how they end. The stage (1 finalizers, 2 scheduling, 3 defaults, 4 DataPlane entries, 5 to 9 the owned
  objects, 10 status, 11 done) is the rank of convergence. A pass leaves the cluster as it is iff it
  makes no successful write, since every successful write takes a new revision.
* `ControlPlaneClient`, `ControlPlaneReconciler`: the reconciler in the imperative form of the
  source, with its in-memory copy, its loops and its early returns. `Reconcile` is proved to do what
  the machine does, for every script of disturbances and failures, so all results above are
  results about it.
* `EnvOrder`, `DataPlaneDefaults`, `DataPlaneValidation`, `DataPlaneRepeats`, `DataPlaneAgreement`,
  `DataPlaneStatus`: the defaults of a DataPlane, its admission check, exactly when the check
  accepts what defaulting makes, exactly where it agrees with the value that the container sees,
  and its status loop.

## What turned out not to hold, and exactly when it does

* A certificate Secret created for a ControlPlane does not get the label it is listed by
  (controllers/utils.go:336 is commented out), against the comment at controllers/utils.go:131-134.
  The model has this as the parameter `secretsLabelled`. Safety is proved for both of its values.
  `Converges` says that passes reach the last stage if and only if the label is set or a labelled
  certificate is there already; otherwise `LostForEver` and `SecretsPileUp` show one more Secret
  per pass and no Deployment, ever.
* Without an image the version asked for is "latest", which has no rules: `TagDecides` and
  `UnsupportedImageStops`. Role selection is the partial function `roleFor`.
* A stored readiness is not taken back when the Deployment stops serving: `StaleReadiness`, and
  `StaleReadinessArises` for how such a state comes about. `TakesBack` says exactly when it is;
  `StaleWithoutDataPlane` is what remains if that write fails.
* A pass that removes the entries of a DataPlane takes the stored conditions back into memory and so
  loses the reset of Ready: `ReadyOutlivesProvisioned` shows a Ready that stays true with Provisioned
  false, and `TakesBack` says for which passes.
* A changed image reaches neither the Deployment nor the role, and names of objects that were made
  anew reach neither the Deployment nor the binding: `NothingIsRolledOut` over all runs, and
  `ConvergedObjects` with the exact condition for what passes converge to.
* The report "nothing changed" of the defaults does not mean an untouched list: `SilentRewrite`
  says exactly when it does.
* The comparison of statuses can miss a difference: `NeedsUpdateMissesWithRepeats` says for exactly
  which current lists.
* The admission check and the container disagree on some options: `CheckAgrees` has the exact
  condition for all of them. A secret is read by the container as it is, while the check decodes it
  once more (`PlainSecretsSlipThrough`); a source without the key hides those before it
  (`HiddenDatabase`), and so does a missing optional key the entries before it
  (`MissingKeyHidesEntries`); an empty text makes the check look elsewhere
  (`EmptyLiteralIsRefused`, `BlankTextIsPassedOver`); and an optional reference to an object that
  does not exist is refused (`DanglingIsRefused`).
* Defaulting can turn accepted options into refused ones if the mode is named twice, by literals
  (`OvertakenLiteral`) or by references (`OvertakenReference`): `DefaultingAccepted` is the exact
  condition for all options.
* Defaulting has several outcomes, and need not be idempotent, if two entries share name and value
  run together: `OneOutcome` and `DefaultingIsIdempotent` have the exact condition on the input.
* Deletions go by name and can hit a foreign object under a name that was made anew:
  `ReusedNameIsDeleted`.

## Reading the assumptions

`Steady` says that the ControlPlane is live, that its condition types are unique (the API declares
the list as a map by type) and that its DataPlane, if one is set, has one named Service. `Healthy`
says that each kind has at most one owned object, which `AtMostOne` guarantees over all runs, and
that there are rules for the image. `NeverClashes` says that the suffix picked for a new name makes
a new name. `DeletionTerminates` asks for the finalizer of existing roles, which `RolesAreGuarded`
guarantees over all runs.

## Model

| member | source | states |
|---|---|---|
| ControlPlaneRuns.NothingLeaks | controllers/controlplane_controller.go:101-148 | In every state of every run, with failing calls, restarts and interference between any two calls, a ClusterRole or ClusterRoleBinding owned by a ControlPlane exists only while that ControlPlane is stored and carries the clean-up finalizer for the kind |
| ControlPlaneRuns.GoneMeansGone | controllers/controlplane_controller.go:115-138 | Once no stored ControlPlane has the UID, no cluster-wide object owned by it is left |
| ControlPlaneRuns.NextKeepsInv | controllers/controlplane_controller.go:88-295 | The invariant behind both (keys and UIDs, marks, finalizers, what each worker in flight relies on) is kept by every event |
| ControlPlaneRuns.StepKeepsInv | controllers/controlplane_controller.go:101-295 | Every single API call of a pass keeps the invariant and disturbs no pass at another key |
| ControlPlaneRuns.EnvironmentTolerable | controllers/controlplane_controller.go:88-98 | What users and other controllers may do never invalidates what a pass in flight relies on |
| ControlPlaneRuns.DeletionProgress | controllers/controlplane_controller_reconciler_utils.go:338-348 | One deletion of the loop leaves one object less to delete, unless it failed and the failure is remembered |
| ControlPlaneRuns.AfterBindingsKeeps | controllers/controlplane_controller.go:117-125 | The finalizer for bindings is given up only when none is left |
| ControlPlaneRuns.AfterRolesKeeps | controllers/controlplane_controller.go:127-135 | The finalizer for roles is given up only when none is left |
| ControlPlaneRuns.ListingIsComplete | internal/utils/kubernetes/lists.go:118-184 | The owner lists of the cluster-wide kinds miss nothing that belongs to the ControlPlane |
| ControlPlaneOwnership.AtMostOne | controllers/controlplane_controller_reconciler_utils.go:205-301 | In every state of every run a ControlPlane has at most one object of each kind whose listing finds what was created, so its owner lists never have two |
| ControlPlaneOwnership.NextKeepsOrder | controllers/controlplane_controller_reconciler_utils.go:119-301 | Uniqueness, placement and labels of owned objects are kept by every event |
| ControlPlaneOwnership.NoneListedNoneLeft | internal/utils/kubernetes/lists.go:82-116 | An empty owner list means that the ControlPlane has no object of the kind |
| ControlPlaneOwnership.WorkersStayHome | controllers/controlplane_controller_reconciler_utils.go:119-374 | Over all runs a call changes no other ControlPlane; what it creates or changes belongs to its own afterwards, and did before; it deletes only what was listed, and a role only when no binding of the owner is left |
| ControlPlaneOwnership.StaysHome | controllers/controlplane_controller_reconciler_utils.go:119-374 | The same for a single step, from the invariant |
| ControlPlaneOwnership.DeletionsHitTheirOwn | controllers/controlplane_controller_reconciler_utils.go:325-374 | As long as no name is made anew while it is due for deletion, workers delete only what belongs to their own ControlPlane |
| ControlPlaneOwnership.ReusedNameIsDeleted | controllers/controlplane_controller_reconciler_utils.go:325-374 | Without that they do not: from any state of the invariant with a binding or a role due next, two moves of others lead to a foreign object that the worker deletes |
| ControlPlaneWiring.DeploymentIsWired | controllers/controlplane_controller.go:256-260 | In every state of every run without foreign deletions or rewiring, the Deployment of a stored ControlPlane names a ServiceAccount and a Secret that exist and have the same owner |
| ControlPlaneWiring.BindingIsWired | controllers/controlplane_controller.go:238-245 | In the same states its binding names a ClusterRole and a ServiceAccount that exist and have the same owner |
| ControlPlaneWiring.Wiring | controllers/controlplane_controller.go:220-271 | Where both exist, the binding gives its role to the very account that the Deployment runs under |
| ControlPlaneConclusion.ConclusionsAreHonest | controllers/controlplane_controller.go:220-282 | In every state of every such run, a worker about to write a status that says anything but "not provisioned" has its ControlPlane stored with both finalizers and exactly one object of every kind |
| ControlPlaneRunning.ConclusionsRun | controllers/controlplane_controller.go:212-282 | If nobody else edits the Deployment either, there is one whose main container runs exactly the environment and sources of the pass, scaled to nothing iff there is no DataPlane; and that environment gives `namespace/service` and `https://service.namespace.svc:9444` for some Service, or neither without a DataPlane |
| ControlPlaneRunning.StepRuns | controllers/controlplane_controller.go:183-282 | Every call of a pass keeps that |
| ControlPlaneServed.ConclusionsWereServed | controllers/controlplane_controller.go:274-282 | In every state of every run, whatever others do, a worker about to write a status that says anything but "not provisioned" listed, in this very pass, a Deployment of its ControlPlane that was as its copy wants it, with replicas, all of which were available |
| ControlPlaneServed.NeverConcludesDetached | controllers/controlplane_controller.go:261-282 | In every state of every run in which Deployments without wanted replicas report none, whatever a worker is about to write for a copy without a DataPlane says "not provisioned" |
| ControlPlaneServed.StepServes | controllers/controlplane_controller.go:212-282 | A call brings a pass to its conclusion only past a wanted Deployment that has replicas, all of them available; until then the copy says that provisioning is not done |
| ControlPlaneServed.ListConcludes | controllers/controlplane_controller.go:256-281 | Listing the Deployments leads to the conclusion if and only if there is one, it needs no repair, its replicas are not zero, and no more than are available |
| ControlPlaneRollout.NothingIsRolledOut | controllers/controlplane_controller_reconciler_utils.go:146-197 | In every run, no call changes the main image of an existing Deployment, the rules of a role or any name by which an object refers to others, and no call takes a namespaced object away; what is new is as asked for |
| ControlPlaneRollout.StepRolls | controllers/controlplane_controller_reconciler_utils.go:119-301 | The same for a single call of a worker that was careful so far |
| ControlPlaneConverged.ConvergedObjects | controllers/controlplane_controller.go:220-271 | Where passes converge, the object of each kind that was there stays, or there is a new one. It is as asked for (the image of the Deployment, the rules of the role) if and only if it is new, was so before, or is a Deployment that had no main container; its names lead to the objects that are found if and only if it is new or they led there already |
| ControlPlaneConverged.PassesCarry | controllers/controlplane_controller.go:220-271 | Undisturbed passes lose no object, keep images, rules and names, and make objects that are as asked for and refer to objects that are found |
| ControlPlaneConclusion.StepGathered | controllers/controlplane_controller.go:212-282 | What a pass has gathered stage by stage is there, and until it has gathered everything its copy says that provisioning is not done |
| ControlPlaneConclusion.MarkingSaysNo | controllers/controlplane_controller_reconciler_utils.go:66-90 | After either marking the copy says that provisioning is not done, whatever the list was, with the reason PodsNotReady if a DataPlane is set and NoDataplane if not |
| ControlPlaneWiring.StepKeepsWires | controllers/controlplane_controller.go:220-271 | Every call of a pass keeps all references connected, and the names it has collected good |
| ControlPlaneWiring.GeneratedIsConnected | controllers/controlplane_controller_reconciler_utils.go:270-301 | A generated binding or Deployment refers only to objects found earlier in the pass |
| ControlPlanePass.StepMovesOn | controllers/controlplane_controller.go:88-295 | Every call of an unfinished pass lowers a bound on the calls left: passes terminate |
| ControlPlanePass.QuietRun | controllers/controlplane_controller.go:88-295 | An undisturbed pass without failing calls is the run of any quiet script |
| ControlPlaneConvergence.PassProgress | controllers/controlplane_controller.go:141-295 | An undisturbed pass on any live ControlPlane writes nothing exactly when nothing is left to do or what is left cannot be done; otherwise it reaches a later stage or, at the stage of a certificate that will not be found, stores another one; its status write is either modest (not provisioned) or follows everything being in place |
| ControlPlaneConvergence.PassesAdvance | controllers/controlplane_controller.go:141-295 | In a healthy cluster every pass raises the stage until it is the last one that can be reached; only finalizers, managed environment entries, conditions and owned objects change |
| ControlPlaneConvergence.Converges | controllers/controlplane_controller.go:141-295 | Ten passes over a healthy cluster end at the last stage if and only if new certificates get their label or a labelled one is there already, and otherwise at the stage of the certificate; at the last stage every further pass leaves the cluster exactly as it is |
| ControlPlaneConvergence.LastStageReadsOnly | controllers/controlplane_controller.go:141-295 | A pass at the last stage makes no call that asks for a change, refused ones included |
| ControlPlaneConvergence.StageOne | controllers/controlplane_controller.go:141-148 | With a finalizer missing, one pass stores both and advances |
| ControlPlaneConvergence.StageTwo | controllers/controlplane_controller.go:150-162 | Without a Provisioned condition, one pass stores one that is false because the pods are not ready, and Ready false, and advances |
| ControlPlaneConvergence.StageThree | controllers/controlplane_controller.go:183-197 | With a default missing, one pass stores the defaulted environment and advances, without touching other entries |
| ControlPlaneConvergence.StageFour | controllers/controlplane_controller.go:199-210 | Without a DataPlane but with entries of one, one pass removes them and goes on with the owned objects |
| ControlPlaneConvergence.LateRun | controllers/controlplane_controller.go:212-295 | From the owned objects on: the first unsettled kind is repaired, or nothing is written if it cannot be, or a certificate is stored that will not be found, or the status is concluded |
| ControlPlaneConvergence.UnexposedWaits | controllers/controlplane_controller.go:164-181 | While the referenced DataPlane or its one Service cannot be found, a pass writes nothing |
| ControlPlaneConvergence.ProvisionedMeansInPlace | controllers/controlplane_controller.go:212-295 | A pass that writes Provisioned=True does so with both finalizers stored, exactly one owned object of each kind, and a Deployment with replicas, all available, whose container runs the defaulted environment, with `namespace/service` and `https://service.namespace.svc:9444` for the Service of its DataPlane |
| ControlPlaneConvergence.NeverProvisionedDetached | controllers/controlplane_controller.go:261-282 | Without a DataPlane no pass writes Provisioned=True, given that Deployments without wanted replicas report none |
| ControlPlaneConvergence.QuietMeansReady | controllers/controlplane_controller_reconciler_utils.go:50-61 | At the last stage with replicas, all of them available, Provisioned is true because the pods are ready, and Ready is true exactly if all other conditions are |
| ControlPlaneConvergence.StaleReadiness | controllers/controlplane_controller.go:274-279 | When everything is in order but the Deployment has no replicas, or some that are not available, the last stage is reached and no pass writes: a stored readiness is not taken back |
| ControlPlaneReadiness.StaleReadinessArises | controllers/controlplane_controller.go:274-279 | From every state in which all is in place and said to be, the pods going down leads to one in which nothing serves, the status still says provisioned, and passes change nothing |
| ControlPlaneReadiness.TakesBack | controllers/controlplane_controller.go:261-273 | A pass takes back a stored Provisioned=True if and only if no DataPlane is set, the finalizers and defaults are in place, and, with the entries of a DataPlane removed, the Deployment is the first object that is not as wanted and can be repaired; then the status says "DataPlane is not set" with the reason NoDataplane, and Ready false, except that a pass which has to remove entries of the DataPlane leaves Ready as it was |
| ControlPlaneReadiness.ReadyOutlivesProvisioned | controllers/controlplane_controller.go:199-273 | A pass that removes the entries of the DataPlane and demotes the status leaves a Ready that was true at true, with Provisioned false |
| ControlPlaneReadiness.StaleWithoutDataPlane | controllers/controlplane_controller.go:261-279 | Once everything is as wanted without a DataPlane, no pass writes, whatever the status says: if that one status write is lost, it stays lost |
| ControlPlaneConvergence.HealthKept | controllers/controlplane_controller_reconciler_utils.go:119-301 | No pass makes a second object of a kind that its list finds |
| ControlPlaneStages.UnsettledKind | controllers/controlplane_controller_reconciler_utils.go:205-234 | The stage of an unsettled kind repairs it, touching no other kind, or ends the pass without a write if there are several objects, no rules, or the name is taken; a certificate that is not found again leaves its kind as it was |
| ControlPlaneStages.KindsRun | controllers/controlplane_controller.go:220-282 | The chain of stages acts on exactly the first unsettled kind; readiness is concluded only when there is none |
| ControlPlaneStages.KindStageRises | controllers/controlplane_controller.go:220-271 | Settling a kind unsettles none before it |
| ControlPlaneStages.ProvisionedMeaning | controllers/controlplane_controller_reconciler_utils.go:50-61 | Concluding sets Provisioned true and Ready to the conjunction of all other conditions, and leaves those alone |
| ControlPlaneStages.MarkedMeaning | controllers/controlplane_controller_reconciler_utils.go:66-90 | Marking the DataPlane makes Provisioned false with the reason that fits, in the words that fit unless it said so before, and does not change what a conclusion will say |
| ControlPlaneStages.ReadyResetMeaning | internal/utils/kubernetes/status.go:87-90 | Resetting Ready in memory does not change what a conclusion will say |
| ControlPlaneGoals.CreateSettles | controllers/controlplane_controller_reconciler_utils.go:231-233 | Creating a missing object settles its kind: it is the only one found and needs no repair |
| ControlPlaneGoals.UpdateSettles | controllers/controlplane_controller_reconciler_utils.go:223-231 | Writing a repaired object is accepted and settles its kind |
| ControlPlaneObjects.ObjectRepairSettles | controllers/controlplane_controller_reconciler_utils.go:146-197 | One repair of any owned object is enough, and it is asked for iff it changes the object |
| ControlPlaneObjects.GeneratedIsSettled | controllers/controlplane_controller_utils.go:195-319 | A freshly generated object needs no repair, whatever names were collected |
| ControlPlaneObjects.NewDeployment | controllers/controlplane_controller_utils.go:195-319 | A new Deployment has no scale of its own exactly while a DataPlane is set, the names that were found, and one container with the environment of the ControlPlane and its image, with the version as the tag if there is one |
| ControlPlaneObjects.NewObject | controllers/controlplane_controller_utils.go:195-336 | A new object is owned by its ControlPlane alone, is named after it, and carries the label of its list, but for certificates |
| ControlPlaneObjects.MarkingSaysWhether | controllers/controlplane_controller_reconciler_utils.go:66-90 | Marking any list, with or without repeats, makes it say whether a DataPlane is set, and leaves every other type alone |
| ControlPlaneObjects.SchedulingSays | controllers/controlplane_controller_reconciler_utils.go:31-48 | Scheduling says that the pods are not ready, and leaves every other type alone |
| ControlPlaneObjects.ConcludingSays | controllers/controlplane_controller_reconciler_utils.go:50-61 | Concluding says that the pods for all Deployments are ready, whatever the list was |
| ControlPlaneObstacles.SecretsPileUp | controllers/utils.go:333-340 | With the label left out for ControlPlanes, each of n passes at the certificate stage stores one more Secret and the Deployment is never reached |
| ControlPlaneObstacles.LostForEver | controllers/utils.go:333-340 | From any live ControlPlane in a healthy cluster without a labelled certificate this is where passes end up: after ten, each further pass stores another Secret and the Deployments stay as they are |
| ControlPlaneObstacles.OneMoreSecret | controllers/utils.go:135-251 | One such pass stores a Secret that the next list does not find, or nothing if the name is taken |
| ControlPlaneObstacles.UnsupportedImageStops | controllers/controlplane_controller_reconciler_utils.go:250-253 | Without rules for the image, no pass ever gets past the ClusterRole, and passes there write nothing |
| ControlPlaneObstacles.TagDecides | internal/utils/kubernetes/resources/zz_generated_clusterrole_helpers.go:24-36 | For every image: what follows its one colon decides on the rules; "latest", no colon, or several stand for 2.5.0, and without an image the version asked for is "latest" |
| ControlPlaneDeletion.DeletionTerminates | controllers/controlplane_controller.go:115-138 | Past the grace period two passes delete exactly the cluster-wide objects of the ControlPlane and take away exactly the two operator finalizers, the others staying in order; it is gone iff none is left; a third pass does nothing |
| ControlPlaneDeletion.RolesAreGuarded | controllers/controlplane_controller.go:127-135 | In every state of every run a ControlPlane that has roles carries the finalizer for them |
| ControlPlaneDeletion.FirstPass | controllers/controlplane_controller.go:117-125 | The first pass deletes the bindings and their finalizer and leaves the roles |
| ControlPlaneDeletion.SecondPass | controllers/controlplane_controller.go:127-138 | The second pass deletes the roles and their finalizer |
| ControlPlaneDeletion.PassUnderDeletion | controllers/controlplane_controller.go:101-138 | Within the grace period a pass writes nothing |
| ControlPlaneDeletion.BindingsRun | controllers/controlplane_controller_reconciler_utils.go:352-374 | The deletion loop deletes each listed binding and nothing else |
| ControlPlaneDeletion.RolesRun | controllers/controlplane_controller_reconciler_utils.go:325-350 | The deletion loop deletes each listed role and nothing else |
| ControlPlaneResults.PassEnds | controllers/controlplane_controller.go:141-295 | An undisturbed pass of a live ControlPlane ends well, unless the first owned kind that is not as wanted has several objects, no rules, or a name that is taken, and then with the error that says which |
| ControlPlaneResults.OtherwiseEnds | controllers/controlplane_controller.go:92-113 | A pass asks for another one within the grace period, ends well for a ControlPlane that is gone, and fails where the DataPlane or its Service is absent or there are several |
| ControlPlaneResults.DeletionAnswers | controllers/controlplane_controller_reconciler_utils.go:338-348 | A served deletion never fails the loop, even of an object that is gone; any other does so once the loop is through |
| ControlPlaneResults.WriteAnswers | controllers/controlplane_controller.go:183-218 | Whether a write is accepted depends on the stored revision alone; a conflict asks for another pass where a retry is wanted, and all else is an error |
| ControlPlaneResults.OwnedWriteAnswers | controllers/controlplane_controller_reconciler_utils.go:197-301 | A refused write of an owned object ends the pass with its error, a conflict included; after an accepted one the pass is over, but for the status of a Deployment without a DataPlane |
| ControlPlaneResults.FailedReadsEnd | controllers/controlplane_controller.go:92-98 | A read that fails ends the pass with an error and writes nothing |
| ControlPlaneResults.AuthorityFirst | controllers/utils.go:135-251 | A certificate is stored only right after the authority was read |
| ControlPlaneResults.WhoRetries | controllers/controlplane_controller.go:141-162 | A retry is wanted for the environment, but not for finalizers, scheduling or deletion |
| ControlPlaneResults.StatusReadAnswers | controllers/controlplane_controller.go:298-309 | The status is written iff the stored one says something else as a map, and one that is gone counts as empty |
| ControlPlaneResults.ListHas | internal/utils/kubernetes/lists.go:16-214 | An owner list has exactly the objects with the label and an owner reference, of one namespace for ServiceAccounts and Deployments, and of all for certificates |
| ControlPlaneReconciler.Reconciler.Reconcile | controllers/controlplane_controller.go:88-295 | Whatever others do between its calls and however these fare, the reconciler leaves the cluster, and ends, as the pass machine does |
| ControlPlaneReconciler.Reconciler.Sustain | controllers/controlplane_controller.go:141-162 | The pass of a live ControlPlane is a stretch of the machine, from the finalizers on |
| ControlPlaneReconciler.Reconciler.Provision | controllers/controlplane_controller.go:150-181 | The same from scheduling on |
| ControlPlaneReconciler.Reconciler.DataPlaneServiceName | internal/utils/gateway/ownerrefs.go:90-133 | The same for following the DataPlane to the one Service it owns |
| ControlPlaneReconciler.Reconciler.EnsureEnvironment | controllers/controlplane_controller.go:183-218 | The same for both writers of the environment; a conflict asks for a retry |
| ControlPlaneReconciler.Reconciler.EnsureDataPlaneConfiguration | controllers/controlplane_controller_reconciler_utils.go:96-110 | Writes iff a lookup is wrong, and refreshes the copy from the reply, conditions included |
| ControlPlaneReconciler.Reconciler.EnsureObjects | controllers/controlplane_controller.go:220-254 | The same for the chain of owned objects |
| ControlPlaneReconciler.Reconciler.EnsureRunning | controllers/controlplane_controller.go:256-295 | The same for the Deployment and the concluding status; `ListConcludes` says when it is concluded |
| ControlPlaneReconciler.Reconciler.EnsureOwned | controllers/controlplane_controller_reconciler_utils.go:205-301 | The same for one plain kind; the write into the label map never meets an absent map, since listed objects carry the label |
| ControlPlaneReconciler.Reconciler.EnsureCertificate | controllers/utils.go:135-251 | The same for the certificate, which is created only after the authority was read |
| ControlPlaneReconciler.Reconciler.EnsureDeployment | controllers/controlplane_controller_reconciler_utils.go:119-203 | The same for the Deployment, edited in memory and written iff an edit was needed |
| ControlPlaneReconciler.Reconciler.RepairBody | controllers/controlplane_controller_reconciler_utils.go:146-197 | The edits of the object graph are the repair of the value |
| ControlPlaneReconciler.Reconciler.EnsureOwnedDeleted | controllers/controlplane_controller_reconciler_utils.go:325-374 | The same for the deletion loops, which go on after a failure and then fail |
| ControlPlaneReconciler.Reconciler.CleanUp | controllers/controlplane_controller.go:115-138 | The same for the whole deletion path |
| ControlPlaneReconciler.Reconciler.UpdateStatus | controllers/controlplane_controller.go:298-309 | Reads the stored conditions afresh and writes iff they say something else |
| ControlPlaneClient.ApiClient.ListForOwner | internal/utils/kubernetes/lists.go:16-214 | Lists by label and keeps what the owner owns; everything listed carries the label |
| ControlPlaneClient.ControlPlaneCopy.EnsureIsMarkedScheduled | controllers/controlplane_controller_reconciler_utils.go:31-48 | Marks scheduling iff Provisioned is absent |
| ControlPlaneClient.ControlPlaneCopy.EnsureDataPlaneStatus | controllers/controlplane_controller_reconciler_utils.go:66-90 | Marks whether a DataPlane is set unless status and reason say so; then the reason found is PodsNotReady or NoDataplane |
| ControlPlaneClient.ControlPlaneCopy.EnsureIsMarkedProvisioned | controllers/controlplane_controller_reconciler_utils.go:50-61 | Marks provisioning and evaluates Ready |
| ControlPlaneEnv.DefaultedIdempotent | controllers/controlplane_controller_utils.go:25-84 | The defaults applied twice give exactly the list of applying them once, and the second time report nothing, for any list and any exceptions |
| ControlPlaneEnv.DefaultedLookups | controllers/controlplane_controller_utils.go:25-84 | After the defaults each managed name, unless it is kept, gives the pod field, `namespace/service`, `https://service.namespace.svc:9444` or the certificate path that belongs to it; without a named namespace and Service the two Service entries are left alone |
| ControlPlaneEnv.DefaultedKeepsOthers | controllers/controlplane_controller_utils.go:25-84 | Entries outside the seven managed names keep content and order |
| ControlPlaneEnv.SilentRewrite | controllers/controlplane_controller_utils.go:73-81 | Where nothing is reported as changed, the list is untouched iff the certificate entries are its last ones, in order, and nowhere else |
| ControlPlaneEnv.CertificatesNormalForm | controllers/controlplane_controller_utils.go:73-81 | The certificate paths end up last, once each |
| ControlPlaneEnv.FollowedSettles | controllers/controlplane_controller_utils.go:86-117 | The second writer settles in one application |
| ControlPlaneEnv.FollowedLookups | controllers/controlplane_controller_utils.go:86-127 | After following the DataPlane both lookups give these values, or nothing if none is set |
| ControlPlaneEnv.FollowedChanges | controllers/controlplane_controller_utils.go:86-117 | It changes the list exactly when one of the two lookups is wrong |
| ControlPlaneEnv.FollowedKeepsOthers | controllers/controlplane_controller_utils.go:86-117 | It keeps entries outside the managed names in content and order |
| ControlPlaneEnv.WritersAgreeWhenSet | controllers/controlplane_controller_utils.go:86-103 | With a DataPlane set and named namespace and Service, the first writer leaves no work for the second, and both lookups give the publish service and the admin URL |
| ControlPlaneEnv.WritersSettleWhenUnset | controllers/controlplane_controller_utils.go:104-117 | Without one, a round of both is a fixed point of both in which both lookups are empty |
| ControlPlaneEnv.FollowedKeepsDefaults | controllers/controlplane_controller_utils.go:86-117 | Following the DataPlane never makes the defaults report a change again |
| ControlPlaneEnv.DeploymentOptions.SetControlPlaneDefaults | controllers/controlplane_controller_utils.go:25-84 | Edits the list in place to the defaulted one, with both Service lookups right, and reports iff one of the four comparisons fails |
| ControlPlaneEnv.DeploymentOptions.SetEnvOnDataPlaneChange | controllers/controlplane_controller_utils.go:86-117 | Edits the list in place to what follows the DataPlane, with both lookups right, and reports iff one was wrong |
| EnvVars.ReplaceLookups | controllers/controlplane_controller_utils.go:150-181 | Updating an entry sets the lookups of its name and of no other |
| EnvVars.ReplaceDrop | controllers/controlplane_controller_utils.go:150-181 | Updating an entry leaves the entries of all other names in content and order |
| EnvVars.UpdateEnv | controllers/controlplane_controller_utils.go:150-164 | All entries of the name are replaced by one, put last |
| EnvVars.UpdateEnvSource | controllers/controlplane_controller_utils.go:167-181 | The same for an entry with a source |
| EnvVars.RejectEnvByName | controllers/controlplane_controller_utils.go:185-193 | All entries of the name go, the others stay in order |
| EnvVars.EnvValueByName | controllers/controlplane_controller_utils.go:130-137 | The value of the first entry of the name, or empty |
| EnvVars.FirstEntryCounts | controllers/controlplane_controller_utils.go:130-148 | The first entry of a name gives value and source, and a name without entries gives neither |
| EnvVars.EnvVarSourceByName | controllers/controlplane_controller_utils.go:141-148 | The source of the first entry of the name, if any |
| Conditions.NeedsUpdateIsDifference | internal/utils/kubernetes/status.go:141-156 | On lists without repeated types a write is needed iff the lists differ as maps from type to status, reason and message |
| Conditions.NeedsUpdateIsMismatch | internal/utils/kubernetes/status.go:141-156 | No write is needed iff the lists are equally long and each entry has one of its type with the same status, reason and message |
| Conditions.NeedsUpdateMissesWithRepeats | internal/utils/kubernetes/status.go:141-156 | The comparison can miss a difference for some updated list if and only if the current list repeats a type and its entries of each type agree |
| Conditions.UniqueMissesNothing | internal/utils/kubernetes/status.go:141-156 | If the current list repeats no type, no difference is missed, whatever the updated list is |
| Conditions.DisagreementNeedsUpdate | internal/utils/kubernetes/status.go:141-156 | Repeats that disagree always ask for a write |
| Conditions.RepeatsHideAChange | internal/utils/kubernetes/status.go:141-156 | An agreeing repeat replaced by an entry of a new type passes as unchanged |
| Conditions.PutMeaning | internal/utils/kubernetes/status.go:54-64 | Setting a condition updates the map at its type only and keeps types unique |
| Conditions.PutIsFound | internal/utils/kubernetes/status.go:54-74 | A condition that was set is the one found, even in a list with repeats |
| Conditions.PutLeavesOthers | internal/utils/kubernetes/status.go:54-74 | What is found under another type is untouched, even in a list with repeats |
| Conditions.ReadyReset | internal/utils/kubernetes/status.go:87-90 | The reset makes Ready false because others are not ready, and leaves every other type alone |
| Conditions.ReadyEvaluated | internal/utils/kubernetes/status.go:92-105 | After evaluation Ready is true iff all other conditions are, and nothing else changed |
| Conditions.ConditionsAware.SetCondition | internal/utils/kubernetes/status.go:54-64 | Rebuilds the list with all entries of the type replaced by the new one, put last, and keeps all others |
| Conditions.ConditionsAware.GetCondition | internal/utils/kubernetes/status.go:67-74 | Finds the first entry of the type |
| Conditions.ConditionsAware.InitReady | internal/utils/kubernetes/status.go:87-90 | Sets Ready to false, with the reason that others are not ready |
| Conditions.ConditionsAware.SetReady | internal/utils/kubernetes/status.go:92-105 | Sets Ready by the conjunction of the other conditions |
| Conditions.ConditionsAware.AreAllConditionsReady | internal/utils/kubernetes/status.go:108-116 | True iff every condition but Ready is true |
| Conditions.ConditionsAware.IsReady | internal/utils/kubernetes/status.go:119-126 | True iff the list says that Ready is true |
| Conditions.StatusNeedsUpdate | internal/utils/kubernetes/status.go:141-156 | The loop decides the comparison, hence on unique types the difference of the maps |
| Metadata.WithFinalizersAddsMissing | internal/utils/kubernetes/metadata.go:24-43 | Finalizers present stay in front, all wanted ones are there, and the list changes iff one was missing |
| Metadata.WithoutRemovesOne | internal/utils/kubernetes/metadata.go:46-64 | Exactly the unwanted finalizer goes |
| Metadata.EnsureFinalizers | internal/utils/kubernetes/metadata.go:24-43 | The loop appends the missing finalizers in turn and reports iff there were any |
| Metadata.RemoveFinalizer | internal/utils/kubernetes/metadata.go:46-64 | The loop removes the finalizer and reports iff it was there |
| Metadata.RepairSettles | internal/utils/kubernetes/metadata.go:68-85 | A metadata update is reported iff owners or a generated label differ; it keeps foreign labels and leaves nothing to update |
| Metadata.EnsureObjectMetaIsUpdated | internal/utils/kubernetes/metadata.go:68-85 | The loop over the generated labels does that update; it may not be given an absent label map |
| Metadata.SetOwner | internal/utils/kubernetes/ownerrefs.go:29-40 | Appends the owner, behind those that are there, unless one has its UID |
| Metadata.IsOwnedByRefUid | internal/utils/kubernetes/ownerrefs.go:43-50 | True iff some owner reference has the UID |
| Cluster.ListOwnedIsOwnedRefs | internal/utils/kubernetes/lists.go:16-214 | The owner lists enumerate, without repetition, exactly the labelled objects that the UID owns |
| Cluster.FilterOwned | internal/utils/kubernetes/lists.go:36-46 | The filter loop keeps the owned items in order |
| Deployments.RepairReachesGoal | controllers/controlplane_controller_reconciler_utils.go:146-197 | One repair of any Deployment reaches the goal (environment and sources of the main container, replicas 0 iff no DataPlane) and a second finds nothing to do; sidecars, image and a chosen scale survive; it scales to zero without a DataPlane, leaves the scale to the server when one was set again, and keeps a scale chosen by a user |
| Deployments.ScaledToNothingAndBack | controllers/controlplane_controller_reconciler_utils.go:159-176 | Scaled to nothing and back, a Deployment has no scale of its own, whatever it had before, and is otherwise as if it had never been scaled |
| Deployments.DeploymentObject.Repair | controllers/controlplane_controller_reconciler_utils.go:146-197 | The edits through the container reference are that repair, and are reported iff the goal was not met |
| Deployments.DeploymentObject.EnsureMainContainer | controllers/controlplane_controller_reconciler_utils.go:150-157 | The container set is replaced iff it lacks the main container, and the reference returned leads into the set |
| Deployments.DeploymentObject.GetPodContainerByName | internal/utils/kubernetes/resources/containers.go:9-16 | A reference to the first container of the name, or none |
| Deployments.DeploymentObject.Scale | controllers/controlplane_controller_reconciler_utils.go:159-176 | Scales to zero without a DataPlane, and takes a zero back, leaving the scale to the server, when one was set |
| Deployments.OneSlotEdited | controllers/controlplane_controller_reconciler_utils.go:182-190 | An edit through the reference is an update at the index of its slot |
| DataPlaneDefaults.OneOutcome | internal/utils/dataplane/config.go:75-83 | For all orders of visiting the map and all sorts defaulting has one outcome if and only if no two different entries, among those of the user and the absent defaults, share name and value run together |
| DataPlaneDefaults.DefaultingIsIdempotent | internal/utils/dataplane/config.go:75-83 | Under exactly the same condition defaulting twice is bound to be defaulting once |
| DataPlaneDefaults.UserValuesSurvive | internal/utils/dataplane/config.go:72-74 | With unique names, user entries are found as they are, and no default comes beside one |
| DataPlaneDefaults.DataPlaneOptions.SetDataPlaneDefaults | internal/utils/dataplane/config.go:75-83 | Visiting the map in any order, the result is all user entries and exactly the absent defaults, with name and value run together ascending character by character |
| DataPlaneDefaults.IsEnvVarPresent | internal/utils/kubernetes/envvars.go:14-21 | True iff an entry has the name |
| EnvOrder.SortedIsUnique | internal/utils/kubernetes/envvars.go:33-37 | Without twins the sorted arrangement is unique |
| EnvOrder.TwinsAreAmbiguous | internal/utils/kubernetes/envvars.go:33-37 | An unstable sort has one possible result if and only if no two different entries have the same key |
| EnvOrder.TwinsMaySwap | internal/utils/kubernetes/envvars.go:33-39 | Two different entries of the same key in any sorted list may stand either way |
| EnvOrder.BeforeIsTotal | internal/utils/kubernetes/envvars.go:33-37 | The comparison of keys is a strict total order: never both ways, never of a key with itself, and always some way unless the keys are equal |
| EnvOrder.AscendingIsNotBefore | internal/utils/kubernetes/envvars.go:33-37 | Not coming after means being a prefix or having the smaller character at the first difference |
| EnvOrder.SortedAscends | internal/utils/kubernetes/envvars.go:33-37 | A list is sorted iff name and value, run together, ascend in that sense |
| EnvOrder.NotLessIsTransitive | internal/utils/kubernetes/envvars.go:33-37 | Not being less carries over from entry to entry, as a sort needs |
| EnvOrder.SortableEnvVars.Swap | internal/utils/kubernetes/envvars.go:39-39 | The exchange of the sort, a permutation |
| EnvOrder.SortableEnvVars.Sort | internal/utils/dataplane/config.go:82-82 | What the sort promises: ascending, character by character, and a permutation |
| DataPlaneAgreement.CheckAgrees | internal/validation/dataplane/validation.go:38-59 | For all options with one object per reference: if a container starts, it is without a database exactly if the check accepts, if and only if a reference dangles and there is a database, or none does and the last entry that names the mode, or else the last source whose prefix fits, meets a stated condition |
| DataPlaneAgreement.AgreesWithEntry | internal/validation/dataplane/validation.go:63-94 | For an entry: a literal or config map text always; a secret iff what it decodes to, or the sources if it does not decode, is allowed just when its text is; an empty text that is referred to iff the sources are allowed; a missing optional key iff the sources are allowed just when the container, which passes over it, is without a database; a bare empty literal iff the earlier entries, or the sources, are allowed |
| DataPlaneAgreement.DanglingIsRefused | internal/validation/dataplane/validation.go:127-195 | A reference to an object that does not exist is refused, even if it is optional |
| DataPlaneAgreement.AgreesWithSource | internal/validation/dataplane/validation.go:96-125 | For a source: a config map that holds the key always; a secret that holds it iff what it decodes to is allowed just when its text is; one that lacks the key iff the sources before it give no database |
| DataPlaneValidation.HiddenSources | internal/validation/dataplane/validation.go:96-125 | With secrets read as the check decodes them and no entries, check and container agree iff the last source whose prefix fits holds a value or the container is without a database |
| DataPlaneAgreement.HiddenDatabase | internal/validation/dataplane/validation.go:96-125 | Any source that fits by its prefix and lacks the key, put last, makes the check accept and changes nothing for the container |
| DataPlaneAgreement.AnyModeHides | internal/validation/dataplane/validation.go:156-172 | Of two config maps without the key in the second, any mode in the first is accepted, and the container runs with it |
| DataPlaneAgreement.PlainSecretsSlipThrough | internal/validation/dataplane/validation.go:140-154 | For a mode in a secret alone, check and container agree if and only if the text does not decode, or decodes to an allowed mode, just when it is an allowed mode itself |
| DataPlaneAgreement.EmptyLiteralIsRefused | internal/validation/dataplane/validation.go:63-94 | A database followed by an empty literal is refused, though the container runs without one |
| DataPlaneAgreement.BlankTextIsPassedOver | internal/validation/dataplane/validation.go:63-94 | An empty text that is referred to, put last: the container has no database, while the check accepts iff it accepts the sources |
| DataPlaneAgreement.MissingKeyHidesEntries | internal/validation/dataplane/validation.go:63-94 | An optional key that is missing, put last, changes nothing for the container, while the check forgets the entries before it and accepts iff the object exists and the sources are accepted |
| DataPlaneAgreement.AnyModeIsForgotten | internal/validation/dataplane/validation.go:127-138 | Before such a key any literal mode is accepted, and the container runs with it |
| DataPlaneValidation.AgreesWhenDecoded | internal/validation/dataplane/validation.go:38-195 | With secrets read in the decoding of the check, it accepts exactly the options whose container has no database, whenever all references exist and the last entry that names the mode, or else the last source whose prefix fits, holds a value |
| DataPlaneValidation.ErrorsAreTrue | internal/validation/dataplane/validation.go:38-195 | An error names a config map or secret that is referred to and does not exist, or a mode that is neither empty nor "off" |
| DataPlaneValidation.SuffixIsTheKey | internal/validation/dataplane/validation.go:168-171 | The trimmed suffix is the one key that makes the name with the prefix |
| DataPlaneValidation.LastEntryDecides | internal/validation/dataplane/validation.go:63-94 | The last entry that names the mode decides the scan |
| DataPlaneValidation.LastMatchDecides | internal/validation/dataplane/validation.go:96-125 | The last source whose prefix fits decides the scan, even if it holds nothing |
| DataPlaneRepeats.DefaultingAccepted | internal/utils/dataplane/config.go:75-83 | For all options: every outcome of defaulting is accepted if and only if no entry names the mode, or all references exist and, with a literal among the entries for the mode, "off" is one and all ascend to it, or, without a literal, each reference for itself passes, and the sources do if there is none |
| DataPlaneRepeats.ReferencesDecide | internal/utils/dataplane/config.go:82-82 | With the mode named by references alone, which have equal keys, the sort may put any of them last, so that each has to pass |
| DataPlaneRepeats.DefaultingKeepsValidity | internal/utils/dataplane/config.go:75-83 | If at most one entry names the mode, accepted options are still accepted after defaulting |
| DataPlaneRepeats.SortingDecides | internal/utils/dataplane/config.go:82-82 | If some entry gives the mode as a literal, defaulted options are accepted if and only if all references exist, "off" is among the literals, and every one is a prefix of it or has the smaller character at the first difference |
| DataPlaneRepeats.OvertakenLiteral | internal/utils/dataplane/config.go:82-82 | Any literal mode followed by "off" is accepted as given, and after defaulting if and only if it ascends to "off": "etcd" does, "postgres" does not |
| DataPlaneRepeats.OvertakenReference | internal/utils/dataplane/config.go:82-82 | Two keys of one config map, the last "off", are accepted as given, and under every outcome of defaulting if and only if the first holds an allowed mode as well |
| DataPlaneValidation.Validator.ValidateDeployOptions | internal/validation/dataplane/validation.go:38-59 | Entries first; sources only if no entry was found; only the database-less mode passes |
| DataPlaneValidation.Validator.DbModeFromEnv | internal/validation/dataplane/validation.go:63-94 | The loop is the scan: the first failure ends it, later entries overwrite |
| DataPlaneValidation.Validator.DbModeFromEnvFrom | internal/validation/dataplane/validation.go:96-125 | The same over the sources |
| DataPlaneValidation.Validator.ValueFromConfigMapKeyRef | internal/validation/dataplane/validation.go:127-138 | A missing config map is an error, a missing or empty key is no value |
| DataPlaneValidation.Validator.ValueFromSecretRef | internal/validation/dataplane/validation.go:140-154 | The same for a secret, whose content has to decode |
| DataPlaneValidation.Validator.DbModeFromConfigMapRef | internal/validation/dataplane/validation.go:156-172 | The value under the trimmed suffix, if any |
| DataPlaneValidation.Validator.DbModeFromSecretRef | internal/validation/dataplane/validation.go:174-195 | The same for a secret, in the other decoding |
| DataPlaneStatus.MarkingRefinesPut | controllers/dataplane_controller_reconciler_utils.go:86-104 | On unique types the in-place loop means the same as setting the condition, and touches the list iff a comparison of the statuses asks for a write |
| DataPlaneStatus.DataPlane.EnsureIsMarkedNotProvisioned | controllers/dataplane_controller_reconciler_utils.go:72-110 | The loop overwrites entries of the type that say something else, or appends one, and asks for a write iff the list changed |

## Left out

- ControlPlaneConvergence.ProvisionedMeansInPlace: is about undisturbed passes; `ConclusionsAreHonest`, `ConclusionsRun` and `ConclusionsWereServed` are its counterparts over all runs.
- ControlPlaneConvergence.NeverProvisionedDetached: is about undisturbed passes; `NeverConcludesDetached` is its counterpart over all runs.
- ControlPlaneConverged.ConvergedObjects: speaks of a Deployment whose body is that of a Deployment, which the API guarantees.
- ControlPlaneConvergence.Converges: assumes that passes run one after the other with no other writer in between; a change from outside starts the count anew.
- ControlPlaneOwnership.DeletionsHitTheirOwn: assumes that no name is made anew while a deletion loop has it before it; the deletions carry no precondition on the UID, and `ReusedNameIsDeleted` shows what happens otherwise.
- ControlPlaneWiring.Wiring: assumes that nobody else deletes or rewires objects of stored ControlPlanes.
- ControlPlaneConclusion.ConclusionsAreHonest: makes the same assumption; with certificates that do not get their label there may be more than one.
- ControlPlaneRunning.ConclusionsRun: assumes in addition that nobody else edits the Deployment, and does not say that the published Service still exists, or that the Deployment still serves at the write; that it did before is `ConclusionsWereServed`.
- DataPlaneAgreement.CheckAgrees: takes each reference to be to one object, as the API server demands. A container with a dangling reference that is not optional does not start, and agrees with any answer. Values taken from the pod itself count as unknown, that is, as no database.
- Ready=True implying that all other conditions are true is not claimed for the status write at controllers/controlplane_controller.go:264, which may follow an update that brought stored conditions back.
- The DataPlane reconciler's own pass (controllers/dataplane_controller.go) with its Service, certificate and Deployment stages: the same list, create and repair scheme as the ControlPlane's.
- Watch predicates and request mapping in controllers/controlplane_controller_watch.go, and the Gateway list helpers: they only read.
- Certificate cryptography and expiry in controllers/utils.go: a created Secret has no contents here; reading the authority is a call that may fail.
- Semantic versions and the rule tables of ClusterRoles: the partial function `roleFor`.
- Base64: two partial functions.
- The values of the DataPlane's defaults, other than that of the database mode: constant data.
- Defaults filled in by the API server, and absent against empty lists and maps, which are not told apart; so a label map is taken as absent when it is empty.
- The ControlPlane declares its condition accessors under other names than the status helpers ask for (apis/v1alpha1/controlplane_types.go:91-97 against apis/v1alpha1/dataplane_types.go:76-84); the model gives it working ones.
- API version and controller flags of owner references, annotations, probes, ports, volumes and pod metadata: constant data.
- Cached reads: reads here see the stored state; a worker is alone at its key.
- The owner reference that a pass sets on its in-memory DataPlane (controllers/controlplane_controller.go:173) is never written, and left out.
- The algorithm of the library sort: an insertion sort stands for it, and only sortedness and permutation are used.
- Strings are compared by code points, which orders them as their UTF-8 bytes are ordered.
