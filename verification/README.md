# A model of the Kubewarden controller, with proofs

The Kubewarden controller keeps policy servers running and routes admission requests to the policies they serve. Two
reconcilers do it without talking to each other. One turns a `PolicyServer` into secrets, a ConfigMap of policies, a
Deployment and a Service. The other creates the webhook of a policy once every pod of its server is known to serve it.
They meet only in resource versions, an annotation, pod-template hashes and finalizers.

The project models both reconcilers, defaulting and validation, and the part of Kubernetes they lean on, as one state
machine, and proves what must hold in every state of every run.

| files | what they hold |
|---|---|
| `Common`, `Naming`, `Model` | stock types, derived names, the stored objects |
| `Api`, `Admission` | what each API call does; defaulting and validation |
| `ConfigMaps`, `Deployments`, `Secrets`, `Webhooks`, `Events` | the resources, one module each, and the event mapping |
| `Pipeline`, `PolicyController` | what one reconciliation of a server or of a policy does |
| `Cluster`, `ServerReconciler`, `PolicyReconciler` | the same as code that changes state in place, proved equal to the functions |
| `Protocol`, `Paths` | the state machine, its runs, and finite paths of it |
| `Effects`, `Invariants`, `PolicyChanges`, `ServerChanges`, `RolloutChanges`, `StageChanges`, `PolicyRunChanges`, `Steps`, `Transitions` | the inductive invariant and why every step keeps it |
| `Safety` | the guarantees over all runs |
| `Deletion`, `DeletionRuns` | that deletion ends, whatever else goes on |
| `Progress`, `Rollout`, `Liveness`, `Starvation` | when policies can become active, and when they cannot |
| `Outcomes` | what requests are answered, and the status they leave |
| `Staleness`, `Origins`, `Kinds` | of which spec, and how current, is what is served, mounted, certified and routed |
| `Races`, `Limits` | where the guarantees end, and exactly when |

## How the state machine works

`Protocol.Step` lists what can happen next. Users create, update and delete policies and servers, or restart a rollout.
The deployment controller makes a replica set from the present template, copies the configuration annotation, gives it a
revision above those of its siblings, and records that revision. Pods start from any replica set, read the ConfigMap as
it is at that moment, become ready, restart and vanish, in any order. A server's reconciliation is split into reading,
one step per stage, and the status write. A policy's is split into the reads through the gate, the webhook, and the
status write. Anything else may happen between these steps, and the controller may crash and forget its runs. Every
API call of the controller may fail; which calls fail is a parameter (`faults`).

What holds in every run is proved with pods started from any replica set in any number. What can happen is proved on paths
(`Paths.Leads`) that start a pod only from a replica set of the server's present deployment, and never more than it asks
for.

A run is *disciplined* when users keep to `Protocol.Disciplined`: no two policies share a unique name; `mutating` stays
fixed; finalizers of objects under deletion are left to the controller; no server is called `root-ca`; and a policy name
is not created again while a run that no longer saw it is about to write the ConfigMap. `Naming.UniqueNameCollisions`,
`Limits` and `Races` show what goes wrong without the rules on names, kinds, `root-ca` and reuse.

## Assumptions

- One worker per key, and reads that see earlier writes. A teardown of a server and the last call of a deleted policy are
  single steps.
- A failed API call writes nothing. A status write that the API server would refuse as outdated may succeed in the
  model, which therefore has more runs than the cluster, not fewer.
- A pod reads the ConfigMap the API server holds at that moment; the delay with which mounted ConfigMaps are refreshed
  is not modelled.
- Patches are JSON merge patches (RFC 7386): an empty difference writes nothing and keeps the resource version.
- Pod-template hashes and uids are unique. Resource versions are drawn from one growing counter.
- Names are never empty. Both list calls of a server's reconciliation succeed in the state machine; what a failing one
  does is `Limits.FailedListsLosePoliciesExactly` and `Limits.FailedListsLetServerGoExactly`.
- Certificates are values that say who issued and signed them. JSON text is the value it encodes, with nil and empty
  kept apart for sources.

## Where code and documentation differ

- `rfc/0001-policy-server-custom-resource.md:244-250` asks for every policy to be gone before its server. The code waits
  for live policies only (`controllers/policyserver_controller.go:64`): `Limits.TeardownWaitsForLivePoliciesOnly`.
- The CRD promises that `protect` is never left (`config/crd/bases/policies.kubewarden.io_clusteradmissionpolicies.yaml:84-95`).
  With the modes the schema allows validation keeps that promise (`Admission.HistoryKeepsServerAndProtect`); by itself it
  lets go of `protect` through any third mode, and only so (`Admission.MonitorOnlyThroughOtherModes`,
  `Admission.OtherModesLeaveProtectExactly`).
- Reachability is about the policy's name in the ConfigMap, not about the entry under it
  (`controllers/policystatus_utils.go:132-142`): after an update a policy is active and uniquely reachable under its
  former entry (`Staleness.StaleEntryIsReachable`) until a run that began since has written the ConfigMap
  (`Staleness.EntryIsCurrentExactly`). The routing guarantee is stated for names accordingly.
- An entry in the ConfigMap is decoded into nil sources when it was written from empty ones, so a server without sources
  asks for a patch on every run; the patch is an empty difference (`ConfigMaps.EmptySourcesAlwaysDiffer`).

## Where the guarantees end

Within the rules for users, three things may be out of date while every condition is true. The entry under a policy's name
is that of an earlier spec until a run that began since the update has written the ConfigMap. A policy deleted and created
again as the other kind may be routed at once under the entry of its earlier life, so that the policy server still has it
allowed, or not allowed, to change requests as before (`Kinds.KindsAgreeExactly`, `Kinds.KindsCanPart`). And a deployment
keeps the former verification ConfigMap or pull secret when only that name changes in the spec, as the test for updates
never looks at it (`Deployments.RenamedSourcesAreMissed`). Without the rules, `Races` and `Limits` say what else can happen.

## Model

| member | source | states |
|---|---|---|
| `Safety.NoPrematureRouting` | controllers/policy_utils.go:117-154 | in every reachable state, once a live policy has a webhook, every pod of its server that has read a configuration, of any revision, ready or not, knows the policy; a ready pod has read one |
| `Safety.ConfiguredWhileRouted` | controllers/policystatus_utils.go:99-101 | in every reachable state the server's ConfigMap exists and holds every live policy that has a webhook |
| `Safety.NoOrphanWebhooks` | controllers/policy_utils.go:180-221 | in every reachable state each webhook configuration belongs to an existing policy of that name and kind that still carries the finalizer, and leads to that policy's path at its own server's Service |
| `Safety.RootNeverChanges` | internal/pkg/admission/policy-server-ca-secret.go:22-29 | over every run, the root secret stays as first stored |
| `Safety.TrustChain` | internal/pkg/admission/policy-server-ca-secret.go:31-81 | in every reachable state all serving secrets are issued and signed by the stored root, and every webhook's CA bundle is that root's |
| `Safety.OwnedNeverOutlive` | internal/pkg/admission/reconciler.go:40-123 | in every reachable state a Deployment, Service, ConfigMap or serving secret of a server exists only while the server does |
| `Safety.FinalizerComesOffLast` | controllers/policyserver_controller.go:96-121 | in every run a server loses its finalizer only by its own teardown, with all four resources gone and no live policy bound |
| `Safety.LatestIsUnique` | controllers/policystatus_utils.go:83-86 | in every reachable state at most one replica set of a server passes the test for the latest one |
| `Safety.GateIgnoresOrder` | controllers/policystatus_utils.go:88-130 | in every reachable state the answer of the gate does not depend on the order in which replica sets are listed |
| `Safety.VersionsCohere` | internal/pkg/admission/policy-server-deployment.go:343-372 | in every reachable state a deployment's annotation and template label name the same configuration version, no newer than the ConfigMap's |
| `Safety.VersionsAreHistoric` | internal/pkg/admission/policy-server-deployment.go:108-115 | in every run that version is one the server's ConfigMap had in an earlier state of the run |
| `Safety.ReconcileNeverStuck` | internal/pkg/admission/reconciler.go:152-248 | in every reachable state a reconciliation whose API calls succeed succeeds |
| `Safety.StatusIsTrue` | controllers/policy_utils.go:84-170 | in every reachable state a live policy that is active has a webhook, and the condition PolicyActive implies state active and PolicyUniquelyReachable |
| `Safety.PendingOnlyThroughScheduled` | controllers/policy_utils.go:105-107 | no run takes a live policy from active to pending without passing through scheduled |
| `Transitions.InvariantStep` | controllers/policy_utils.go:69-221 | every step of users, controller, rollout and pods keeps the whole invariant |
| `Transitions.StepKeepsRoot` | internal/pkg/admission/policy-server-ca-secret.go:22-29 | no step changes or deletes the root secret, whatever the faults |
| `Transitions.StepLetsGo` | controllers/policyserver_controller.go:96-121 | only a teardown takes a server's finalizer, and then nothing it owns and no live policy is left |
| `Transitions.StepNeverDemotes` | controllers/policy_utils.go:105-107 | no single step takes a live active policy to anything but active or scheduled |
| `Transitions.StepVersions` | internal/pkg/admission/policy-server-deployment.go:96-123 | after any step a deployment's configuration version is its former one or its ConfigMap's present one |
| `PolicyRunChanges.GateImpliesKnown` | controllers/policystatus_utils.go:88-130 | when the gate opens, the ConfigMap has the policy and every pod of the server that has read a configuration has read one with it |
| `Effects.StageEffect` | internal/pkg/admission/reconciler.go:152-248 | each stage writes only its own resource, and what it leaves there fits the server, its policies and the root in memory |
| `Effects.TeardownEffect` | controllers/policyserver_controller.go:96-121 | a teardown touches only what is the server's; with a live policy bound it only marks policies for deletion |
| `Deletion.DeletionStepDecreases` | controllers/policyserver_controller.go:96-121 | every controller step towards the end of a server, those of runs still under way included, strictly lowers a natural-number measure and keeps the invariant |
| `Deletion.NextStep` | controllers/policyserver_controller.go:55-121 | until the server and its policies are gone, such a step is enabled |
| `DeletionRuns.StepCosts` | controllers/policyserver_controller.go:96-121 | of all steps of users who leave the server alone, other servers and policies, rollouts, pods and crashes, none raises the measure but a policy of the server being taken up anew, by at most two; every deletion step lowers it |
| `DeletionRuns.DeletionEnds` | controllers/policyserver_controller.go:96-121 | in every disciplined run, whatever comes in between, the deletion steps of a server are at most the measure at the start and two for each time a policy of it was taken up anew, never once all are marked; no step is left if and only if server, policies, the four resources and every webhook leading to it are gone |
| `DeletionRuns.TeardownMarksAll` | controllers/policyserver_controller.go:97-105 | after the first teardown whose calls succeed no policy of the server is live |
| `DeletionRuns.MarkedForGood` | controllers/policyserver_controller.go:97-105 | from then on none is live again, and none is taken up |
| `DeletionRuns.NamesAreCleared` | controllers/policy_utils.go:180-221 | unless users create policies meanwhile, the names of the server's policies are free of webhooks at the end |
| `Deletion.FinalizeRemoves` | controllers/policy_utils.go:180-195 | a deleted policy held by nobody else is removed by one call that succeeds |
| `Progress.ReconciledServes` | internal/pkg/admission/reconciler.go:152-248 | after a successful reconciliation the ConfigMap holds the exact entry of every live policy, the deployment asks for that ConfigMap, and a root is stored |
| `Progress.StagesMakeTheRun` | internal/pkg/admission/reconciler.go:152-248 | the machine's stage steps, uninterrupted, are the whole reconciliation: same store, conditions and outcome |
| `Progress.PolicyBecomesActive` | controllers/policy_utils.go:84-157 | after a successful server reconciliation and a completed rollout, one reconciliation makes the policy active with all conditions true, its own mode, and exactly the desired webhook |
| `Rollout.RolloutCanComplete` | controllers/policystatus_utils.go:88-130 | from every state of the invariant, rollout steps alone, starting no pod that is not asked for, reach a state with as many pods as the deployment wants, all ready and from its present replica set |
| `Liveness.ServerGetsReconciled` | controllers/policyserver_controller.go:55-94 | from every reachable state, one run of a live idle server is a whole successful reconciliation |
| `Liveness.PolicyGetsReconciled` | controllers/policy_utils.go:69-82 | the steps of a policy run, uninterrupted, are the whole reconciliation of the policy |
| `Liveness.PolicyCanBecomeActive` | controllers/policy_utils.go:84-157 | from every reachable state, whatever is under way, steps no user takes reach a state where a live policy of a live server with at least one replica is active with its desired webhook, and the server serves its present spec |
| `Liveness.FirstPolicyGetsServed` | controllers/policy_utils.go:69-170 | from the empty cluster, for every server with at least one replica and every policy of it, a disciplined run reaches a state at rest where the policy is routed and served |
| `Starvation.StarvedStaysInactive` | controllers/policystatus_utils.go:119-121 | while a server has no pods and neither it, a run of its reconciler nor its deployment asks for any, no steps but users' ever make an inactive policy of it active |
| `Starvation.BecomesActiveExactly` | controllers/policystatus_utils.go:88-130 | where a server has no pods and no deployment asking for any, an idle inactive policy of it can become active by steps no user takes if and only if the server asks for at least one replica |
| `Races.StaleRunBreaksRouting` | internal/pkg/admission/reconciler.go:157-216 | from any server at rest, a named sequence of enabled steps, reusing a policy's name under a stale run, ends with the policy live and routed but not configured |
| `Races.RaceIsReachable` | internal/pkg/admission/reconciler.go:157-216 | for every server with at least one replica and every policy of it, a disciplined run reaches the start of that race, and none reaches its end |
| `Races.SnapshotDecides` | internal/pkg/admission/policy-server-configmap.go:49-67 | after the ConfigMap stage exactly the names in the run's snapshot are configured |
| `Staleness.ConfigMapIsSnapshot` | internal/pkg/admission/policy-server-configmap.go:49-111 | in every disciplined run whatever a ConfigMap serves is what one run of its server read when it began, never a mixture |
| `Staleness.EntryIsCurrentExactly` | controllers/policystatus_utils.go:132-142 | the entry under a policy's name is that of its present spec if and only if the policy was live and bound when that run began, with module, mode, kind and settings as now |
| `Staleness.UntouchedSinceIsCurrent` | internal/pkg/admission/policy-server-configmap.go:202-217 | a live policy neither created nor updated since that run began has a current entry |
| `Staleness.StaleEntryIsReachable` | controllers/policystatus_utils.go:132-142 | for any admissible change of module, mode or settings a disciplined run reaches a state where the policy is active and routed, all conditions true, under the entry of its former spec |
| `Kinds.KindsAgreeExactly` | internal/pkg/admission/policy-server-configmap.go:202-217 | a routed live policy's entry allows it to mutate if and only if its webhook is a mutating one, exactly when the policy that had its name when the run behind the ConfigMap began was of its present kind |
| `Kinds.KindsAgree` | controllers/policy_utils.go:145-154 | they agree for every routed live policy that was not created since that run began |
| `Kinds.KindsCanPart` | controllers/policy_utils.go:117-154 | a disciplined run reaches a state where they disagree: the policy was deleted and created again as the other kind, and is routed at once |
| `Pipeline.ListedPolicies` | internal/pkg/admission/reconciler.go:257-290 | listing a server's policies and skipping deleted ones finds exactly the live bound ones |
| `Pipeline.ConditionPrefix` | internal/pkg/admission/reconciler.go:152-248 | every run stops at one stage: earlier conditions true, its own false, later ones untouched, and the cluster as the successful stages left it |
| `Pipeline.ReconcileIdempotent` | internal/pkg/admission/reconciler.go:152-248 | after a successful run another with the same inputs leaves the whole cluster equal, every resource version included, whichever of its calls fail |
| `Pipeline.ReconcileSucceedsExactly` | internal/pkg/admission/reconciler.go:152-248 | with every call answered a run succeeds if and only if a serving certificate can be had, the ConfigMap decodes and the deployment has the server's container |
| `Pipeline.DeleteOwnedDeletes` | internal/pkg/admission/reconciler.go:40-123 | of the four resources exactly those whose delete call does not fail are gone |
| `ServerReconciler.Reconcile` | internal/pkg/admission/reconciler.go:152-248 | the in-place pipeline leaves cluster and conditions as the specification of a run says, and fails when it does |
| `ServerReconciler.GetPolicies` | internal/pkg/admission/reconciler.go:257-290 | the two loops give the live policies of both lists, cluster-wide first; only NotFound is reported |
| `ServerReconciler.ReconcileDeletion` | internal/pkg/admission/reconciler.go:40-123 | all four deletions are tried; errors are collected for failed calls only; a condition turns false if and only if its resource was there and is gone, and the others stay |
| `ServerReconciler.DeletePolicies` | controllers/policyserver_controller.go:97-102 | the loop deletes every listed policy whose call does not fail and reports whether any failed |
| `ServerReconciler.ReconcileServerDeletion` | controllers/policyserver_controller.go:96-121 | cluster and answer are those of the deletion protocol's specification, for every set of failing calls |
| `ServerReconciler.ReconcileLiveServer` | controllers/policyserver_controller.go:73-94 | the pipeline, then the status write; done if and only if the status was written and all five conditions stored are true, and otherwise an error |
| `ServerReconciler.ReconcileRequest` | controllers/policyserver_controller.go:55-94 | every way a request can end: missing server, failed read or list, teardown, live reconciliation; a live one is answered as done if and only if the status was written and all five conditions stored are true, without faults if and only if certificate, ConfigMap and deployment allow it, and otherwise as an error |
| `Outcomes.StepsMakeTheRequest` | controllers/policyserver_controller.go:73-94 | reading, the five stage steps and the status write of the machine leave the store such a request leaves, and a stage failed if and only if not all conditions are true |
| `Outcomes.TeardownAnswers` | controllers/policyserver_controller.go:96-121 | a teardown asks to be called again if and only if there were live policies and all got marked; it is done if and only if there were none and no call failed, a conflict on the last one apart, and then nothing owned is left and the finalizer is off |
| `ServerReconciler.ReconcileCASecret` | internal/pkg/admission/policy-server-ca-secret.go:22-29 | after success the secret is there: the given one if there was none, and otherwise the one that was stored, with nothing in the cluster changed; it fails only when the call does, and then writes nothing |
| `ServerReconciler.FetchOrInitializeRootSecret` | internal/pkg/admission/policy-server-ca-secret.go:100-142 | gives the stored root if there is one and otherwise a complete root of the new authority, one that serving certificates can be signed with; fails exactly when the read fails, or the authority is needed and cannot be generated |
| `ServerReconciler.FetchOrInitializeServingSecret` | internal/pkg/admission/policy-server-ca-secret.go:31-98 | gives the stored serving secret if there is one and otherwise a certificate signed by the root's authority, with its key, for the host `<name>.<namespace>.svc`; fails exactly when the read fails, or a certificate is needed and cannot be generated or the root cannot be used |
| `ServerReconciler.ReconcilePolicyServerConfigMap` | internal/pkg/admission/policy-server-configmap.go:49-67 | creates or updates as the stage's specification says; after success the ConfigMap tells each policy's module, mode, right to mutate and settings, and the spec's sources |
| `ServerReconciler.CreatePolicyServerConfigMap` | internal/pkg/admission/policy-server-configmap.go:132-167 | the new ConfigMap has both entries, the sources without their empty parts |
| `ServerReconciler.UpdateIfNeeded` | internal/pkg/admission/policy-server-configmap.go:69-111 | only entries that decode to something else are edited; an entry that does not decode is an error and writes nothing |
| `ServerReconciler.ReconcilePolicyServerDeployment` | internal/pkg/admission/policy-server-deployment.go:42-65 | creates or updates the deployment for the ConfigMap version just read |
| `ServerReconciler.UpdatePolicyServerDeployment` | internal/pkg/admission/policy-server-deployment.go:96-123 | patches replicas, template and annotation when the cheap test asks for it |
| `ServerReconciler.ShouldUpdatePolicyServerDeployment` | internal/pkg/admission/policy-server-deployment.go:135-158 | the cheap test, an error when either deployment lacks the server's container |
| `ServerReconciler.ReconcilePolicyServerService` | internal/pkg/admission/policy-server-service.go:37-43 | after success the Service is there; nothing else in the cluster changes, and nothing at all if it was there or the call failed |
| `ServerReconciler.PolicyServerObject.Default` | apis/policies/v1/policyserver_webhook.go:47-52 | live servers carry the controller's finalizer; servers under deletion stay as they are |
| `ConfigMaps.CreatePoliciesMap` | internal/pkg/admission/policy-server-configmap.go:202-217 | the loop builds one entry for each unique name, with key, module, mode, right to mutate and settings of the last listed policy of that name |
| `ConfigMaps.PoliciesMapKeys` | internal/pkg/admission/policy-server-configmap.go:202-217 | its keys are exactly the policies' unique names, and each entry names a policy of that unique name |
| `ConfigMaps.PoliciesMapEntries` | internal/pkg/admission/policy-server-configmap.go:202-217 | with distinct unique names every policy finds under its own an entry with its key, module, mode, right to mutate and settings |
| `ConfigMaps.PoliciesMapSize` | internal/pkg/admission/policy-server-configmap.go:202-217 | no entry is lost if and only if unique names are pairwise distinct |
| `ConfigMaps.CreateSourcesMap` | internal/pkg/admission/policy-server-configmap.go:219-239 | the loops give the spec's insecure sources, and under each URI its certificates in order as data authorities; never nil |
| `ConfigMaps.StageSaysAll` | internal/pkg/admission/policy-server-configmap.go:49-167 | after a successful stage the stored texts decode to the entries of all policies and to the spec's sources, nil read as empty; a ConfigMap it created carries the server's label, another keeps its own |
| `ConfigMaps.SyncConfigMapWrites` | internal/pkg/admission/policy-server-configmap.go:49-111 | at most the server's ConfigMap is written, once, with the next resource version |
| `ConfigMaps.SyncConfigMapResult` | internal/pkg/admission/policy-server-configmap.go:49-111 | success leaves both entries up to date; failure writes nothing |
| `ConfigMaps.SyncConfigMapIdempotent` | internal/pkg/admission/policy-server-configmap.go:69-130 | a second run changes nothing, even where nil and empty sources ask for a patch |
| `ConfigMaps.EmptySourcesAlwaysDiffer` | internal/pkg/admission/policy-server-configmap.go:121-130 | stored sources compare equal to what they were written from if and only if neither part is empty |
| `ConfigMaps.ToAdmissionPolicyReconcileRequests` | internal/pkg/admission/policy-server-configmap.go:171-185 | the loop gives the requests of the entries with a namespace, in map order |
| `ConfigMaps.ToClusterAdmissionPolicyReconcileRequests` | internal/pkg/admission/policy-server-configmap.go:187-200 | the loop gives the requests of the entries without one |
| `ConfigMaps.RequestsRoundTrip` | internal/pkg/admission/policy-server-configmap.go:171-217 | with distinct unique names, building the map and reading the requests back gives every policy once, as multisets, in the list of its kind, in whatever order maps are read |
| `ConfigMaps.RoundTripExactlyWhenNamesDistinct` | internal/pkg/admission/policy-server-configmap.go:171-217 | no policy is lost on that way if and only if unique names are pairwise distinct |
| `Deployments.BuildDeployment` | internal/pkg/admission/policy-server-deployment.go:225-417 | the deployment runs the spec's image under its account with its variables; every mount names exactly one volume; certificates come from the server's own secret, policies and sources from its own ConfigMap, verification and pull secret from those the spec names; the variables for files lead to those files on those mounts; selector, labels, replicas and version fit |
| `Deployments.RootIsMountedExactly` | internal/pkg/admission/policy-server-deployment.go:371-408 | some volume of such a pod is the root secret if and only if the spec names it for pulling images |
| `Origins.DeploymentIsSnapshot` | internal/pkg/admission/policy-server-deployment.go:96-123 | in every run a stored deployment's template is, annotations apart, that of the server's spec as some run of it read it |
| `Origins.RootStaysOut` | internal/pkg/admission/policy-server-deployment.go:384-390 | in every run no stored pod template mounts the root secret unless a spec named it for pulling images |
| `Deployments.AdaptDeploymentSettingsForPolicyServer` | internal/pkg/admission/policy-server-deployment.go:173-223 | the optional volumes are appended exactly when their settings are given |
| `Deployments.GetPolicyServerImageFromDeployment` | internal/pkg/admission/policy-server-deployment.go:125-133 | the image of the first container of that name, an error if and only if there is none |
| `Deployments.HaveEqualAnnotationsWithoutRestart` | internal/pkg/admission/policy-server-deployment.go:160-171 | annotations compared with the original's restart annotation left out |
| `Deployments.EnvDeterminesBlocks` | internal/pkg/admission/policy-server-deployment.go:281-330 | equal environments were built from servers with the same optional parts |
| `Deployments.CheapTestMissesExactly` | internal/pkg/admission/policy-server-deployment.go:135-171 | for any two specs the test never asks for an update that a full comparison would not; where it asks for none, replicas, version and templates really agree, up to the two source names and restarts, if and only if both specs set equally many variables of their own |
| `Deployments.CheapTestIsExact` | internal/pkg/admission/policy-server-deployment.go:147-171 | away from reserved variables the test is the full comparison |
| `Deployments.ReservedEnvFoolsTheTest` | internal/pkg/admission/policy-server-deployment.go:147-158 | an input on which it misses an update: a reserved variable set by hand |
| `Deployments.RenamedSourcesAreMissed` | internal/pkg/admission/policy-server-deployment.go:147-158 | where the test asks for no update, the stored volumes are the desired ones if and only if both specs set equally many variables and name the same verification ConfigMap and pull secret |
| `Deployments.RestartsSurviveExactly` | internal/pkg/admission/policy-server-deployment.go:160-171 | a restart by hand asks for no update, unless the spec carries the restart annotation itself |
| `Deployments.SyncDeploymentWrites` | internal/pkg/admission/policy-server-deployment.go:42-123 | at most the server's deployment is written, once; it takes over the desired template and keeps uid and revision |
| `Deployments.SyncDeploymentResult` | internal/pkg/admission/policy-server-deployment.go:42-123 | success leaves the deployment in step, at the desired version and replicas; failure writes nothing |
| `Deployments.InStepIsStable` | internal/pkg/admission/policy-server-deployment.go:96-123 | once in step another run changes nothing |
| `Secrets.RootStageResult` | internal/pkg/admission/policy-server-ca-secret.go:22-29 | after success the root handed on is the stored one; an existing root is never replaced |
| `Secrets.ServingStageResult` | internal/pkg/admission/policy-server-ca-secret.go:31-81 | a new serving certificate is issued and signed by the root it was given, for the host `<name>.<namespace>.svc` |
| `Origins.CertificatesAreNamed` | internal/pkg/admission/policy-server-ca-secret.go:56-81 | in every run every stored serving certificate and key is for the host of its server's Service |
| `Origins.WebhookHostIsCertified` | internal/pkg/admission/policy-server-ca-secret.go:60-64 | in every run, for each stored webhook whose server has its serving secret, that certificate is for the host the webhook makes the API server call and is signed by the root in the webhook's bundle |
| `Secrets.KeptRootIsStoredRoot` | internal/pkg/admission/policy-server-ca-secret.go:22-29 | with another writer in between, the root kept in memory is the stored one if and only if the fetch had seen a root or nobody stored one |
| `Webhooks.GetNamespacedRules` | apis/policies/v1/admissionpolicy_types.go:98-107 | the loop scopes every rule to namespaces and leaves all other fields and the order |
| `Webhooks.GetRulesForgetsScopesOnly` | apis/policies/v1/admissionpolicy_types.go:98-107 | the rules of a namespaced policy's webhook are all scoped to namespaces and agree with the policy's, in order, but for scopes; two policies of one kind get the same rules if and only if they ask for the same, scopes of namespaced ones apart |
| `Webhooks.NamespaceConfinement` | internal/pkg/admission/mutating-webhook.go:62-106 | a namespaced policy's webhook matches a request if and only if it is on a namespaced object in the policy's own namespace that a rule and the object selector match |
| `Webhooks.ClusterWideMatching` | internal/pkg/admission/validating-webhook.go:62-106 | a cluster-wide policy's webhook matches a request if and only if a rule matches it with its own scope and the spec's namespace and object selectors select it |
| `Webhooks.BuildWebhook` | internal/pkg/admission/validating-webhook.go:62-106 | the webhook matches exactly the requests the policy is for, leads to the policy's path on the server's Service, trusts the given root, and carries the spec's failure and match policy, timeout and side effects, "None" only where the spec has none |
| `Origins.WebhookIsSnapshot` | internal/pkg/admission/mutating-webhook.go:22-106 | in every run a stored webhook represents so its policy as some run of that policy, its server being there, read it |
| `Webhooks.SyncWebhookResult` | internal/pkg/admission/mutating-webhook.go:22-60 | at most the one configuration is written; success leaves exactly the desired webhooks, failure writes nothing |
| `Webhooks.SyncWebhookIdempotent` | internal/pkg/admission/validating-webhook.go:22-60 | a second run changes nothing |
| `PolicyReconciler.ReconcileWebhookConfiguration` | internal/pkg/admission/mutating-webhook.go:22-36 | create, or update when it exists, for either kind |
| `PolicyReconciler.UpdateWebhook` | internal/pkg/admission/validating-webhook.go:38-60 | patches only webhooks that differ |
| `PolicyReconciler.ReconcileDeletedWebhook` | controllers/policy_utils.go:197-221 | a webhook that is not there is no error; a failed read or delete is |
| `PolicyReconciler.IsPolicyUniquelyReachable` | controllers/policystatus_utils.go:88-130 | the loops with their early exits decide the gate |
| `PolicyReconciler.ReconcilePolicy` | controllers/policy_utils.go:84-157 | cluster, status in memory and answer are those of the specification, on every path |
| `Outcomes.PolicyAnswers` | controllers/policy_utils.go:69-157 | a live policy's reconciliation is done if and only if the status was written and says that no server can be waited for or that the policy is active; it is put off if and only if there is no deployment yet or the gate is shut |
| `Outcomes.StoredStatusExactly` | controllers/policy_utils.go:41-157 | state, mode and all three conditions of the stored status, each told exactly from what was stored before and which calls failed |
| `PolicyReconciler.SetPolicyStatus` | controllers/policy_utils.go:41-67 | mode and configuration condition as observed, untouched when either object cannot be read |
| `PolicyReconciler.ReconcilePolicyDeletion` | controllers/policy_utils.go:180-195 | the webhook of the present kind first, and the finalizer only after it |
| `Outcomes.DeletionAnswers` | controllers/policy_utils.go:180-195 | a deleted policy's call is done if and only if it let go of the policy, with no webhook of its kind left; otherwise the policy is as it was |
| `PolicyReconciler.StartReconciling` | controllers/policy_utils.go:69-82 | a whole request, deletion or reconciliation with its status write |
| `PolicyReconciler.PolicyObject.Default` | apis/policies/v1/clusteradmissionpolicy_webhook.go:54-62 | supplies the default server; live policies carry the controller's finalizer |
| `PolicyReconciler.PolicyObject.SetPolicyConfigurationCondition` | controllers/policystatus_utils.go:47-81 | true if and only if the deployment's annotation is the ConfigMap's present version |
| `PolicyReconciler.PolicyObject.SetPolicyAsActive` | controllers/policy_utils.go:159-170 | state active and condition PolicyActive true, the rest untouched |
| `PolicyController.PodReady` | controllers/policystatus_utils.go:144-151 | ready if and only if the first Ready condition is True |
| `PolicyController.FindLatestHash` | controllers/policystatus_utils.go:106-112 | the loop finds the first listed replica set that passes the test |
| `PolicyController.LatestHashFound` | controllers/policystatus_utils.go:83-113 | what is found passes the test, and nothing is found only if none does |
| `Events.EveryPolicyIsRequestedOnce` | controllers/admissionpolicy_controller.go:87-138 | events on a server, its ConfigMap or a live pod request each of its policies once, from the controller of its kind |
| `Events.LabelMatters` | controllers/clusteradmissionpolicy_controller.go:87-97 | everything in a ConfigMap is requested if and only if it is labelled or has no namespaced policy |
| `Events.PodAsksLikeItsServer` | controllers/admissionpolicy_controller.go:102-121 | a pod's event asks for what its server's does if and only if the pod is labelled and not one under deletion seen by the namespaced controller, or there is nothing to ask for |
| `Events.AsksForNothingExactly` | controllers/admissionpolicy_controller.go:123-138 | an event on a server asks for nothing if and only if its ConfigMap cannot be read or has no policy of that kind |
| `Origins.EventsRequestSnapshot` | controllers/admissionpolicy_controller.go:87-138 | in every run events on a server, its ConfigMap or a live pod request each policy that the run behind the ConfigMap had read once, and nobody else |
| `Naming.UniqueNameCollisions` | apis/policies/v1/admissionpolicy_types.go:140-142 | two policies share a unique name if and only if both are namespaced and differ by moving a dash-separated piece between namespace and name |
| `Naming.ServerNames` | apis/policies/v1/policyserver_types.go:129-131 | prefixed names are injective, and only `root-ca` gets the root secret's |
| `Admission.HistoryKeepsServerAndProtect` | apis/policies/v1/clusteradmissionpolicy_webhook.go:87-110 | over every accepted history of schema-conforming updates the server is constant and `protect` is never left |
| `Admission.MonitorOnlyThroughOtherModes` | apis/policies/v1/clusteradmissionpolicy_webhook.go:98-107 | every accepted history from `protect` to `monitor`, schema or not, passes a mode that is neither |
| `Admission.OtherModesLeaveProtectExactly` | apis/policies/v1/clusteradmissionpolicy_webhook.go:98-107 | two updates through a given mode lead from `protect` to `monitor` if and only if that mode is neither (and the server, if empty, is not defaulted away) |
| `Admission.RefusedUpdates` | apis/policies/v1/clusteradmissionpolicy_webhook.go:54-110 | an update is refused if and only if, once defaulted, it changes the server or goes from `protect` to `monitor` |
| `Limits.DeletionClearsTheNameExactly` | controllers/policy_utils.go:180-195 | deletion leaves no webhook of the policy's name if and only if there was none of the other kind |
| `Limits.FlippedKindLeavesOrphan` | apis/policies/v1/clusteradmissionpolicy_webhook.go:87-110 | an accepted change of `mutating` followed by a deletion leaves the old webhook without its policy |
| `Limits.DeletionHitsNamesakes` | controllers/policy_utils.go:197-221 | deleting one policy removes another's webhook if and only if they share unique name and kind |
| `Limits.TeardownKeepsRootExactly` | internal/pkg/constants/constants.go:14 | a teardown keeps the root secret if and only if the server is not called `root-ca` |
| `Limits.TeardownWaitsForLivePoliciesOnly` | controllers/policyserver_controller.go:64 | a teardown whose calls succeed finishes if and only if no live policy is bound, terminating ones notwithstanding |
| `Limits.ActiveWithoutConditionExactly` | controllers/policy_utils.go:84-157 | after any reconciliation the stored state is active with condition PolicyActive false if and only if it was active, the server is there and readable, and deployment, gate, root or webhook write stood in the way; a lost status write changes nothing |
| `Limits.PartedIsReachable` | controllers/policy_utils.go:105-127 | a disciplined run reaches such a status, all calls succeeding, when one pod stops being ready |
| `Limits.FailedListsLosePoliciesExactly` | internal/pkg/admission/reconciler.go:257-290 | only NotFound is reported; after any other outcome of the two lists no live policy of the server is missed if and only if none is of a kind whose list failed |
| `Limits.LostPolicyIsNotNamed` | internal/pkg/admission/reconciler.go:257-290 | a live policy's name is among those the run will configure if and only if the list for its kind did not fail |
| `Limits.FailedListsLetServerGoExactly` | controllers/policyserver_controller.go:96-121 | after failed lists a teardown whose other calls succeed takes the finalizer off if and only if every live policy of the server is of a kind whose list failed |

## Left out

- Rollout.RolloutCanComplete: does not model surge and unavailability limits; old pods go first and new ones then start one
  by one. A negative number of replicas, which the API server refuses, counts as none.
- Liveness.PolicyCanBecomeActive: states that the good path is always open, not that a fair scheduler takes it.
- DeletionRuns.DeletionEnds: requires the controller's finalizer to be the only one on the server and its policies, and users
  to add none and to create neither again; anything else would let other parties hold the deletion up. It bounds the
  deletion steps, not the time between them.
- Cryptography, PEM and key formats: certificates are values recording issuer and signer.
- JSON text: encoding and decoding are a round trip on values.
- `main.go`, environment variables, metrics, logging, manager setup, leader election and watch delivery: plumbing.
- Generated deep copies and the v1alpha2 package: no behaviour of their own.
- The Service's ports and the metrics switch: the Service is an owned name that is created once.
- Error texts and requeue delays: only success, NotFound, AlreadyExists, Conflict and other failures are told apart.
- The checks on the image pull secret: one call that succeeds or fails.
- API server defaulting of webhook, deployment and pod fields, `valueFrom` environment variables and pod security fields.
- Hand edits of ConfigMaps, webhooks, deployment specs and of finalizers on objects under deletion.
