/** The policy server reconciler as it runs: calls to the cluster, conditions and lists built up in place. */
module ServerReconciler {
  import opened Common
  import opened Naming
  import opened Model
  import opened ClusterState
  import Admission
  import Api
  import ConfigMaps
  import Deployments
  import Effects
  import Pipeline
  import Secrets

  /** A policy server in the controller's memory. */
  class PolicyServerObject {
    const name: string
    var deleting: bool
    var finalizers: set<Finalizer>
    var spec: ServerSpec
    var conditions: map<ServerCondition, bool>

    function Value(): PolicyServer
      reads this
    {
      PolicyServer(deleting, finalizers, spec, conditions)
    }

    /** As read from the cluster. */
    constructor (n: string, stored: PolicyServer)
      ensures name == n && Value() == stored
    {
      name := n;
      deleting, finalizers, spec, conditions := stored.deleting, stored.finalizers, stored.spec, stored.conditions;
    }

    /** Keeps the controller's finalizer on live policy servers. */
    method Default()
      modifies this`finalizers
      ensures Value() == Admission.DefaultServer(old(Value()))
      ensures Kubewarden in old(finalizers) ==> Kubewarden in finalizers
    {
      if !deleting {
        finalizers := finalizers + {Kubewarden};
      }
    }

    method RemoveFinalizer()
      modifies this`finalizers
      ensures finalizers == old(finalizers) - {Kubewarden}
    {
      finalizers := finalizers - {Kubewarden};
    }

    method SetConditionType(c: ServerCondition, ok: bool)
      modifies this`conditions
      ensures conditions == old(conditions)[c := ok]
    {
      conditions := conditions[c := ok];
    }
  }

  // ------------------------------------------------------------------------- secrets

  method ReconcileCASecret(c: Cluster, name: string, secret: Secret, fail: bool) returns (error: Option<Failure>)
    modifies c
    ensures Api.Write(c.Snapshot(), error) == Secrets.ReconcileCASecret(old(c.Snapshot()), name, secret, fail)
    ensures error.None? ==> name in c.secrets
    ensures name in old(c.secrets) ==> c.Snapshot() == old(c.Snapshot())
    ensures name !in old(c.secrets) && error.None? ==> c.secrets == old(c.secrets)[name := secret]
    ensures error.Some? ==> c.Snapshot() == old(c.Snapshot())
    ensures error.None? <==> !fail
  {
    error := c.CreateSecret(name, secret, fail);
    if error == None || error == Some(AlreadyExists) {
      return None;
    }
  }

  method FetchOrInitializeRootSecret(c: Cluster, freshCa: nat, faults: set<Call>) returns (r: Result<Secret>)
    ensures r == Secrets.FetchRoot(c.Snapshot(), freshCa, faults)
    ensures r.Ok? && ROOT_SECRET in c.secrets ==> r.value == c.secrets[ROOT_SECRET]
    ensures r.Ok? && ROOT_SECRET !in c.secrets ==> Effects.IsRoot(r.value) && Effects.CaOf(r.value) == freshCa
    ensures r.Err? <==> GetRootSecret in faults || (ROOT_SECRET !in c.secrets && GenerateCA in faults)
    ensures r.Ok? && (ROOT_SECRET in c.secrets ==> Effects.IsRoot(c.secrets[ROOT_SECRET])) ==>
              Secrets.ExtractCa(r.value).Ok?
  {
    if GetRootSecret in faults {
      return Err(Other);
    }
    if ROOT_SECRET !in c.secrets {
      if GenerateCA in faults {
        return Err(Other);
      }
      return Ok(Secret(map[RootCert := CaCert(freshCa), RootPem := CaPem(freshCa), RootPrivateKey := CaKey(freshCa)]));
    }
    return Ok(c.secrets[ROOT_SECRET]);
  }

  method FetchOrInitializeServingSecret(c: Cluster, cfg: Config, name: string, root: Secret, faults: set<Call>)
    returns (r: Result<Secret>)
    ensures r == Secrets.FetchServing(c.Snapshot(), cfg, name, root, faults)
    ensures r.Ok? && name in c.secrets ==> r.value == c.secrets[name]
    ensures r.Ok? && name !in c.secrets && Effects.IsRoot(root) ==>
              Secrets.SignedBy(r.value, Effects.CaOf(root))
    ensures r.Ok? && name !in c.secrets ==> Secrets.IssuedFor(r.value, name + "." + cfg.deploymentsNamespace + ".svc")
    ensures r.Err? <==> GetServingSecret in faults ||
                        (name !in c.secrets && (GenerateCert in faults || Secrets.ExtractCa(root).Err?))
  {
    if GetServingSecret in faults {
      return Err(Other);
    }
    if name !in c.secrets {
      var ca := Secrets.ExtractCa(root);
      if ca.Err? || GenerateCert in faults {
        return Err(Other);
      }
      var commonName := name + "." + cfg.deploymentsNamespace + ".svc";
      return Ok(Secret(map[TlsCert := ServingCert(ca.value.cert, ca.value.key, commonName),
                           TlsKey := ServingKey(commonName)]));
    }
    return Ok(c.secrets[name]);
  }

  // ----------------------------------------------------------------------- ConfigMap

  method ReconcilePolicyServerConfigMap(
    c: Cluster, server: PolicyServerObject, policies: seq<BoundPolicy>, faults: set<Call>)
    returns (error: Option<Failure>)
    modifies c
    ensures Api.Write(c.Snapshot(), error) ==
            ConfigMaps.ConfigMapStage(old(c.Snapshot()), server.name, server.spec, policies, faults)
    ensures error.None? ==>
              server.name in c.configMaps && ConfigMaps.SaysAll(c.configMaps[server.name], server.spec, policies)
  {
    ghost var stage := ConfigMaps.ConfigMapStage(c.Snapshot(), server.name, server.spec, policies, faults);
    if stage.error.None? {
      ConfigMaps.StageSaysAll(c.Snapshot(), server.name, server.spec, policies, faults);
    }
    hide ConfigMaps.ConfigMapStage;
    hide ConfigMaps.SaysAll;
    if GetConfigMap in faults {
      FailedReadFails(c.Snapshot(), server.name, server.spec, policies, faults);
      return Some(Other);
    }
    if server.name !in c.configMaps {
      error := CreatePolicyServerConfigMap(c, server, policies, faults);
    } else {
      error := UpdateIfNeeded(c, server, policies, faults);
    }
  }

  lemma FailedReadFails(s: Store, n: string, spec: ServerSpec, policies: seq<BoundPolicy>, faults: set<Call>)
    requires GetConfigMap in faults
    ensures ConfigMaps.ConfigMapStage(s, n, spec, policies, faults) == Api.Failed(s, Other)
  {
  }

  method CreatePolicyServerConfigMap(
    c: Cluster, server: PolicyServerObject, policies: seq<BoundPolicy>, faults: set<Call>)
    returns (error: Option<Failure>)
    requires server.name !in c.configMaps && GetConfigMap !in faults
    modifies c
    ensures Api.Write(c.Snapshot(), error) ==
            ConfigMaps.ConfigMapStage(old(c.Snapshot()), server.name, server.spec, policies, faults)
  {
    var policiesMap := ConfigMaps.CreatePoliciesMap(policies);
    var sources := ConfigMaps.CreateSourcesMap(server.spec);
    var data := map[PoliciesYml := PoliciesJson(policiesMap), SourcesYml := ConfigMaps.EncodeSources(sources)];
    error := c.CreateConfigMap(server.name, Some(server.name), data, CreateConfigMap in faults);
  }

  /** Patches the entries that no longer decode to what they should. */
  method UpdateIfNeeded(c: Cluster, server: PolicyServerObject, policies: seq<BoundPolicy>, faults: set<Call>)
    returns (error: Option<Failure>)
    requires server.name in c.configMaps && GetConfigMap !in faults
    modifies c
    ensures Api.Write(c.Snapshot(), error) ==
            ConfigMaps.ConfigMapStage(old(c.Snapshot()), server.name, server.spec, policies, faults)
  {
    var newPolicies := ConfigMaps.CreatePoliciesMap(policies);
    var newSources := ConfigMaps.CreateSourcesMap(server.spec);
    var patch := c.configMaps[server.name].data;
    var currentPolicies := ConfigMaps.DecodePolicies(Lookup(patch, PoliciesYml));
    if currentPolicies.Err? {
      return Some(Other);
    }
    var currentSources := ConfigMaps.DecodeSources(Lookup(patch, SourcesYml));
    if currentSources.Err? {
      return Some(Other);
    }
    if currentPolicies.value == newPolicies && currentSources.value == newSources {
      return None;
    }
    if currentPolicies.value != newPolicies {
      patch := patch[PoliciesYml := PoliciesJson(newPolicies)];
    }
    if currentSources.value != newSources {
      patch := patch[SourcesYml := ConfigMaps.EncodeSources(newSources)];
    }
    error := c.PatchConfigMap(server.name, patch, PatchConfigMap in faults);
  }

  // ---------------------------------------------------------- deployment and Service

  method ReconcilePolicyServerDeployment(c: Cluster, cfg: Config, server: PolicyServerObject, faults: set<Call>)
    returns (error: Option<Failure>)
    modifies c
    ensures Api.Write(c.Snapshot(), error) ==
            Deployments.DeploymentStage(old(c.Snapshot()), cfg, server.name, server.spec, faults)
  {
    hide Deployments.ServesSpec;
    hide Deployments.BuiltDeployment;
    hide Deployments.UpdateDeployment;
    if ReadConfigMapVersion in faults {
      return Some(Other);
    }
    if server.name !in c.configMaps {
      return Some(NotFound);
    }
    if server.spec.imagePullSecret != "" && CheckPullSecret in faults {
      return Some(Other);
    }
    var deployment := Deployments.BuildDeployment(cfg, c.configMaps[server.name].rv, server.name, server.spec);
    error := c.CreateDeployment(server.name, deployment, CreateDeployment in faults);
    if error == Some(AlreadyExists) {
      error := UpdatePolicyServerDeployment(c, server, deployment, faults);
    }
  }

  method UpdatePolicyServerDeployment(c: Cluster, server: PolicyServerObject, desired: Deployment, faults: set<Call>)
    returns (error: Option<Failure>)
    modifies c
    ensures Api.Write(c.Snapshot(), error) ==
            Deployments.UpdateDeployment(old(c.Snapshot()), server.name, desired, faults)
  {
    if GetDeployment in faults {
      return Some(Other);
    }
    if server.name !in c.deployments {
      return Some(NotFound);
    }
    var original := c.deployments[server.name];
    var shouldUpdate := ShouldUpdatePolicyServerDeployment(NameWithPrefix(server.name), original, desired);
    if shouldUpdate.Err? {
      return Some(Other);
    }
    if shouldUpdate.value {
      var patch := original.(replicas := desired.replicas);
      patch := patch.(template := desired.template);
      patch := patch.(configVersion := desired.configVersion);
      error := c.PatchDeployment(server.name, patch, PatchDeployment in faults);
    } else {
      error := None;
    }
  }

  /** The cheap test, with the image of the server's own container. */
  method ShouldUpdatePolicyServerDeployment(name: string, original: Deployment, desired: Deployment)
    returns (r: Result<bool>)
    ensures r == Deployments.ShouldUpdate(name, original, desired)
  {
    var oldImage := Deployments.GetPolicyServerImageFromDeployment(original.template.containers, name);
    if oldImage.None? {
      return Err(Other);
    }
    var newImage := Deployments.GetPolicyServerImageFromDeployment(desired.template.containers, name);
    if newImage.None? {
      return Err(Other);
    }
    var sameAnnotations := Deployments.HaveEqualAnnotationsWithoutRestart(original.template, desired.template);
    return Ok(|| original.replicas != desired.replicas
              || oldImage != newImage
              || original.template.serviceAccountName != desired.template.serviceAccountName
              || original.configVersion != desired.configVersion
              || original.template.containers[0].env != desired.template.containers[0].env
              || !sameAnnotations);
  }

  method ReconcilePolicyServerService(c: Cluster, server: PolicyServerObject, faults: set<Call>)
    returns (error: Option<Failure>)
    modifies c
    ensures Api.Write(c.Snapshot(), error) == Pipeline.ServiceStage(old(c.Snapshot()), server.name, faults)
    ensures error.None? ==> server.name in c.services
    ensures old(c.services) <= c.services <= old(c.services) + {server.name}
    ensures c.Snapshot() == old(c.Snapshot()).(services := c.services)
    ensures error.Some? || server.name in old(c.services) ==> c.Snapshot() == old(c.Snapshot())
    ensures error.None? <==> CreateService !in faults
  {
    error := c.CreateService(server.name, CreateService in faults);
    if error == None || error == Some(AlreadyExists) {
      return None;
    }
  }

  // -------------------------------------------------------------------- the pipeline

  method ReconcileRootSecret(c: Cluster, cfg: Config, ghost job: Pipeline.Job, freshCa: nat, faults: set<Call>)
    returns (error: Option<Failure>, root: Secret)
    modifies c
    ensures (Api.Write(c.Snapshot(), error), root) ==
            Pipeline.RunStage(CA_ROOT_SECRET_RECONCILED, old(c.Snapshot()), cfg, job, Secret(map[]), freshCa, faults)
  {
    hide Secrets.ReconcileCASecret;
    hide Secrets.ServingStage;
    hide ConfigMaps.ConfigMapStage;
    hide Deployments.DeploymentStage;
    var fetched := FetchOrInitializeRootSecret(c, freshCa, faults);
    hide Secrets.FetchRoot;
    if fetched.Err? {
      return Some(fetched.error), Secret(map[]);
    }
    root := fetched.value;
    error := ReconcileCASecret(c, ROOT_SECRET, root, CreateRootSecret in faults);
  }

  method ReconcileServingSecret(
    c: Cluster, cfg: Config, server: PolicyServerObject, ghost job: Pipeline.Job, root: Secret, ghost freshCa: nat,
    faults: set<Call>)
    returns (error: Option<Failure>)
    requires job.name == server.name
    modifies c
    ensures (Api.Write(c.Snapshot(), error), root) ==
            Pipeline.RunStage(CA_SECRET_RECONCILED, old(c.Snapshot()), cfg, job, root, freshCa, faults)
  {
    hide Secrets.ReconcileCASecret;
    hide NameWithPrefix;
    var fetched := FetchOrInitializeServingSecret(c, cfg, NameWithPrefix(server.name), root, faults);
    hide Secrets.FetchServing;
    if fetched.Err? {
      return Some(fetched.error);
    }
    error := ReconcileCASecret(c, NameWithPrefix(server.name), fetched.value, CreateServingSecret in faults);
  }

  method ReconcileOwned(
    c: Cluster, cfg: Config, server: PolicyServerObject, policies: seq<BoundPolicy>, ghost root: Secret,
    ghost freshCa: nat, faults: set<Call>)
    returns (error: Option<Failure>)
    modifies c, server`conditions
    ensures var q := Pipeline.RunFrom(
              2, Pipeline.Progress(old(c.Snapshot()), root, old(server.conditions), None), cfg,
              Pipeline.Job(server.name, server.spec, policies), freshCa, faults);
            && c.Snapshot() == q.store && server.conditions == q.conditions
            && (error.None? <==> q.failedAt.None?)
  {
    ghost var job := Pipeline.Job(server.name, server.spec, policies);
    hide Pipeline.RunFrom;
    hide Pipeline.RunStage;
    hide ConfigMaps.ConfigMapStage;
    hide Deployments.DeploymentStage;
    hide Pipeline.ServiceStage;
    ghost var s, conditions := c.Snapshot(), server.conditions;
    error := ReconcilePolicyServerConfigMap(c, server, policies, faults);
    Pipeline.OwnedStages(s, cfg, job, root, freshCa, faults);
    Pipeline.StageDecides(2, s, root, conditions, cfg, job, freshCa, faults, Api.Write(c.Snapshot(), error), root);
    server.SetConditionType(CONFIG_MAP_RECONCILED, error.None?);
    if error.Some? {
      return;
    }
    s, conditions := c.Snapshot(), server.conditions;
    error := ReconcilePolicyServerDeployment(c, cfg, server, faults);
    Pipeline.OwnedStages(s, cfg, job, root, freshCa, faults);
    Pipeline.StageDecides(3, s, root, conditions, cfg, job, freshCa, faults, Api.Write(c.Snapshot(), error), root);
    server.SetConditionType(DEPLOYMENT_RECONCILED, error.None?);
    if error.Some? {
      return;
    }
    s, conditions := c.Snapshot(), server.conditions;
    error := ReconcilePolicyServerService(c, server, faults);
    Pipeline.OwnedStages(s, cfg, job, root, freshCa, faults);
    Pipeline.StageDecides(4, s, root, conditions, cfg, job, freshCa, faults, Api.Write(c.Snapshot(), error), root);
    server.SetConditionType(SERVICE_RECONCILED, error.None?);
    Pipeline.NothingLeft(Pipeline.Progress(c.Snapshot(), root, server.conditions, None), cfg, job, freshCa, faults);
  }

  /** Every stage in turn, each recorded in its condition; the first error ends the run. */
  method Reconcile(
    c: Cluster, cfg: Config, server: PolicyServerObject, policies: seq<BoundPolicy>, freshCa: nat, faults: set<Call>)
    returns (error: Option<Failure>)
    modifies c, server`conditions
    ensures var q := Pipeline.Reconcile(
              old(c.Snapshot()), old(server.conditions), cfg, Pipeline.Job(server.name, server.spec, policies),
              freshCa, faults);
            && c.Snapshot() == q.store && server.conditions == q.conditions
            && (error.None? <==> q.failedAt.None?)
  {
    ghost var job := Pipeline.Job(server.name, server.spec, policies);
    ghost var whole := Pipeline.Reconcile(c.Snapshot(), server.conditions, cfg, job, freshCa, faults);
    assert whole == Pipeline.RunFrom(
      0, Pipeline.Progress(c.Snapshot(), Secret(map[]), server.conditions, None), cfg, job, freshCa, faults);
    hide Pipeline.RunFrom;
    hide Pipeline.Reconcile;
    ghost var s, conditions := c.Snapshot(), server.conditions;

    var root;
    error, root := ReconcileRootSecret(c, cfg, job, freshCa, faults);
    hide Pipeline.RunStage;
    Pipeline.StageDecides(
      0, s, Secret(map[]), conditions, cfg, job, freshCa, faults, Api.Write(c.Snapshot(), error), root);
    server.SetConditionType(CA_ROOT_SECRET_RECONCILED, error.None?);
    if error.Some? {
      return;
    }
    s, conditions := c.Snapshot(), server.conditions;
    error := ReconcileServingSecret(c, cfg, server, job, root, freshCa, faults);
    Pipeline.StageDecides(1, s, root, conditions, cfg, job, freshCa, faults, Api.Write(c.Snapshot(), error), root);
    server.SetConditionType(CA_SECRET_RECONCILED, error.None?);
    if error.Some? {
      return;
    }
    assert whole == Pipeline.RunFrom(
      2, Pipeline.Progress(c.Snapshot(), root, server.conditions, None), cfg, job, freshCa, faults);
    error := ReconcileOwned(c, cfg, server, policies, root, freshCa, faults);
  }

  // -------------------------------------------------------------- policies of a server

  /** The live policies of both lists, cluster-wide ones first. */
  method GetPolicies(c: Cluster, clusterWide: Result<seq<PolicyKey>>, namespaced: Result<seq<PolicyKey>>)
    returns (r: Result<seq<BoundPolicy>>)
    requires forall k :: k in Pipeline.Found(clusterWide) + Pipeline.Found(namespaced) ==> k in c.policies
    ensures r == Pipeline.ObtainedPolicies(c.policies, clusterWide, namespaced)
    ensures r.Ok? ==> r.value == Pipeline.LiveOnly(c.policies, Pipeline.Found(clusterWide))
                                 + Pipeline.LiveOnly(c.policies, Pipeline.Found(namespaced))
    ensures r.Err? <==> clusterWide == Err(NotFound) || namespaced == Err(NotFound)
  {
    if clusterWide == Err(NotFound) || namespaced == Err(NotFound) {
      return Err(NotFound);
    }
    var policies: seq<BoundPolicy> := [];
    var first, second := Pipeline.Found(clusterWide), Pipeline.Found(namespaced);
    for i := 0 to |first|
      invariant policies == Pipeline.LiveOnly(c.policies, first[..i])
    {
      assert first[..i + 1][..i] == first[..i];
      assert first[i] in first + second;
      if c.policies[first[i]].deleting {
        continue;
      }
      policies := policies + [BoundPolicy(first[i], c.policies[first[i]].spec)];
    }
    assert first[..|first|] == first == first + second[..0];
    for i := 0 to |second|
      invariant policies == Pipeline.LiveOnly(c.policies, first + second[..i])
    {
      assert (first + second[..i + 1])[..|first| + i] == first + second[..i];
      assert second[i] in first + second;
      if c.policies[second[i]].deleting {
        continue;
      }
      policies := policies + [BoundPolicy(second[i], c.policies[second[i]].spec)];
    }
    assert second[..|second|] == second;
    Pipeline.LiveOnlyAppends(c.policies, first, second);
    return Ok(policies);
  }

  // ------------------------------------------------------------------------ deletion

  function Marked(conditions: map<ServerCondition, bool>, which: ServerCondition, deleted: bool)
    : map<ServerCondition, bool>
  {
    if deleted then conditions[which := false] else conditions
  }

  /** The conditions of what was deleted turn false; what was not there keeps its condition. */
  function AfterDeletion(
    s: Store, n: string, conditions: map<ServerCondition, bool>, faults: set<Call>): map<ServerCondition, bool>
  {
    var c1 := Marked(conditions, DEPLOYMENT_RECONCILED, DeleteDeployment !in faults && n in s.deployments);
    var c2 := Marked(c1, CA_SECRET_RECONCILED, DeleteSecret !in faults && NameWithPrefix(n) in s.secrets);
    var c3 := Marked(c2, SERVICE_RECONCILED, DeleteService !in faults && n in s.services);
    Marked(c3, CONFIG_MAP_RECONCILED, DeleteConfigMap !in faults && n in s.configMaps)
  }

  lemma MarkedOnly(conditions: map<ServerCondition, bool>, which: ServerCondition, deleted: bool)
    ensures forall c: ServerCondition :: Lookup(Marked(conditions, which, deleted), c) ==
                                         if c == which && deleted then Some(false) else Lookup(conditions, c)
  {
  }

  lemma ConditionsTellDeletion(s: Store, n: string, conditions: map<ServerCondition, bool>, faults: set<Call>)
    ensures var s' := Pipeline.DeleteOwned(s, n, faults); var after := AfterDeletion(s, n, conditions, faults);
            && Lookup(after, DEPLOYMENT_RECONCILED) ==
                 (if n in s.deployments && n !in s'.deployments then Some(false)
                  else Lookup(conditions, DEPLOYMENT_RECONCILED))
            && Lookup(after, CA_SECRET_RECONCILED) ==
                 (if NameWithPrefix(n) in s.secrets && NameWithPrefix(n) !in s'.secrets then Some(false)
                  else Lookup(conditions, CA_SECRET_RECONCILED))
            && Lookup(after, SERVICE_RECONCILED) ==
                 (if n in s.services && n !in s'.services then Some(false) else Lookup(conditions, SERVICE_RECONCILED))
            && Lookup(after, CONFIG_MAP_RECONCILED) ==
                 (if n in s.configMaps && n !in s'.configMaps then Some(false)
                  else Lookup(conditions, CONFIG_MAP_RECONCILED))
            && Lookup(after, CA_ROOT_SECRET_RECONCILED) == Lookup(conditions, CA_ROOT_SECRET_RECONCILED)
  {
    Pipeline.DeleteOwnedDeletes(s, n, faults);
    hide Pipeline.DeleteOwned;
    hide NameWithPrefix;
    var d := DeleteDeployment !in faults && n in s.deployments;
    var k := DeleteSecret !in faults && NameWithPrefix(n) in s.secrets;
    var v, m := DeleteService !in faults && n in s.services, DeleteConfigMap !in faults && n in s.configMaps;
    var c1 := Marked(conditions, DEPLOYMENT_RECONCILED, d);
    var c2 := Marked(c1, CA_SECRET_RECONCILED, k);
    var c3 := Marked(c2, SERVICE_RECONCILED, v);
    MarkedOnly(conditions, DEPLOYMENT_RECONCILED, d);
    MarkedOnly(c1, CA_SECRET_RECONCILED, k);
    MarkedOnly(c2, SERVICE_RECONCILED, v);
    MarkedOnly(c3, CONFIG_MAP_RECONCILED, m);
    hide Marked;
    hide Lookup;
  }

  /** Notes what became of a delete call; an object that is not there is no error. */
  method RecordDeletion(
    server: PolicyServerObject, which: ServerCondition, error: Option<Failure>, errors: seq<Failure>)
    returns (all: seq<Failure>)
    modifies server`conditions
    ensures server.conditions == Marked(old(server.conditions), which, error == None)
    ensures all == if error.None? || error == Some(NotFound) then errors else errors + [error.value]
  {
    all := errors;
    if error == None {
      server.SetConditionType(which, false);
    } else if error != Some(NotFound) {
      all := all + [error.value];
    }
  }

  /**
   * Deletes what the server owns, collecting errors on the way.  The condition of what this call deleted turns false; what
   * was not there, or could not be deleted, keeps its condition.
   */
  method ReconcileDeletion(c: Cluster, server: PolicyServerObject, faults: set<Call>)
    returns (errors: seq<Failure>)
    modifies c, server`conditions
    ensures c.Snapshot() == Pipeline.DeleteOwned(old(c.Snapshot()), server.name, faults)
    ensures errors == [] <==> !Pipeline.OwnedDeletionFails(faults)
    ensures Lookup(server.conditions, DEPLOYMENT_RECONCILED) ==
            if server.name in old(c.deployments) && server.name !in c.deployments then Some(false)
            else Lookup(old(server.conditions), DEPLOYMENT_RECONCILED)
    ensures Lookup(server.conditions, CA_SECRET_RECONCILED) ==
            if NameWithPrefix(server.name) in old(c.secrets) && NameWithPrefix(server.name) !in c.secrets then Some(false)
            else Lookup(old(server.conditions), CA_SECRET_RECONCILED)
    ensures Lookup(server.conditions, SERVICE_RECONCILED) ==
            if server.name in old(c.services) && server.name !in c.services then Some(false)
            else Lookup(old(server.conditions), SERVICE_RECONCILED)
    ensures Lookup(server.conditions, CONFIG_MAP_RECONCILED) ==
            if server.name in old(c.configMaps) && server.name !in c.configMaps then Some(false)
            else Lookup(old(server.conditions), CONFIG_MAP_RECONCILED)
    ensures Lookup(server.conditions, CA_ROOT_SECRET_RECONCILED) ==
            Lookup(old(server.conditions), CA_ROOT_SECRET_RECONCILED)
  {
    hide NameWithPrefix;
    ConditionsTellDeletion(c.Snapshot(), server.name, server.conditions, faults);
    hide Pipeline.DeleteOwned;
    hide AfterDeletion;
    errors := DeleteOwned(c, server, faults);
  }

  /** The four delete calls, one after the other. */
  method DeleteOwned(c: Cluster, server: PolicyServerObject, faults: set<Call>)
    returns (errors: seq<Failure>)
    modifies c, server`conditions
    ensures c.Snapshot() == Pipeline.DeleteOwned(old(c.Snapshot()), server.name, faults)
    ensures errors == [] <==> !Pipeline.OwnedDeletionFails(faults)
    ensures server.conditions == AfterDeletion(old(c.Snapshot()), server.name, old(server.conditions), faults)
  {
    hide NameWithPrefix;
    hide Marked;
    ghost var n, secret := server.name, NameWithPrefix(server.name);
    ghost var s0 := c.Snapshot();
    Api.DeleteDeploymentEffect(s0, n, DeleteDeployment in faults);
    hide Api.DeleteDeployment;
    hide Api.DeleteSecret;
    hide Api.DeleteService;
    hide Api.DeleteConfigMap;
    var error := c.DeleteDeployment(server.name, DeleteDeployment in faults);
    errors := RecordDeletion(server, DEPLOYMENT_RECONCILED, error, []);
    Api.DeleteSecretEffect(c.Snapshot(), secret, DeleteSecret in faults);
    error := c.DeleteSecret(NameWithPrefix(server.name), DeleteSecret in faults);
    errors := RecordDeletion(server, CA_SECRET_RECONCILED, error, errors);
    Api.DeleteServiceEffect(c.Snapshot(), n, DeleteService in faults);
    error := c.DeleteService(server.name, DeleteService in faults);
    errors := RecordDeletion(server, SERVICE_RECONCILED, error, errors);
    Api.DeleteConfigMapEffect(c.Snapshot(), n, DeleteConfigMap in faults);
    error := c.DeleteConfigMap(server.name, DeleteConfigMap in faults);
    errors := RecordDeletion(server, CONFIG_MAP_RECONCILED, error, errors);
  }

  method DeletePolicies(c: Cluster, policies: seq<BoundPolicy>, faults: set<Call>) returns (someDeletionFailed: bool)
    modifies c
    ensures c.Snapshot() ==
            old(c.Snapshot()).(policies := Pipeline.DeleteEach(old(c.policies), policies, faults))
    ensures someDeletionFailed == Pipeline.SomeDeletionFails(policies, faults)
  {
    someDeletionFailed := false;
    for i := 0 to |policies|
      invariant c.Snapshot() ==
                old(c.Snapshot()).(policies := Pipeline.DeleteEach(old(c.policies), policies[..i], faults))
      invariant someDeletionFailed == Pipeline.SomeDeletionFails(policies[..i], faults)
    {
      assert policies[..i + 1][..i] == policies[..i];
      var error := c.DeletePolicy(policies[i].key, DeleteBoundPolicy(policies[i].key) in faults);
      if error.Some? && error != Some(NotFound) {
        someDeletionFailed := true;
      }
      assert policies[..i + 1] == policies[..i] + [policies[i]];
    }
    assert policies[..|policies|] == policies;
  }

  /** A server under deletion: first its policies, then what it owns, then the finalizer. */
  method ReconcileServerDeletion(
    c: Cluster, server: PolicyServerObject, ghost listed: seq<PolicyKey>, policies: seq<BoundPolicy>, faults: set<Call>)
    returns (answer: Pipeline.Answer)
    requires server.name in c.servers && server.finalizers == c.servers[server.name].finalizers
    requires policies == Pipeline.LiveOnly(c.policies, listed)
    modifies c, server
    ensures (c.Snapshot(), answer) == Pipeline.ReconcileDeletion(old(c.Snapshot()), server.name, listed, faults)
  {
    hide Pipeline.DeleteEach;
    hide Pipeline.LiveOnly;
    var someDeletionFailed := DeletePolicies(c, policies, faults);
    if someDeletionFailed {
      return Pipeline.Error;
    }
    if |policies| != 0 {
      return Pipeline.Requeue;
    }
    DeletingKeepsServers(c.Snapshot(), server.name, faults);
    var errors := ReconcileDeletion(c, server, faults);
    hide Pipeline.DeleteOwned;
    if errors != [] {
      return Pipeline.Error;
    }
    server.RemoveFinalizer();
    var fail := if PolicyServerConflict in faults then Some(Conflict)
                else if UpdatePolicyServer in faults then Some(Other) else None;
    var error := c.UpdateServer(server.name, server.finalizers, fail);
    if error == None || error == Some(Conflict) {
      return Pipeline.Finished;
    }
    return Pipeline.Error;
  }

  lemma DeletingKeepsServers(s: Store, n: string, faults: set<Call>)
    ensures Pipeline.DeleteOwned(s, n, faults).servers == s.servers
  {
    Pipeline.DeleteOwnedDeletes(s, n, faults);
  }

  // ------------------------------------------------------------------- the controller

  /** The pipeline, then the status write; only a run whose every stage succeeded and is so recorded is answered as done. */
  method ReconcileLiveServer(
    c: Cluster, cfg: Config, server: PolicyServerObject, policies: seq<BoundPolicy>, freshCa: nat, faults: set<Call>)
    returns (answer: Pipeline.Answer)
    requires server.name in c.servers && server.Value() == c.servers[server.name]
    modifies c, server
    ensures var q := Pipeline.Reconcile(
              old(c.Snapshot()), old(server.conditions), cfg, Pipeline.Job(server.name, old(server.spec), policies),
              freshCa, faults);
            c.Snapshot() == Api.UpdateServerStatus(q.store, server.name, q.conditions, UpdateStatus in faults).store
    ensures server.name in c.servers
    ensures answer == if UpdateStatus !in faults && Pipeline.AllDone(c.servers[server.name].conditions)
                      then Pipeline.Finished else Pipeline.Error
  {
    ghost var s, job := c.Snapshot(), Pipeline.Job(server.name, server.spec, policies);
    Effects.RunKeepsStart(s, server.conditions, cfg, job, freshCa, faults);
    Pipeline.SucceedsExactlyWhenAllDone(s, server.conditions, cfg, job, freshCa, faults);
    hide Pipeline.Reconcile;
    hide Pipeline.AllDone;
    var error := Reconcile(c, cfg, server, policies, freshCa, faults);
    var written := c.UpdateServerStatus(server.name, server.conditions, UpdateStatus in faults);
    return if written.Some? || error.Some? then Pipeline.Error else Pipeline.Finished;
  }

  /** One request of the work queue: read the server and its policies, then reconcile it live or tear it down. */
  method ReconcileRequest(
    c: Cluster, cfg: Config, n: string, clusterWide: Result<seq<PolicyKey>>, namespaced: Result<seq<PolicyKey>>,
    freshCa: nat, faults: set<Call>)
    returns (answer: Pipeline.Answer)
    requires forall k :: k in Pipeline.Found(clusterWide) + Pipeline.Found(namespaced) ==> k in c.policies
    modifies c
    ensures var s := old(c.Snapshot()); var listed := Pipeline.Found(clusterWide) + Pipeline.Found(namespaced);
            if GetPolicyServer in faults then c.Snapshot() == s && answer == Pipeline.Error
            else if n !in s.servers then c.Snapshot() == s && answer == Pipeline.Finished
            else if clusterWide == Err(NotFound) || namespaced == Err(NotFound) then
              c.Snapshot() == s && answer == Pipeline.Error
            else if s.servers[n].deleting then
              (c.Snapshot(), answer) == Pipeline.ReconcileDeletion(s, n, listed, faults)
            else
              var job := Pipeline.Job(n, s.servers[n].spec, Pipeline.LiveOnly(s.policies, listed));
              var q := Pipeline.Reconcile(s, s.servers[n].conditions, cfg, job, freshCa, faults);
              && c.Snapshot() == Api.UpdateServerStatus(q.store, n, q.conditions, UpdateStatus in faults).store
              && n in c.servers
              && (answer == if UpdateStatus !in faults && Pipeline.AllDone(c.servers[n].conditions)
                            then Pipeline.Finished else Pipeline.Error)
              && (faults == {} && n != "root-ca" ==>
                    (answer == Pipeline.Finished <==>
                     Pipeline.CanServe(s, n) && Pipeline.CanConfigure(s, n) && Pipeline.CanDeploy(s, n)))
  {
    hide Pipeline.ReconcileDeletion;
    hide Pipeline.LiveOnly;
    hide Pipeline.Reconcile;
    hide Pipeline.AllDone;
    hide Pipeline.CanServe;
    hide Pipeline.CanConfigure;
    hide Pipeline.CanDeploy;
    if GetPolicyServer in faults {
      return Pipeline.Error;
    }
    if n !in c.servers {
      return Pipeline.Finished;
    }
    var server := new PolicyServerObject(n, c.servers[n]);
    var policies := GetPolicies(c, clusterWide, namespaced);
    if policies.Err? {
      return Pipeline.Error;
    }
    if server.deleting {
      answer := ReconcileServerDeletion(
        c, server, Pipeline.Found(clusterWide) + Pipeline.Found(namespaced), policies.value, faults);
    } else {
      ghost var s, job := c.Snapshot(), Pipeline.Job(n, server.spec, policies.value);
      answer := ReconcileLiveServer(c, cfg, server, policies.value, freshCa, faults);
      Pipeline.SucceedsExactlyWhenAllDone(s, s.servers[n].conditions, cfg, job, freshCa, faults);
      if faults == {} && n != "root-ca" {
        Pipeline.ReconcileSucceedsExactly(s, s.servers[n].conditions, cfg, job, freshCa);
        Effects.RunKeepsStart(s, s.servers[n].conditions, cfg, job, freshCa, faults);
      }
    }
  }
}
