/**
 * Where what is stored comes from: over every run, deployments, serving certificates and webhooks are those of a server or
 * a policy as one run of its reconciler read it.
 */
module Origins {
  import opened Common
  import opened Naming
  import opened Model
  import opened Effects
  import opened Invariants
  import opened Protocol
  import ConfigMaps
  import Deletion
  import Deployments
  import Events
  import Pipeline
  import PolicyChanges
  import PolicyController
  import PolicyRunChanges
  import Progress
  import Safety
  import Secrets
  import Staleness
  import Transitions
  import Webhooks

  // ------------------------------------------------------------------------- deployments

  /** The same but for annotations, which users change to restart a rollout, and the version. */
  lemma RunsServerWhatever(t: Template, t': Template, cfg: Config, n: string, spec: ServerSpec)
    requires Deployments.RunsServer(t, cfg, n, spec) && t' == t.(annotations := t'.annotations)
    ensures Deployments.RunsServer(t', cfg, n, spec)
  {
    hide Deployments.ContainerFits;
    hide Deployments.VolumesFit;
    hide Deployments.MountsResolve;
  }

  /** The deployment's template is as it was, annotations apart, or a stage of a run of `n` has just written it. */
  ghost predicate TemplateFrom(m: Machine, m': Machine, cfg: Config, step: Step, n: string) {
    n in m'.store.deployments ==>
      var t' := m'.store.deployments[n].template;
      || (n in m.store.deployments && t' == m.store.deployments[n].template.(annotations := t'.annotations))
      || (step.ServerStage? && step.n == n && n in m.serverRuns &&
          Deployments.RunsServer(t', cfg, n, m.serverRuns[n].job.spec))
  }

  lemma DeploymentStageTemplates(s: Store, cfg: Config, job: Pipeline.Job, faults: set<Call>, n: string)
    ensures var s' := Deployments.DeploymentStage(s, cfg, job.name, job.spec, faults).store;
            n in s'.deployments ==>
              || (n in s.deployments && s'.deployments[n].template == s.deployments[n].template)
              || (n == job.name && Deployments.RunsServer(s'.deployments[n].template, cfg, n, job.spec))
  {
    hide Deployments.RunsServer;
    if ReadConfigMapVersion !in faults && job.name in s.configMaps &&
       !(job.spec.imagePullSecret != "" && CheckPullSecret in faults) {
      var d := Deployments.BuiltDeployment(cfg, s.configMaps[job.name].rv, job.name, job.spec);
      Deployments.BuiltTemplateRuns(cfg, s.configMaps[job.name].rv, job.name, job.spec);
      Deployments.SyncDeploymentWrites(s, job.name, d, faults);
      hide Deployments.SyncDeployment;
      hide Deployments.BuiltTemplate;
    }
  }

  lemma StageTemplates(m: Machine, cfg: Config, x: string, freshCa: nat, faults: set<Call>, n: string)
    requires x in m.serverRuns && m.serverRuns[x].stage < STAGES && m.serverRuns[x].job.name == x
    ensures TemplateFrom(m, AfterServerStage(m, cfg, x, freshCa, faults), cfg, ServerStage(x, freshCa, faults), n)
  {
    hide StageWrites;
    hide Deployments.RunsServer;
    var run := m.serverRuns[x];
    var (w, root') := Pipeline.RunStage(run.stage, m.store, cfg, run.job, run.root, freshCa, faults);
    StageEffect(run.stage, m.store, cfg, run.job, run.root, freshCa, faults);
    StageKeepsObjects(run.stage, m.store, w.store, run.job, run.root, root', w.error.None?);
    if run.stage == DEPLOYMENT_RECONCILED {
      Pipeline.OwnedStages(m.store, cfg, run.job, run.root, freshCa, faults);
      DeploymentStageTemplates(m.store, cfg, run.job, faults, n);
    }
    hide Pipeline.RunStage;
    hide Deployments.DeploymentStage;
  }

  lemma TeardownTemplates(s: Store, x: string, listed: seq<PolicyKey>, faults: set<Call>, n: string)
    requires x in s.servers && Enumerates(listed, Pipeline.BoundKeys(s, x))
    ensures var s' := AfterTearDownServer(s, x, listed, faults);
            n in s'.deployments ==> n in s.deployments && s'.deployments[n] == s.deployments[n]
  {
    TeardownEffect(s, x, listed, faults);
    hide Pipeline.ReconcileDeletion;
    hide NameWithPrefix;
    hide Pipeline.OwnsNothing;
    hide Marks;
  }

  lemma StepTemplates(m: Machine, cfg: Config, step: Step, n: string)
    requires Enabled(m, cfg, step) && forall x :: x in m.serverRuns ==> m.serverRuns[x].job.name == x
    ensures TemplateFrom(m, Apply(m, cfg, step), cfg, step, n)
  {
    hide Deployments.RunsServer;
    hide Enumerates;
    if step.ServerStage? {
      hide AfterServerStage;
      hide TemplateFrom;
      StageTemplates(m, cfg, step.n, step.freshCa, step.faults, n);
    } else if step.TearDownServer? {
      hide AfterTearDownServer;
      TeardownTemplates(m.store, step.n, step.listed, step.faults, n);
    } else if step.RestartRollout? || step.SyncRevision? {
    } else {
      Transitions.StepFrame(m, cfg, step);
      hide Apply;
      hide Enabled;
    }
  }

  /**
   * A stored deployment always runs its server as some run of that server read it at its beginning: image, environment,
   * mounts and volumes are that spec's, and the volumes are the server's own secret and ConfigMap.
   */
  lemma {:induction false} DeploymentIsSnapshot(
    cfg: Config, trace: seq<Machine>, steps: seq<Step>, i: nat, n: string) returns (j: nat)
    requires IsDisciplinedRun(cfg, trace, steps) && i < |trace| && n in trace[i].store.deployments
    ensures j < i && steps[j].BeginServer? && steps[j].n == n && n in trace[j].store.servers
    ensures Deployments.RunsServer(trace[i].store.deployments[n].template, cfg, n, trace[j].store.servers[n].spec)
  {
    hide Apply;
    hide Enabled;
    hide Disciplined;
    hide Invariant;
    hide Deployments.RunsServer;
    assert i > 0;
    var m, m', step := trace[i - 1], trace[i], steps[i - 1];
    Safety.InvariantOnRuns(cfg, trace, steps, i - 1);
    Deletion.RunsAreHeld(m);
    StepTemplates(m, cfg, step, n);
    var t' := m'.store.deployments[n].template;
    if n in m.store.deployments && t' == m.store.deployments[n].template.(annotations := t'.annotations) {
      j := DeploymentIsSnapshot(cfg, trace, steps, i - 1, n);
      RunsServerWhatever(m.store.deployments[n].template, t', cfg, n, trace[j].store.servers[n].spec);
    } else {
      j := Staleness.RunBegan(cfg, trace, steps, i - 1, n);
    }
  }

  /** So the root's private key is in no pod template, unless a spec named the root secret for pulling images. */
  lemma RootStaysOut(cfg: Config, trace: seq<Machine>, steps: seq<Step>, i: nat, n: string)
    requires IsDisciplinedRun(cfg, trace, steps) && i < |trace| && n in trace[i].store.deployments
    requires forall j :: 0 <= j < i && n in trace[j].store.servers ==>
               trace[j].store.servers[n].spec.imagePullSecret != ROOT_SECRET
    ensures forall v :: v in trace[i].store.deployments[n].template.volumes && v.SecretVolume? ==>
              v.secretName != ROOT_SECRET
  {
    hide Apply;
    hide Enabled;
    hide Disciplined;
    hide Invariant;
    var j := DeploymentIsSnapshot(cfg, trace, steps, i, n);
    Safety.InvariantOnRuns(cfg, trace, steps, j);
    Safety.ServersAreHeld(trace[j]);
    Deployments.RootIsMountedExactly(
      trace[i].store.deployments[n].template, cfg, n, trace[j].store.servers[n].spec);
    hide Deployments.RunsServer;
  }

  // ------------------------------------------------------------------ serving certificates

  /** Every serving certificate is for the host under which the API server calls that server's Service. */
  ghost predicate CertificatesNamed(secrets: map<string, Secret>, namespace: string) {
    forall n :: n != "root-ca" && NameWithPrefix(n) in secrets ==>
      Secrets.IssuedFor(secrets[NameWithPrefix(n)], NameWithPrefix(n) + "." + namespace + ".svc")
  }

  lemma AddedCertificateIsNamed(secrets: map<string, Secret>, secrets': map<string, Secret>, x: string, namespace: string)
    requires CertificatesNamed(secrets, namespace)
    requires secrets' == secrets ||
             (NameWithPrefix(x) in secrets' && secrets' == secrets[NameWithPrefix(x) := secrets'[NameWithPrefix(x)]])
    requires secrets' != secrets ==>
               Secrets.IssuedFor(secrets'[NameWithPrefix(x)], NameWithPrefix(x) + "." + namespace + ".svc")
    ensures CertificatesNamed(secrets', namespace)
  {
    hide Secrets.IssuedFor;
    forall n | n != "root-ca" && NameWithPrefix(n) in secrets'
      ensures Secrets.IssuedFor(secrets'[NameWithPrefix(n)], NameWithPrefix(n) + "." + namespace + ".svc")
    {
      ServerNames(n, x);
    }
  }

  lemma RootNamesNoCertificate(s: Store, s': Store, namespace: string)
    requires CertificatesNamed(s.secrets, namespace) && Secrets.AddsSecret(s, s', ROOT_SECRET)
    ensures CertificatesNamed(s'.secrets, namespace)
  {
    hide Secrets.IssuedFor;
    forall n | n != "root-ca" && NameWithPrefix(n) in s'.secrets
      ensures Secrets.IssuedFor(s'.secrets[NameWithPrefix(n)], NameWithPrefix(n) + "." + namespace + ".svc")
    {
      ServerNames(n, n);
    }
    hide NameWithPrefix;
  }

  lemma StageNamesCertificates(m: Machine, cfg: Config, x: string, freshCa: nat, faults: set<Call>)
    requires x in m.serverRuns && m.serverRuns[x].stage < STAGES
    requires CertificatesNamed(m.store.secrets, cfg.deploymentsNamespace)
    ensures CertificatesNamed(AfterServerStage(m, cfg, x, freshCa, faults).store.secrets, cfg.deploymentsNamespace)
  {
    hide NameWithPrefix;
    hide CertificatesNamed;
    var run := m.serverRuns[x];
    var (w, root') := Pipeline.RunStage(run.stage, m.store, cfg, run.job, run.root, freshCa, faults);
    if run.stage == CA_ROOT_SECRET_RECONCILED {
      hide Secrets.RootStage;
      RootStageAdds(m.store, freshCa, faults);
      RootNamesNoCertificate(m.store, w.store, cfg.deploymentsNamespace);
    } else if run.stage == CA_SECRET_RECONCILED {
      Secrets.NewServingIsNamed(m.store, cfg, NameWithPrefix(run.job.name), run.root, faults);
      hide Secrets.ServingStage;
      AddedCertificateIsNamed(m.store.secrets, w.store.secrets, run.job.name, cfg.deploymentsNamespace);
    } else {
      hide StageWrites;
      StageEffect(run.stage, m.store, cfg, run.job, run.root, freshCa, faults);
      StageKeepsObjects(run.stage, m.store, w.store, run.job, run.root, root', w.error.None?);
      hide Pipeline.RunStage;
    }
  }

  lemma RootStageAdds(s: Store, freshCa: nat, faults: set<Call>)
    ensures Secrets.AddsSecret(s, Secrets.RootStage(s, freshCa, faults).write.store, ROOT_SECRET)
  {
    Secrets.RootStageResult(s, freshCa, faults);
  }

  lemma TeardownNamesCertificates(s: Store, x: string, listed: seq<PolicyKey>, faults: set<Call>, namespace: string)
    requires x in s.servers && Enumerates(listed, Pipeline.BoundKeys(s, x)) && CertificatesNamed(s.secrets, namespace)
    ensures CertificatesNamed(AfterTearDownServer(s, x, listed, faults).secrets, namespace)
  {
    TeardownEffect(s, x, listed, faults);
    hide Pipeline.ReconcileDeletion;
    hide NameWithPrefix;
    hide Pipeline.OwnsNothing;
    hide Marks;
    hide Secrets.IssuedFor;
  }

  lemma StepNamesCertificates(m: Machine, cfg: Config, step: Step)
    requires Enabled(m, cfg, step) && CertificatesNamed(m.store.secrets, cfg.deploymentsNamespace)
    ensures CertificatesNamed(Apply(m, cfg, step).store.secrets, cfg.deploymentsNamespace)
  {
    hide CertificatesNamed;
    hide Enumerates;
    if step.ServerStage? {
      hide AfterServerStage;
      StageNamesCertificates(m, cfg, step.n, step.freshCa, step.faults);
    } else if step.TearDownServer? {
      hide AfterTearDownServer;
      TeardownNamesCertificates(m.store, step.n, step.listed, step.faults, cfg.deploymentsNamespace);
    } else {
      Transitions.StepFrame(m, cfg, step);
      hide Apply;
      hide Enabled;
    }
  }

  lemma {:induction false} CertificatesAreNamed(cfg: Config, trace: seq<Machine>, steps: seq<Step>, i: nat)
    requires IsRun(cfg, trace, steps) && i < |trace|
    ensures CertificatesNamed(trace[i].store.secrets, cfg.deploymentsNamespace)
  {
    hide Apply;
    hide Enabled;
    if i > 0 {
      CertificatesAreNamed(cfg, trace, steps, i - 1);
      hide CertificatesNamed;
      StepNamesCertificates(trace[i - 1], cfg, steps[i - 1]);
    }
  }

  // ----------------------------------------------------------------------------- webhooks

  /** What a policy's run works on was read when it began, the policy's server being there. */
  predicate PolicyRunFrom(m: Machine, m': Machine, step: Step, k: PolicyKey) {
    k in m'.policyRuns ==>
      var run' := m'.policyRuns[k];
      || (step.BeginPolicy? && step.k == k && k in m.store.policies && run'.policy.spec == m.store.policies[k].spec &&
          (run'.todo.Some? ==>
             && run'.todo.value.serviceName == NameWithPrefix(run'.policy.spec.policyServer)
             && run'.policy.spec.policyServer in m.store.servers))
      || (k in m.policyRuns && run'.policy.spec == m.policyRuns[k].policy.spec &&
          (run'.todo.Some? ==> run'.todo == m.policyRuns[k].todo))
  }

  lemma PreparedFrom(s: Store, k: PolicyKey, p: Policy, listed: seq<nat>, faults: set<Call>)
    ensures var run := PolicyController.Prepare(s, k, p, listed, faults);
            && run.policy.spec == p.spec
            && (run.todo.Some? ==> run.todo.value.serviceName == NameWithPrefix(p.spec.policyServer) &&
                                   p.spec.policyServer in s.servers)
  {
    hide UniqueName;
    hide NameWithPrefix;
    hide PolicyController.IsUniquelyReachable;
  }

  lemma PublishedFrom(s: Store, cfg: Config, k: PolicyKey, run: PolicyController.PolicyRun, faults: set<Call>)
    requires run.todo.Some?
    ensures var run' := PolicyController.Publish(s, cfg, k, run, faults).1;
            run'.policy.spec == run.policy.spec && run'.todo.None?
  {
    PolicyRunChanges.PublishWrites(s, cfg, k, run, faults);
    hide PolicyController.Publish;
  }

  lemma StepKeepsPolicyRun(m: Machine, cfg: Config, step: Step, k: PolicyKey)
    requires Enabled(m, cfg, step)
    ensures PolicyRunFrom(m, Apply(m, cfg, step), step, k)
  {
    hide NameWithPrefix;
    hide AfterTearDownServer;
    hide AfterServerStage;
    if step.BeginPolicy? {
      PreparedFrom(m.store, step.k, m.store.policies[step.k], step.replicaSets, step.faults);
      hide PolicyController.Prepare;
    } else if step.PublishPolicy? {
      PublishedFrom(m.store, cfg, step.k, m.policyRuns[step.k], step.faults);
      hide PolicyController.Publish;
    } else if step.ServerStage? {
      StageKeepsPolicyRuns(m, cfg, step.n, step.freshCa, step.faults);
    } else {
      hide PolicyController.Finish;
    }
  }

  lemma StageKeepsPolicyRuns(m: Machine, cfg: Config, n: string, freshCa: nat, faults: set<Call>)
    requires n in m.serverRuns && m.serverRuns[n].stage < STAGES
    ensures AfterServerStage(m, cfg, n, freshCa, faults).policyRuns == m.policyRuns
  {
    hide Pipeline.RunStage;
  }

  lemma {:induction false} PolicyRunBegan(cfg: Config, trace: seq<Machine>, steps: seq<Step>, i: nat, k: PolicyKey)
    returns (j: nat)
    requires IsRun(cfg, trace, steps) && i < |trace| && k in trace[i].policyRuns
    ensures j < i && steps[j].BeginPolicy? && steps[j].k == k && k in trace[j].store.policies
    ensures var run, spec := trace[i].policyRuns[k], trace[j].store.policies[k].spec;
            && run.policy.spec == spec
            && (run.todo.Some? ==>
                  run.todo.value.serviceName == NameWithPrefix(spec.policyServer) &&
                  spec.policyServer in trace[j].store.servers)
  {
    hide Apply;
    hide Enabled;
    hide NameWithPrefix;
    assert i > 0;
    StepKeepsPolicyRun(trace[i - 1], cfg, steps[i - 1], k);
    if k in trace[i - 1].policyRuns && trace[i].policyRuns[k].policy.spec == trace[i - 1].policyRuns[k].policy.spec &&
       (trace[i].policyRuns[k].todo.Some? ==> trace[i].policyRuns[k].todo == trace[i - 1].policyRuns[k].todo) {
      j := PolicyRunBegan(cfg, trace, steps, i - 1, k);
    } else {
      j := i - 1;
    }
  }

  /** The webhook configuration is as it was, or a policy of that name and kind has just had its webhook written. */
  ghost predicate HookFrom(m: Machine, m': Machine, cfg: Config, step: Step, kind: WebhookKind, u: string) {
    u in m'.store.Webhooks(kind) ==>
      || (u in m.store.Webhooks(kind) &&
          m'.store.Webhooks(kind)[u].webhooks == m.store.Webhooks(kind)[u].webhooks)
      || (step.PublishPolicy? && UniqueName(step.k) == u && step.k in m.policyRuns &&
          var run := m.policyRuns[step.k];
          && run.todo.Some? && KindOf(run.policy.spec.mutating) == kind
          && m'.store.Webhooks(kind)[u].webhooks ==
               PolicyController.DesiredWebhooks(cfg, step.k, run.policy.spec, run.todo.value))
  }

  lemma PublishedHook(m: Machine, cfg: Config, k: PolicyKey, faults: set<Call>, kind: WebhookKind, u: string)
    requires k in m.policyRuns && m.policyRuns[k].todo.Some?
    ensures HookFrom(m, AfterPublishPolicy(m, cfg, k, faults), cfg, PublishPolicy(k, faults), kind, u)
  {
    hide UniqueName;
    var run := m.policyRuns[k];
    var kind0 := KindOf(run.policy.spec.mutating);
    PolicyRunChanges.PublishWrites(m.store, cfg, k, run, faults);
    var s' := PolicyController.Publish(m.store, cfg, k, run, faults).0;
    hide PolicyController.Publish;
    hide PolicyController.DesiredWebhooks;
    if kind == kind0 {
    } else {
      OtherKindKept(m.store, s', kind0, UniqueName(k),
                    PolicyController.DesiredWebhooks(cfg, k, run.policy.spec, run.todo.value));
      hide Webhooks.WritesWebhook;
    }
  }

  lemma OtherKindKept(s: Store, s': Store, kind: WebhookKind, u: string, hooks: seq<Webhook>)
    requires Webhooks.WritesWebhook(s, s', kind, u, hooks)
    ensures forall other: WebhookKind :: other != kind ==> s'.Webhooks(other) == s.Webhooks(other)
  {
  }

  lemma FinalizedHook(s: Store, cfg: Config, k: PolicyKey, faults: set<Call>, kind: WebhookKind, u: string)
    requires k in s.policies && s.policies[k].deleting
    ensures var s' := AfterFinalizePolicy(s, cfg, k, faults);
            u in s'.Webhooks(kind) ==>
              u in s.Webhooks(kind) && s'.Webhooks(kind)[u].webhooks == s.Webhooks(kind)[u].webhooks
  {
    hide UniqueName;
    hide PolicyChanges.Finalizes;
    PolicyRunChanges.FinalizeWrites(s, cfg, k, faults);
    hide PolicyController.ReconcilePolicyDeletion;
  }

  predicate SameHooks(s: Store, s': Store) {
    s'.mutating == s.mutating && s'.validating == s.validating
  }

  lemma StageKeepsHooks(m: Machine, cfg: Config, x: string, freshCa: nat, faults: set<Call>)
    requires x in m.serverRuns && m.serverRuns[x].stage < STAGES
    ensures SameHooks(m.store, AfterServerStage(m, cfg, x, freshCa, faults).store)
  {
    hide StageWrites;
    var run := m.serverRuns[x];
    var (w, root') := Pipeline.RunStage(run.stage, m.store, cfg, run.job, run.root, freshCa, faults);
    StageEffect(run.stage, m.store, cfg, run.job, run.root, freshCa, faults);
    StageKeepsObjects(run.stage, m.store, w.store, run.job, run.root, root', w.error.None?);
    hide Pipeline.RunStage;
  }

  lemma TeardownKeepsHooks(s: Store, x: string, listed: seq<PolicyKey>, faults: set<Call>)
    requires x in s.servers && Enumerates(listed, Pipeline.BoundKeys(s, x))
    ensures SameHooks(s, AfterTearDownServer(s, x, listed, faults))
  {
    TeardownEffect(s, x, listed, faults);
    hide Pipeline.ReconcileDeletion;
    hide NameWithPrefix;
    hide Pipeline.OwnsNothing;
    hide Marks;
  }

  lemma OtherStepKeepsHooks(m: Machine, cfg: Config, step: Step)
    requires Enabled(m, cfg, step) && !step.PublishPolicy? && !step.FinalizePolicy?
    ensures SameHooks(m.store, Apply(m, cfg, step).store)
  {
    hide Enumerates;
    hide SameHooks;
    if step.ServerStage? {
      hide AfterServerStage;
      StageKeepsHooks(m, cfg, step.n, step.freshCa, step.faults);
    } else if step.TearDownServer? {
      hide AfterTearDownServer;
      TeardownKeepsHooks(m.store, step.n, step.listed, step.faults);
    } else {
      QuietStepKeepsHooks(m, cfg, step);
      hide Apply;
      hide Enabled;
    }
  }

  lemma QuietStepKeepsHooks(m: Machine, cfg: Config, step: Step)
    requires Enabled(m, cfg, step)
    requires !step.PublishPolicy? && !step.FinalizePolicy? && !step.ServerStage? && !step.TearDownServer?
    ensures SameHooks(m.store, Apply(m, cfg, step).store)
  {
    hide CanSync;
    hide ConfigMaps.ServedPolicies;
    hide PolicyController.ObservedStatus;
  }

  lemma StepHooks(m: Machine, cfg: Config, step: Step, kind: WebhookKind, u: string)
    requires Enabled(m, cfg, step)
    ensures HookFrom(m, Apply(m, cfg, step), cfg, step, kind, u)
  {
    hide UniqueName;
    hide Webhooks.DesiredWebhook;
    if step.PublishPolicy? {
      hide AfterPublishPolicy;
      hide HookFrom;
      PublishedHook(m, cfg, step.k, step.faults, kind, u);
    } else if step.FinalizePolicy? {
      hide AfterFinalizePolicy;
      FinalizedHook(m.store, cfg, step.k, step.faults, kind, u);
    } else {
      OtherStepKeepsHooks(m, cfg, step);
      hide Apply;
      hide Enabled;
      if kind.Mutating? {
      } else {
      }
    }
  }

  /**
   * A stored webhook always represents its policy as some run of that policy read it at its beginning: it matches the
   * requests that spec is for, leads to that policy at its server, which was there, and carries the treatment that spec asks
   * for.
   */
  lemma {:induction false} WebhookIsSnapshot(
    cfg: Config, trace: seq<Machine>, steps: seq<Step>, i: nat, kind: WebhookKind, u: string)
    returns (j: nat, k: PolicyKey)
    requires IsRun(cfg, trace, steps) && i < |trace| && u in trace[i].store.Webhooks(kind)
    ensures j < i && steps[j].BeginPolicy? && steps[j].k == k && k in trace[j].store.policies && UniqueName(k) == u
    ensures var spec, hooks := trace[j].store.policies[k].spec, trace[i].store.Webhooks(kind)[u].webhooks;
            && KindOf(spec.mutating) == kind && spec.policyServer in trace[j].store.servers
            && |hooks| == 1 && Webhooks.Represents(hooks[0], cfg.deploymentsNamespace, k, spec)
  {
    hide Apply;
    hide Enabled;
    hide UniqueName;
    hide NameWithPrefix;
    hide Webhooks.Represents;
    InitiallyNoHooks(kind);
    assert i > 0;
    var m, m', step := trace[i - 1], trace[i], steps[i - 1];
    StepHooks(m, cfg, step, kind, u);
    if u in m.store.Webhooks(kind) && m'.store.Webhooks(kind)[u].webhooks == m.store.Webhooks(kind)[u].webhooks {
      j, k := WebhookIsSnapshot(cfg, trace, steps, i - 1, kind, u);
    } else {
      k := step.k;
      j := PolicyRunBegan(cfg, trace, steps, i - 1, k);
      Webhooks.DesiredRepresents(cfg, k, trace[j].store.policies[k].spec, m.policyRuns[k].todo.value.root);
      hide Webhooks.DesiredWebhook;
    }
  }

  lemma InitiallyNoHooks(kind: WebhookKind)
    ensures INITIAL.store.Webhooks(kind) == map[]
  {
    if kind.Mutating? {
    } else {
    }
  }

  // -------------------------------------------------------------- who answers under which name

  /**
   * The API server gets through to the policy server: for every stored webhook whose server has its serving secret, the
   * certificate in it is for the very host the webhook makes the API server call, it is signed by the root, and the
   * webhook's bundle is that root's.
   */
  lemma WebhookHostIsCertified(
    cfg: Config, trace: seq<Machine>, steps: seq<Step>, i: nat, kind: WebhookKind, u: string, w: Webhook)
    requires IsDisciplinedRun(cfg, trace, steps) && i < |trace|
    requires u in trace[i].store.Webhooks(kind) && w in trace[i].store.Webhooks(kind)[u].webhooks
    requires w.serviceName in trace[i].store.secrets
    ensures var s := trace[i].store; var serving := s.secrets[w.serviceName];
            && Secrets.IssuedFor(serving, w.serviceName + "." + w.serviceNamespace + ".svc")
            && ROOT_SECRET in s.secrets && IsRoot(s.secrets[ROOT_SECRET])
            && Secrets.SignedBy(serving, CaOf(s.secrets[ROOT_SECRET]))
            && w.caBundle == Some(CaPem(CaOf(s.secrets[ROOT_SECRET])))
  {
    hide Apply;
    hide Enabled;
    hide Disciplined;
    hide Invariant;
    hide UniqueName;
    hide NameWithPrefix;
    hide IsRoot;
    hide Secrets.IssuedFor;
    hide Secrets.SignedBy;
    hide Webhooks.Represents;
    var j, k := WebhookIsSnapshot(cfg, trace, steps, i, kind, u);
    var n := trace[j].store.policies[k].spec.policyServer;
    CertificatesAreNamed(cfg, trace, steps, i);
    Safety.InvariantOnRuns(cfg, trace, steps, j);
    Safety.ServersAreHeld(trace[j]);
    Safety.InvariantOnRuns(cfg, trace, steps, i);
    Safety.RootIsTrusted(trace[i]);
    HooksAreTrusted(trace[i].store, kind);
    assert w == trace[i].store.Webhooks(kind)[u].webhooks[0];
    RepresentsLeads(w, cfg.deploymentsNamespace, k, trace[j].store.policies[k].spec);
    assert n != "root-ca" && NameWithPrefix(n) in trace[i].store.secrets;
    assert TrustsRoot(w, trace[i].store.secrets);
  }

  lemma RepresentsLeads(w: Webhook, namespace: string, k: PolicyKey, spec: PolicySpec)
    requires Webhooks.Represents(w, namespace, k, spec)
    ensures w.serviceName == NameWithPrefix(spec.policyServer) && w.serviceNamespace == namespace
  {
  }

  lemma HooksAreTrusted(s: Store, kind: WebhookKind)
    requires HooksTrusted(s.mutating, s.secrets) && HooksTrusted(s.validating, s.secrets)
    ensures HooksTrusted(s.Webhooks(kind), s.secrets)
  {
    hide HooksTrusted;
    if kind.Mutating? {
    } else {
    }
  }

  // -------------------------------------------------------------------------------- events

  ghost predicate Labelled(configMaps: map<string, ConfigMap>) {
    forall n :: n in configMaps ==> configMaps[n].serverLabel == Some(n)
  }

  lemma StageLabels(m: Machine, cfg: Config, x: string, freshCa: nat, faults: set<Call>)
    requires x in m.serverRuns && m.serverRuns[x].stage < STAGES && Labelled(m.store.configMaps)
    ensures Labelled(AfterServerStage(m, cfg, x, freshCa, faults).store.configMaps)
  {
    hide NameWithPrefix;
    var run := m.serverRuns[x];
    var (w, root') := Pipeline.RunStage(run.stage, m.store, cfg, run.job, run.root, freshCa, faults);
    StageEffect(run.stage, m.store, cfg, run.job, run.root, freshCa, faults);
    if run.stage == CONFIG_MAP_RECONCILED {
      Staleness.ConfigMapStageIs(run.stage, m.store, w.store, run.job, run.root, root', w.error.None?);
      Pipeline.OwnedStages(m.store, cfg, run.job, run.root, freshCa, faults);
      if w.error.None? {
        ConfigMaps.StageSaysAll(m.store, run.job.name, run.job.spec, run.job.policies, faults);
      }
      hide ConfigMaps.SaysAll;
      hide StageWrites;
      hide Pipeline.RunStage;
      hide ConfigMaps.ConfigMapStage;
      hide ConfigMaps.ServedPolicies;
      hide ConfigMaps.Decodes;
    } else {
      Staleness.OtherStagesKeepConfigMaps(run.stage, m.store, w.store, run.job, run.root, root', w.error.None?);
      hide StageWrites;
      hide Pipeline.RunStage;
    }
  }

  lemma StepLabels(m: Machine, cfg: Config, step: Step)
    requires Enabled(m, cfg, step) && Labelled(m.store.configMaps)
    requires forall x :: x in m.serverRuns ==> m.serverRuns[x].job.name == x
    requires forall k :: k in m.policyRuns ==> k in m.store.policies
    ensures Labelled(Apply(m, cfg, step).store.configMaps)
  {
    hide Enumerates;
    if step.ServerStage? {
      hide AfterServerStage;
      hide Labelled;
      StageLabels(m, cfg, step.n, step.freshCa, step.faults);
    } else {
      hide Apply;
      hide Enabled;
      hide ConfigMaps.ServedPolicies;
      forall n | n in Apply(m, cfg, step).store.configMaps
        ensures Apply(m, cfg, step).store.configMaps[n].serverLabel == Some(n)
      {
        Staleness.StepWritesConfigMap(m, cfg, step, n);
      }
    }
  }

  lemma {:induction false} ConfigMapsAreLabelled(cfg: Config, trace: seq<Machine>, steps: seq<Step>, i: nat)
    requires IsDisciplinedRun(cfg, trace, steps) && i < |trace|
    ensures Labelled(trace[i].store.configMaps)
  {
    hide Apply;
    hide Enabled;
    hide Disciplined;
    hide Invariant;
    if i > 0 {
      ConfigMapsAreLabelled(cfg, trace, steps, i - 1);
      hide Labelled;
      Safety.InvariantOnRuns(cfg, trace, steps, i - 1);
      Deletion.RunsAreHeld(trace[i - 1]);
      StepLabels(trace[i - 1], cfg, steps[i - 1]);
    }
  }

  /** Kubernetes has no namespace without a name. */
  ghost predicate NamespacesNamed(policies: map<PolicyKey, Policy>) {
    forall k :: k in policies && k.Namespaced? ==> k.ns != ""
  }

  /**
   * In every run, an event on a server, on its ConfigMap or on a live pod of it has each policy that the run behind that
   * ConfigMap had read reconciled once, by the controller of its kind, and asks for nobody else.
   */
  lemma EventsRequestSnapshot(
    cfg: Config, trace: seq<Machine>, steps: seq<Step>, i: nat, j: nat, n: string, order: seq<string>, namespaced: bool)
    requires IsDisciplinedRun(cfg, trace, steps) && Staleness.ServesSnapshot(trace, steps, i, j, n)
    requires NamespacesNamed(trace[j].store.policies)
    requires Enumerates(order, ConfigMaps.ServedPolicies(trace[i].store.configMaps[n]).value.Keys)
    ensures var s := trace[i].store;
            var read := Pipeline.LiveOnly(trace[j].store.policies, steps[j].listed);
            var requested := multiset(ConfigMaps.PolicyNames(read, namespaced));
            && multiset(Events.PoliciesForConfigMap(s.configMaps[n], order, namespaced)) == requested
            && multiset(Events.PoliciesForPolicyServer(s, n, order, namespaced, {})) == requested
            && multiset(Events.PoliciesForPod(s, Some(n), false, order, namespaced, {})) == requested
  {
    hide Apply;
    hide Enabled;
    hide Disciplined;
    hide Invariant;
    hide ConfigMaps.PoliciesMap;
    hide ConfigMaps.ServedPolicies;
    hide ConfigMaps.PolicyNames;
    hide Events.PoliciesForPod;
    hide Events.PoliciesForPolicyServer;
    hide Events.PoliciesForConfigMap;
    var read := Pipeline.LiveOnly(trace[j].store.policies, steps[j].listed);
    ConfigMapsAreLabelled(cfg, trace, steps, i);
    Safety.InvariantOnRuns(cfg, trace, steps, j);
    Deletion.NamesAreDistinct(trace[j]);
    Staleness.ListedIsBound(trace[j], cfg, steps[j]);
    Progress.LiveOnlyDistinctNames(trace[j].store.policies, steps[j].listed);
    Pipeline.LiveOnlyElements(trace[j].store.policies, steps[j].listed);
    hide Pipeline.LiveOnly;
    hide NamesDistinct;
    hide ConfigMaps.DistinctNames;
    Events.EveryPolicyIsRequestedOnce(trace[i].store, n, read, order, namespaced);
  }
}
