/** The deployment that runs a policy server: how it is built, and the cheap test for whether it must be updated. */
module Deployments {
  import opened Common
  import opened Naming
  import opened Model
  import opened Api

  const RESTART_ANNOTATION := "kubectl.kubernetes.io/restartedAt"
  const VERIFICATION_VOLUME := "verification"
  const PULL_SECRET_VOLUME := "imagepullsecret"

  const VERIFICATION_ENV := EnvVar("KUBEWARDEN_VERIFICATION_CONFIG_PATH", Join("/verification", "verification.yml"))
  const PULL_SECRET_ENV :=
    EnvVar("KUBEWARDEN_DOCKER_CONFIG_JSON_PATH", Join("/home/kubewarden/.docker", ".dockerconfigjson"))
  const SOURCES_ENV := EnvVar("KUBEWARDEN_SOURCES_PATH", Join("/sources", "sources.yml"))

  function Join(directory: string, file: string): string {
    directory + "/" + file
  }

  function BaseEnv(): seq<EnvVar> {
    [ EnvVar("KUBEWARDEN_CERT_FILE", Join("/pki", "policy-server-cert")),
      EnvVar("KUBEWARDEN_KEY_FILE", Join("/pki", "policy-server-key")),
      EnvVar("KUBEWARDEN_PORT", "8443"),
      EnvVar("KUBEWARDEN_POLICIES_DOWNLOAD_DIR", "/tmp"),
      EnvVar("KUBEWARDEN_POLICIES", Join("/config", "policies.yml")),
      EnvVar("KUBEWARDEN_SIGSTORE_CACHE_DIR", Join("/tmp", "sigstore-data")) ]
  }

  function BaseMounts(): seq<VolumeMount> {
    [ VolumeMount("certs", true, "/pki"),
      VolumeMount("policies", true, "/config"),
      VolumeMount("policy-store", false, "/tmp") ]
  }

  function BaseVolumes(name: string): seq<Volume> {
    [ EmptyDirVolume("policy-store"),
      SecretVolume("certs", name),
      ConfigMapVolume("policies", name, [("policies.yml", "policies.yml")]) ]
  }

  /** A block that is there or not. */
  function Block<T>(present: bool, x: T): seq<T> {
    if present then [x] else []
  }

  // ------------------------------------------------------- the built deployment

  predicate HasVerification(spec: ServerSpec) {
    spec.verificationConfig != ""
  }

  predicate HasPullSecret(spec: ServerSpec) {
    spec.imagePullSecret != ""
  }

  predicate HasSources(spec: ServerSpec) {
    (spec.insecureSources.Some? && spec.insecureSources.value != []) || spec.sourceAuthorities != map[]
  }

  function FixedEnv(cfg: Config, spec: ServerSpec): seq<EnvVar> {
    BaseEnv() + spec.env +
    Block(cfg.alwaysAcceptReviews,
          EnvVar("KUBEWARDEN_ALWAYS_ACCEPT_ADMISSION_REVIEWS_ON_NAMESPACE", cfg.deploymentsNamespace))
  }

  function BuiltEnv(cfg: Config, spec: ServerSpec): seq<EnvVar> {
    FixedEnv(cfg, spec) + Block(HasVerification(spec), VERIFICATION_ENV) + Block(HasPullSecret(spec), PULL_SECRET_ENV)
    + Block(HasSources(spec), SOURCES_ENV)
  }

  function BuiltMounts(spec: ServerSpec): seq<VolumeMount> {
    BaseMounts() + Block(HasVerification(spec), VolumeMount(VERIFICATION_VOLUME, true, "/verification"))
    + Block(HasPullSecret(spec), VolumeMount(PULL_SECRET_VOLUME, true, "/home/kubewarden/.docker"))
    + Block(HasSources(spec), VolumeMount("sources", true, "/sources"))
  }

  function BuiltVolumes(name: string, spec: ServerSpec): seq<Volume> {
    BaseVolumes(name)
    + Block(HasVerification(spec),
            ConfigMapVolume(VERIFICATION_VOLUME, spec.verificationConfig, [("verification-config", "verification.yml")]))
    + Block(HasPullSecret(spec), SecretVolume(PULL_SECRET_VOLUME, spec.imagePullSecret))
    + Block(HasSources(spec), ConfigMapVolume("sources", name, []))
  }

  function BuiltContainer(cfg: Config, name: string, spec: ServerSpec): Container {
    Container(name, spec.image, BuiltMounts(spec), BuiltEnv(cfg, spec), "/readiness", 8443, true)
  }

  function BuiltTemplate(cfg: Config, version: nat, n: string, spec: ServerSpec): Template {
    Template(AppLabel(n), n, version, spec.annotations, [BuiltContainer(cfg, NameWithPrefix(n), spec)],
             spec.serviceAccountName, BuiltVolumes(NameWithPrefix(n), spec))
  }

  /** Not stored yet: uid and resource version are the API server's to give, the revision the deployment controller's. */
  function BuiltDeployment(cfg: Config, version: nat, n: string, spec: ServerSpec): Deployment {
    Deployment(0, 0, Some(version), None, AppLabel(n), n, spec.replicas, BuiltTemplate(cfg, version, n, spec))
  }

  // ------------------------------------------------ what the pods of a server should be like

  ghost predicate DistinctNames(volumes: seq<Volume>) {
    forall i, j :: 0 <= i < j < |volumes| ==> volumes[i].name != volumes[j].name
  }

  ghost predicate DistinctPaths(mounts: seq<VolumeMount>) {
    forall i, j :: 0 <= i < j < |mounts| ==> mounts[i].mountPath != mounts[j].mountPath
  }

  /** Every mount names a volume, and every volume is mounted. */
  ghost predicate SameNames(volumes: seq<Volume>, mounts: seq<VolumeMount>) {
    && (forall m :: m in mounts ==> exists v :: v in volumes && v.name == m.name)
    && (forall v :: v in volumes ==> exists m :: m in mounts && m.name == v.name)
  }

  /** Every mount names exactly one volume, every volume is mounted, and no two at one path. */
  ghost predicate MountsResolve(volumes: seq<Volume>, mounts: seq<VolumeMount>) {
    DistinctNames(volumes) && DistinctPaths(mounts) && SameNames(volumes, mounts)
  }

  /** The server's serving secret and ConfigMap, what the spec names, and scratch space; no other secret. */
  ghost predicate VolumesFit(volumes: seq<Volume>, server: string, spec: ServerSpec) {
    && SecretVolume("certs", server) in volumes
    && ConfigMapVolume("policies", server, [("policies.yml", "policies.yml")]) in volumes
    && EmptyDirVolume("policy-store") in volumes
    && (spec.verificationConfig != "" ==>
          ConfigMapVolume("verification", spec.verificationConfig, [("verification-config", "verification.yml")])
            in volumes)
    && (spec.imagePullSecret != "" ==> SecretVolume("imagepullsecret", spec.imagePullSecret) in volumes)
    && (NamesSources(spec) ==> ConfigMapVolume("sources", server, []) in volumes)
    && (forall v :: v in volumes && v.name == "verification" ==> spec.verificationConfig != "")
    && (forall v :: v in volumes && v.name == "imagepullsecret" ==> spec.imagePullSecret != "")
    && (forall v :: v in volumes && v.name == "sources" ==> NamesSources(spec))
    && (forall v :: v in volumes && v.SecretVolume? ==>
          v.secretName == server || (v.secretName == spec.imagePullSecret && spec.imagePullSecret != ""))
  }

  predicate NamesSources(spec: ServerSpec) {
    (spec.insecureSources.Some? && |spec.insecureSources.value| > 0) || |spec.sourceAuthorities| > 0
  }

  /** The variable leads to that file on that volume. */
  ghost predicate LeadsTo(c: Container, variable: string, volume: string, file: string) {
    exists m :: m in c.mounts && m.name == volume && EnvVar(variable, Join(m.mountPath, file)) in c.env
  }

  /** The server finds certificate, key, policies and whatever else its spec asks for; only scratch space is writable. */
  ghost predicate ContainerFits(c: Container, cfg: Config, server: string, spec: ServerSpec) {
    && c.name == server && c.image == spec.image && c.readOnlyRootFilesystem
    && c.readinessPath == "/readiness" && c.readinessPort == 8443
    && (forall m :: m in c.mounts ==> (m.readOnly <==> m.name != "policy-store"))
    && LeadsTo(c, "KUBEWARDEN_CERT_FILE", "certs", "policy-server-cert")
    && LeadsTo(c, "KUBEWARDEN_KEY_FILE", "certs", "policy-server-key")
    && LeadsTo(c, "KUBEWARDEN_POLICIES", "policies", "policies.yml")
    && LeadsTo(c, "KUBEWARDEN_SIGSTORE_CACHE_DIR", "policy-store", "sigstore-data")
    && EnvVar("KUBEWARDEN_PORT", "8443") in c.env
    && (exists m :: m in c.mounts && m.name == "policy-store" &&
                    EnvVar("KUBEWARDEN_POLICIES_DOWNLOAD_DIR", m.mountPath) in c.env)
    && (spec.verificationConfig != "" ==>
          LeadsTo(c, "KUBEWARDEN_VERIFICATION_CONFIG_PATH", "verification", "verification.yml"))
    && (spec.imagePullSecret != "" ==>
          LeadsTo(c, "KUBEWARDEN_DOCKER_CONFIG_JSON_PATH", "imagepullsecret", ".dockerconfigjson"))
    && (NamesSources(spec) ==> LeadsTo(c, "KUBEWARDEN_SOURCES_PATH", "sources", "sources.yml"))
    && (cfg.alwaysAcceptReviews ==>
          EnvVar("KUBEWARDEN_ALWAYS_ACCEPT_ADMISSION_REVIEWS_ON_NAMESPACE", cfg.deploymentsNamespace) in c.env)
    && (forall e :: e in spec.env ==> e in c.env)
  }

  /** The template runs server `n` as that spec asks, whatever annotations and version it carries. */
  ghost predicate RunsServer(t: Template, cfg: Config, n: string, spec: ServerSpec) {
    && |t.containers| == 1
    && ContainerFits(t.containers[0], cfg, NameWithPrefix(n), spec)
    && VolumesFit(t.volumes, NameWithPrefix(n), spec)
    && MountsResolve(t.volumes, t.containers[0].mounts)
    && t.serverLabel == n && t.appLabel == "kubewarden-policy-server-" + n
    && t.serviceAccountName == spec.serviceAccountName
  }

  lemma BuiltMountsResolve(name: string, spec: ServerSpec)
    ensures MountsResolve(BuiltVolumes(name, spec), BuiltMounts(spec))
  {
    var vs, ms := BaseVolumes(name), BaseMounts();
    BaseIsDistinct(name);
    BaseSameNames(name);
    BaseAvoids(name);
    hide DistinctNames;
    hide DistinctPaths;
    hide SameNames;
    assert MountsResolve(vs, ms);
    hide MountsResolve;
    hide Avoids;
    hide BaseVolumes;
    hide BaseMounts;
    hide Block;
    var a, va, ma := HasVerification(spec),
      ConfigMapVolume(VERIFICATION_VOLUME, spec.verificationConfig, [("verification-config", "verification.yml")]),
      VolumeMount(VERIFICATION_VOLUME, true, "/verification");
    var b, vb, mb := HasPullSecret(spec), SecretVolume(PULL_SECRET_VOLUME, spec.imagePullSecret),
      VolumeMount(PULL_SECRET_VOLUME, true, "/home/kubewarden/.docker");
    var c, vc, mc := HasSources(spec), ConfigMapVolume("sources", name, []), VolumeMount("sources", true, "/sources");
    BlockResolves(vs, ms, a, va, ma);
    BlockAvoids(vs, ms, a, va, ma, vb.name, mb.mountPath);
    BlockAvoids(vs, ms, a, va, ma, vc.name, mc.mountPath);
    vs, ms := vs + Block(a, va), ms + Block(a, ma);
    BlockResolves(vs, ms, b, vb, mb);
    BlockAvoids(vs, ms, b, vb, mb, vc.name, mc.mountPath);
    vs, ms := vs + Block(b, vb), ms + Block(b, mb);
    BlockResolves(vs, ms, c, vc, mc);
  }

  /** Neither that volume name nor that mount path is taken. */
  ghost predicate Avoids(volumes: seq<Volume>, mounts: seq<VolumeMount>, name: string, path: string) {
    (forall v :: v in volumes ==> v.name != name) && (forall m :: m in mounts ==> m.mountPath != path)
  }

  lemma BaseIsDistinct(name: string)
    ensures DistinctNames(BaseVolumes(name)) && DistinctPaths(BaseMounts())
  {
  }

  lemma BaseSameNames(name: string)
    ensures SameNames(BaseVolumes(name), BaseMounts())
  {
    var vs, ms := BaseVolumes(name), BaseMounts();
    assert vs[0].name == ms[2].name && vs[1].name == ms[0].name && vs[2].name == ms[1].name;
  }

  lemma BaseAvoids(name: string)
    ensures Avoids(BaseVolumes(name), BaseMounts(), "verification", "/verification")
    ensures Avoids(BaseVolumes(name), BaseMounts(), "imagepullsecret", "/home/kubewarden/.docker")
    ensures Avoids(BaseVolumes(name), BaseMounts(), "sources", "/sources")
  {
  }

  lemma BlockIsDistinct(vs: seq<Volume>, ms: seq<VolumeMount>, present: bool, v: Volume, m: VolumeMount)
    requires DistinctNames(vs) && DistinctPaths(ms) && Avoids(vs, ms, v.name, m.mountPath)
    ensures DistinctNames(vs + Block(present, v)) && DistinctPaths(ms + Block(present, m))
  {
    forall i | 0 <= i < |vs|
      ensures vs[i].name != v.name
    {
      assert vs[i] in vs;
    }
    forall i | 0 <= i < |ms|
      ensures ms[i].mountPath != m.mountPath
    {
      assert ms[i] in ms;
    }
    hide Avoids;
  }

  lemma BlockSameNames(vs: seq<Volume>, ms: seq<VolumeMount>, present: bool, v: Volume, m: VolumeMount)
    requires SameNames(vs, ms) && v.name == m.name
    ensures SameNames(vs + Block(present, v), ms + Block(present, m))
  {
    var vs', ms' := vs + Block(present, v), ms + Block(present, m);
    assert forall y :: y in vs' <==> y in vs || (present && y == v);
    assert forall x :: x in ms' <==> x in ms || (present && x == m);
    hide Block;
  }

  lemma BlockResolves(vs: seq<Volume>, ms: seq<VolumeMount>, present: bool, v: Volume, m: VolumeMount)
    requires MountsResolve(vs, ms) && v.name == m.name && Avoids(vs, ms, v.name, m.mountPath)
    ensures MountsResolve(vs + Block(present, v), ms + Block(present, m))
  {
    BlockIsDistinct(vs, ms, present, v, m);
    BlockSameNames(vs, ms, present, v, m);
    hide DistinctNames;
    hide DistinctPaths;
    hide SameNames;
  }

  lemma BlockAvoids(
    vs: seq<Volume>, ms: seq<VolumeMount>, present: bool, v: Volume, m: VolumeMount, name: string, path: string)
    requires Avoids(vs, ms, name, path) && v.name != name && m.mountPath != path
    ensures Avoids(vs + Block(present, v), ms + Block(present, m), name, path)
  {
  }

  lemma BuiltVolumesAre(name: string, spec: ServerSpec, v: Volume)
    ensures v in BuiltVolumes(name, spec) <==>
            || v == EmptyDirVolume("policy-store") || v == SecretVolume("certs", name)
            || v == ConfigMapVolume("policies", name, [("policies.yml", "policies.yml")])
            || (spec.verificationConfig != "" &&
                v == ConfigMapVolume("verification", spec.verificationConfig,
                                     [("verification-config", "verification.yml")]))
            || (spec.imagePullSecret != "" && v == SecretVolume("imagepullsecret", spec.imagePullSecret))
            || (NamesSources(spec) && v == ConfigMapVolume("sources", name, []))
  {
    hide HasSources;
    SourcesAreNamed(spec);
    hide NamesSources;
  }

  lemma SourcesAreNamed(spec: ServerSpec)
    ensures HasSources(spec) <==> NamesSources(spec)
  {
  }

  lemma BuiltVolumesFit(name: string, spec: ServerSpec)
    ensures VolumesFit(BuiltVolumes(name, spec), name, spec)
  {
    hide NamesSources;
    forall v: Volume
      ensures v in BuiltVolumes(name, spec) <==>
              || v == EmptyDirVolume("policy-store") || v == SecretVolume("certs", name)
              || v == ConfigMapVolume("policies", name, [("policies.yml", "policies.yml")])
              || (spec.verificationConfig != "" &&
                  v == ConfigMapVolume("verification", spec.verificationConfig,
                                       [("verification-config", "verification.yml")]))
              || (spec.imagePullSecret != "" && v == SecretVolume("imagepullsecret", spec.imagePullSecret))
              || (NamesSources(spec) && v == ConfigMapVolume("sources", name, []))
    {
      BuiltVolumesAre(name, spec, v);
    }
    hide BuiltVolumes;
  }

  lemma BuiltMountsAre(spec: ServerSpec, m: VolumeMount)
    ensures m in BuiltMounts(spec) <==>
            || m == VolumeMount("certs", true, "/pki") || m == VolumeMount("policies", true, "/config")
            || m == VolumeMount("policy-store", false, "/tmp")
            || (spec.verificationConfig != "" && m == VolumeMount("verification", true, "/verification"))
            || (spec.imagePullSecret != "" && m == VolumeMount("imagepullsecret", true, "/home/kubewarden/.docker"))
            || (NamesSources(spec) && m == VolumeMount("sources", true, "/sources"))
  {
    hide HasSources;
    SourcesAreNamed(spec);
    hide NamesSources;
  }

  lemma BuiltEnvHas(cfg: Config, spec: ServerSpec)
    ensures forall e :: e in BaseEnv() || e in spec.env ==> e in BuiltEnv(cfg, spec)
    ensures cfg.alwaysAcceptReviews ==>
              EnvVar("KUBEWARDEN_ALWAYS_ACCEPT_ADMISSION_REVIEWS_ON_NAMESPACE", cfg.deploymentsNamespace)
                in BuiltEnv(cfg, spec)
    ensures spec.verificationConfig != "" ==> VERIFICATION_ENV in BuiltEnv(cfg, spec)
    ensures spec.imagePullSecret != "" ==> PULL_SECRET_ENV in BuiltEnv(cfg, spec)
    ensures NamesSources(spec) ==> SOURCES_ENV in BuiltEnv(cfg, spec)
  {
    hide BaseEnv;
    hide HasSources;
    SourcesAreNamed(spec);
    hide NamesSources;
  }

  lemma Leads(c: Container, m: VolumeMount, variable: string, file: string)
    requires m in c.mounts && EnvVar(variable, Join(m.mountPath, file)) in c.env
    ensures LeadsTo(c, variable, m.name, file)
  {
  }

  lemma BaseFilesAreFound(cfg: Config, name: string, spec: ServerSpec)
    ensures var c := BuiltContainer(cfg, name, spec);
            && LeadsTo(c, "KUBEWARDEN_CERT_FILE", "certs", "policy-server-cert")
            && LeadsTo(c, "KUBEWARDEN_KEY_FILE", "certs", "policy-server-key")
            && LeadsTo(c, "KUBEWARDEN_POLICIES", "policies", "policies.yml")
            && LeadsTo(c, "KUBEWARDEN_SIGSTORE_CACHE_DIR", "policy-store", "sigstore-data")
  {
    var c := BuiltContainer(cfg, name, spec);
    hide LeadsTo;
    BuiltEnvHas(cfg, spec);
    hide BuiltEnv;
    var certs, policies, scratch :=
      VolumeMount("certs", true, "/pki"), VolumeMount("policies", true, "/config"),
      VolumeMount("policy-store", false, "/tmp");
    BuiltMountsAre(spec, certs);
    BuiltMountsAre(spec, policies);
    BuiltMountsAre(spec, scratch);
    hide BuiltMounts;
    var env := BaseEnv();
    assert env[0] in env && env[1] in env && env[4] in env && env[5] in env;
    Leads(c, certs, "KUBEWARDEN_CERT_FILE", "policy-server-cert");
    Leads(c, certs, "KUBEWARDEN_KEY_FILE", "policy-server-key");
    Leads(c, policies, "KUBEWARDEN_POLICIES", "policies.yml");
    Leads(c, scratch, "KUBEWARDEN_SIGSTORE_CACHE_DIR", "sigstore-data");
  }

  lemma OptionalFilesAreFound(cfg: Config, name: string, spec: ServerSpec)
    ensures var c := BuiltContainer(cfg, name, spec);
            && (spec.verificationConfig != "" ==>
                  LeadsTo(c, "KUBEWARDEN_VERIFICATION_CONFIG_PATH", "verification", "verification.yml"))
            && (spec.imagePullSecret != "" ==>
                  LeadsTo(c, "KUBEWARDEN_DOCKER_CONFIG_JSON_PATH", "imagepullsecret", ".dockerconfigjson"))
            && (NamesSources(spec) ==> LeadsTo(c, "KUBEWARDEN_SOURCES_PATH", "sources", "sources.yml"))
  {
    var c := BuiltContainer(cfg, name, spec);
    hide LeadsTo;
    BuiltEnvHas(cfg, spec);
    hide BuiltEnv;
    var verification, docker, sources :=
      VolumeMount("verification", true, "/verification"),
      VolumeMount("imagepullsecret", true, "/home/kubewarden/.docker"), VolumeMount("sources", true, "/sources");
    BuiltMountsAre(spec, verification);
    BuiltMountsAre(spec, docker);
    BuiltMountsAre(spec, sources);
    hide BuiltMounts;
    hide NamesSources;
    if spec.verificationConfig != "" {
      Leads(c, verification, "KUBEWARDEN_VERIFICATION_CONFIG_PATH", "verification.yml");
    }
    if spec.imagePullSecret != "" {
      Leads(c, docker, "KUBEWARDEN_DOCKER_CONFIG_JSON_PATH", ".dockerconfigjson");
    }
    if NamesSources(spec) {
      Leads(c, sources, "KUBEWARDEN_SOURCES_PATH", "sources.yml");
    }
  }

  lemma BuiltContainerFits(cfg: Config, name: string, spec: ServerSpec)
    ensures ContainerFits(BuiltContainer(cfg, name, spec), cfg, name, spec)
  {
    var c := BuiltContainer(cfg, name, spec);
    BaseFilesAreFound(cfg, name, spec);
    OptionalFilesAreFound(cfg, name, spec);
    BuiltEnvHas(cfg, spec);
    hide LeadsTo;
    hide NamesSources;
    forall m: VolumeMount | m in c.mounts
      ensures m.readOnly <==> m.name != "policy-store"
    {
      BuiltMountsAre(spec, m);
    }
    BuiltMountsAre(spec, VolumeMount("policy-store", false, "/tmp"));
    hide BuiltMounts;
    hide BuiltEnv;
    var env := BaseEnv();
    assert env[2] in env && env[3] in env;
    hide BaseEnv;
  }

  lemma BuiltTemplateRuns(cfg: Config, version: nat, n: string, spec: ServerSpec)
    ensures RunsServer(BuiltTemplate(cfg, version, n, spec), cfg, n, spec)
  {
    BuiltMountsResolve(NameWithPrefix(n), spec);
    BuiltVolumesFit(NameWithPrefix(n), spec);
    BuiltContainerFits(cfg, NameWithPrefix(n), spec);
    hide MountsResolve;
    hide VolumesFit;
    hide ContainerFits;
    hide BuiltVolumes;
    hide BuiltMounts;
    hide BuiltEnv;
    assert AppLabel(n) == "kubewarden-policy-server-" + n;
  }

  method AdaptDeploymentSettingsForPolicyServer(name: string, spec: ServerSpec, volumes: seq<Volume>)
    returns (r: seq<Volume>)
    requires volumes == BaseVolumes(name)
    ensures r == BuiltVolumes(name, spec)
  {
    r := volumes;
    if spec.verificationConfig != "" {
      r := r + [ConfigMapVolume(
                  VERIFICATION_VOLUME, spec.verificationConfig, [("verification-config", "verification.yml")])];
    }
    if spec.imagePullSecret != "" {
      r := r + [SecretVolume(PULL_SECRET_VOLUME, spec.imagePullSecret)];
    }
    if (spec.insecureSources.Some? && |spec.insecureSources.value| > 0) || |spec.sourceAuthorities| > 0 {
      r := r + [ConfigMapVolume("sources", name, [])];
    }
  }

  /** A new deployment for server `n` as that spec asks, at that configuration version; its selector finds its pods. */
  ghost predicate ServesSpec(d: Deployment, cfg: Config, version: nat, n: string, spec: ServerSpec) {
    && RunsServer(d.template, cfg, n, spec)
    && d.template.annotations == spec.annotations && d.template.configVersion == version
    && d.configVersion == Some(version) && d.revision == None
    && d.appLabel == d.template.appLabel && d.serverLabel == n && d.replicas == spec.replicas
  }

  lemma BuiltServesSpec(cfg: Config, version: nat, n: string, spec: ServerSpec)
    ensures ServesSpec(BuiltDeployment(cfg, version, n, spec), cfg, version, n, spec)
  {
    BuiltTemplateRuns(cfg, version, n, spec);
    hide RunsServer;
    hide BuiltContainer;
    hide BuiltVolumes;
  }

  /** The root's private key stays out of the pods, unless the spec itself names the root secret for pulling images. */
  lemma RootIsMountedExactly(t: Template, cfg: Config, n: string, spec: ServerSpec)
    requires RunsServer(t, cfg, n, spec) && n != "root-ca"
    ensures (exists v :: v in t.volumes && v.SecretVolume? && v.secretName == ROOT_SECRET) <==>
            spec.imagePullSecret == ROOT_SECRET
  {
    hide MountsResolve;
    hide ContainerFits;
    ServerNames(n, n);
    hide NameWithPrefix;
    if spec.imagePullSecret == ROOT_SECRET {
      assert SecretVolume("imagepullsecret", spec.imagePullSecret) in t.volumes;
    }
  }

  method BuildDeployment(cfg: Config, version: nat, n: string, spec: ServerSpec) returns (d: Deployment)
    ensures d == BuiltDeployment(cfg, version, n, spec)
    ensures ServesSpec(d, cfg, version, n, spec)
  {
    BuiltServesSpec(cfg, version, n, spec);
    hide ServesSpec;
    var mounts := BaseMounts();
    var env := BaseEnv() + spec.env;
    if cfg.alwaysAcceptReviews {
      env := env + [EnvVar("KUBEWARDEN_ALWAYS_ACCEPT_ADMISSION_REVIEWS_ON_NAMESPACE", cfg.deploymentsNamespace)];
    }
    assert env == FixedEnv(cfg, spec);
    if spec.verificationConfig != "" {
      mounts := mounts + [VolumeMount(VERIFICATION_VOLUME, true, "/verification")];
      env := env + [VERIFICATION_ENV];
    }
    if spec.imagePullSecret != "" {
      mounts := mounts + [VolumeMount(PULL_SECRET_VOLUME, true, "/home/kubewarden/.docker")];
      env := env + [PULL_SECRET_ENV];
    }
    if (spec.insecureSources.Some? && |spec.insecureSources.value| > 0) || |spec.sourceAuthorities| > 0 {
      mounts := mounts + [VolumeMount("sources", true, "/sources")];
      env := env + [SOURCES_ENV];
    }
    assert mounts == BuiltMounts(spec) && env == BuiltEnv(cfg, spec);
    var container := Container(NameWithPrefix(n), spec.image, mounts, env, "/readiness", 8443, true);
    var volumes := AdaptDeploymentSettingsForPolicyServer(NameWithPrefix(n), spec, BaseVolumes(NameWithPrefix(n)));
    d := Deployment(0, 0, Some(version), None, AppLabel(n), n, spec.replicas,
                    Template(AppLabel(n), n, version, spec.annotations, [container], spec.serviceAccountName, volumes));
  }

  // ---------------------------------------------------------- the cheap test

  /** Image of the first container of that name. */
  function ImageOf(containers: seq<Container>, name: string): Option<string> {
    if containers == [] then None
    else if containers[0].name == name then Some(containers[0].image)
    else ImageOf(containers[1..], name)
  }

  method GetPolicyServerImageFromDeployment(containers: seq<Container>, name: string) returns (image: Option<string>)
    ensures image == ImageOf(containers, name)
    ensures image.None? <==> forall i :: 0 <= i < |containers| ==> containers[i].name != name
  {
    for i := 0 to |containers|
      invariant ImageOf(containers, name) == ImageOf(containers[i..], name)
      invariant forall x :: 0 <= x < i ==> containers[x].name != name
    {
      if containers[i].name == name {
        return Some(containers[i].image);
      }
      assert containers[i..][1..] == containers[i + 1..];
    }
    return None;
  }

  function WithoutRestart(annotations: map<string, string>): map<string, string> {
    Remove(annotations, RESTART_ANNOTATION)
  }

  lemma KeptIsWithoutRestart(annotations: map<string, string>, kept: map<string, string>)
    requires kept.Keys == annotations.Keys - {RESTART_ANNOTATION}
    requires forall k :: k in kept ==> kept[k] == annotations[k]
    ensures kept == WithoutRestart(annotations)
  {
  }

  /** A built template never has nil annotations, so nil and empty need not be told apart. */
  method HaveEqualAnnotationsWithoutRestart(original: Template, desired: Template) returns (equal: bool)
    ensures equal == (WithoutRestart(original.annotations) == desired.annotations)
  {
    var kept: map<string, string> := map[];
    var rest := original.annotations.Keys;
    while rest != {}
      invariant rest <= original.annotations.Keys
      invariant kept.Keys == original.annotations.Keys - rest - {RESTART_ANNOTATION}
      invariant forall k :: k in kept ==> kept[k] == original.annotations[k]
      decreases |rest|
    {
      var k :| k in rest;
      if k != RESTART_ANNOTATION {
        kept := kept[k := original.annotations[k]];
      }
      rest := rest - {k};
    }
    KeptIsWithoutRestart(original.annotations, kept);
    return kept == desired.annotations;
  }

  /** An error when either deployment has no policy server container. */
  function ShouldUpdate(name: string, original: Deployment, desired: Deployment): Result<bool> {
    var before, after := ImageOf(original.template.containers, name), ImageOf(desired.template.containers, name);
    if before.None? || after.None? then Err(Other)
    else
      Ok(|| original.replicas != desired.replicas
         || before != after
         || original.template.serviceAccountName != desired.template.serviceAccountName
         || original.configVersion != desired.configVersion
         || original.template.containers[0].env != desired.template.containers[0].env
         || WithoutRestart(original.template.annotations) != desired.template.annotations)
  }

  // --------------------------------- the cheap test agrees with a full comparison

  /** A built deployment, possibly restarted by hand since: `stamp` is then the restart annotation. */
  function Stored(d: Deployment, stamp: Option<string>): Deployment {
    if stamp.None? then d
    else d.(template := d.template.(annotations := d.template.annotations[RESTART_ANNOTATION := stamp.value]))
  }

  /** Forgets the name of the pull secret and of the verification ConfigMap. */
  function Anonymous(v: Volume): Volume {
    match v
    case ConfigMapVolume(name, _, items) => if name == VERIFICATION_VOLUME then ConfigMapVolume(name, "", items) else v
    case SecretVolume(name, _) => if name == PULL_SECRET_VOLUME then SecretVolume(name, "") else v
    case EmptyDirVolume(_) => v
  }

  ghost predicate SameVolumes(xs: seq<Volume>, ys: seq<Volume>) {
    |xs| == |ys| && forall i :: 0 <= i < |xs| ==> Anonymous(xs[i]) == Anonymous(ys[i])
  }

  /** Every field agrees, but for the two volume source names and the restart annotation. */
  ghost predicate SameTemplates(a: Template, b: Template) {
    && a == b.(annotations := a.annotations, volumes := a.volumes)
    && WithoutRestart(a.annotations) == WithoutRestart(b.annotations)
    && SameVolumes(a.volumes, b.volumes)
  }

  /** No variable of the user's looks like one of the optional ones the controller appends. */
  ghost predicate AvoidsReserved(spec: ServerSpec) {
    VERIFICATION_ENV !in spec.env && PULL_SECRET_ENV !in spec.env && SOURCES_ENV !in spec.env
  }

  lemma PeelBlock<T>(xs: seq<T>, a: bool, ys: seq<T>, b: bool, x: T)
    requires x !in xs && x !in ys
    requires xs + Block(a, x) == ys + Block(b, x)
    ensures a == b && xs == ys
  {
    var whole := xs + Block(a, x);
    assert a <==> x in whole;
    assert b <==> x in ys + Block(b, x);
    assert xs == whole[..|whole| - |Block(a, x)|];
    assert ys == (ys + Block(b, x))[..|whole| - |Block(b, x)|];
  }

  lemma ReservedNotFixed(cfg: Config, spec: ServerSpec)
    requires AvoidsReserved(spec)
    ensures VERIFICATION_ENV !in FixedEnv(cfg, spec)
    ensures PULL_SECRET_ENV !in FixedEnv(cfg, spec)
    ensures SOURCES_ENV !in FixedEnv(cfg, spec)
    ensures PULL_SECRET_ENV != VERIFICATION_ENV && SOURCES_ENV != VERIFICATION_ENV && SOURCES_ENV != PULL_SECRET_ENV
  {
  }

  /** The environment alone tells which optional parts a deployment was built with. */
  lemma EnvDeterminesBlocks(cfg: Config, a: ServerSpec, b: ServerSpec)
    requires AvoidsReserved(a) && AvoidsReserved(b)
    requires BuiltEnv(cfg, a) == BuiltEnv(cfg, b)
    ensures HasVerification(a) == HasVerification(b) && HasPullSecret(a) == HasPullSecret(b)
    ensures HasSources(a) == HasSources(b)
  {
    ReservedNotFixed(cfg, a);
    ReservedNotFixed(cfg, b);
    var fa, fb := FixedEnv(cfg, a), FixedEnv(cfg, b);
    var va, vb := fa + Block(HasVerification(a), VERIFICATION_ENV), fb + Block(HasVerification(b), VERIFICATION_ENV);
    var pa, pb := va + Block(HasPullSecret(a), PULL_SECRET_ENV), vb + Block(HasPullSecret(b), PULL_SECRET_ENV);
    PeelBlock(pa, HasSources(a), pb, HasSources(b), SOURCES_ENV);
    PeelBlock(va, HasPullSecret(a), vb, HasPullSecret(b), PULL_SECRET_ENV);
    PeelBlock(fa, HasVerification(a), fb, HasVerification(b), VERIFICATION_ENV);
  }

  lemma SameBlocksSameVolumes(name: string, a: ServerSpec, b: ServerSpec)
    requires HasVerification(a) == HasVerification(b) && HasPullSecret(a) == HasPullSecret(b)
    requires HasSources(a) == HasSources(b)
    ensures SameVolumes(BuiltVolumes(name, a), BuiltVolumes(name, b))
    ensures BuiltMounts(a) == BuiltMounts(b)
  {
  }

  /** The optional variables, in the order in which they are appended. */
  function OptionalEnv(spec: ServerSpec): seq<EnvVar> {
    Block(HasVerification(spec), VERIFICATION_ENV) + Block(HasPullSecret(spec), PULL_SECRET_ENV)
    + Block(HasSources(spec), SOURCES_ENV)
  }

  lemma EnvSplits(cfg: Config, spec: ServerSpec)
    ensures BuiltEnv(cfg, spec) == FixedEnv(cfg, spec) + OptionalEnv(spec)
    ensures |FixedEnv(cfg, spec)| == |BaseEnv()| + |spec.env| + (if cfg.alwaysAcceptReviews then 1 else 0)
    ensures |OptionalEnv(spec)| + 3 == |BuiltVolumes("", spec)|
  {
  }

  lemma OptionalEnvTellsBlocks(spec: ServerSpec)
    ensures VERIFICATION_ENV in OptionalEnv(spec) <==> HasVerification(spec)
    ensures PULL_SECRET_ENV in OptionalEnv(spec) <==> HasPullSecret(spec)
    ensures SOURCES_ENV in OptionalEnv(spec) <==> HasSources(spec)
  {
    hide HasVerification;
    hide HasPullSecret;
    hide HasSources;
    assert VERIFICATION_ENV != PULL_SECRET_ENV && PULL_SECRET_ENV != SOURCES_ENV && VERIFICATION_ENV != SOURCES_ENV;
  }

  /** Where environments agree, the volumes and mounts agree exactly when the users set equally many variables. */
  lemma EqualEnvsSameVolumesExactly(cfg: Config, name: string, a: ServerSpec, b: ServerSpec)
    requires BuiltEnv(cfg, a) == BuiltEnv(cfg, b)
    ensures SameVolumes(BuiltVolumes(name, a), BuiltVolumes(name, b)) && BuiltMounts(a) == BuiltMounts(b) <==>
            |a.env| == |b.env|
    ensures SameVolumes(BuiltVolumes(name, a), BuiltVolumes(name, b)) ==> |a.env| == |b.env|
  {
    EnvSplits(cfg, a);
    EnvSplits(cfg, b);
    if |a.env| == |b.env| {
      var n := |FixedEnv(cfg, a)|;
      assert OptionalEnv(a) == BuiltEnv(cfg, a)[n..] == BuiltEnv(cfg, b)[n..] == OptionalEnv(b);
      OptionalEnvTellsBlocks(a);
      OptionalEnvTellsBlocks(b);
      SameBlocksSameVolumes(name, a, b);
    } else {
      assert |OptionalEnv(a)| != |OptionalEnv(b)|;
      assert |BuiltVolumes(name, a)| == |BuiltVolumes("", a)| && |BuiltVolumes(name, b)| == |BuiltVolumes("", b)|;
    }
  }

  /** Replicas, configuration version and templates agree, and the new template asks for no restart. */
  ghost predicate FullyAgree(original: Deployment, desired: Deployment) {
    && original.replicas == desired.replicas && original.configVersion == desired.configVersion
    && SameTemplates(original.template, desired.template)
    && RESTART_ANNOTATION !in desired.template.annotations
  }

  /**
   * For any two specs of a server: the cheap test never asks for an update that a full comparison would not, and it misses
   * one exactly when all it looks at agrees while the two specs set differently many variables of their own.
   */
  lemma CheapTestMissesExactly(
    cfg: Config, n: string, a: ServerSpec, va: nat, stamp: Option<string>, b: ServerSpec, vb: nat)
    ensures var original := Stored(BuiltDeployment(cfg, va, n, a), stamp);
            var desired := BuiltDeployment(cfg, vb, n, b);
            var update := ShouldUpdate(NameWithPrefix(n), original, desired);
            && update.Ok?
            && (update == Ok(true) ==> !FullyAgree(original, desired))
            && (update == Ok(false) ==> (FullyAgree(original, desired) <==> |a.env| == |b.env|))
  {
    var original := Stored(BuiltDeployment(cfg, va, n, a), stamp);
    var desired := BuiltDeployment(cfg, vb, n, b);
    var name := NameWithPrefix(n);
    assert ImageOf(original.template.containers, name) == Some(a.image);
    assert ImageOf(desired.template.containers, name) == Some(b.image);
    assert original.template.containers[0].env == BuiltEnv(cfg, a);
    if BuiltEnv(cfg, a) == BuiltEnv(cfg, b) {
      EqualEnvsSameVolumesExactly(cfg, name, a, b);
    } else {
      assert original.template.containers != desired.template.containers;
    }
    assert RESTART_ANNOTATION !in WithoutRestart(original.template.annotations);
    if RESTART_ANNOTATION !in b.annotations {
      assert WithoutRestart(b.annotations) == b.annotations;
    }
  }

  lemma BlocksTellNames(name: string, a: ServerSpec, b: ServerSpec)
    requires BuiltVolumes(name, a) == BuiltVolumes(name, b)
    ensures a.verificationConfig == b.verificationConfig && a.imagePullSecret == b.imagePullSecret
  {
    BuiltVolumesFit(name, a);
    BuiltVolumesFit(name, b);
    var vs := BuiltVolumes(name, a);
    var va := ConfigMapVolume("verification", a.verificationConfig, [("verification-config", "verification.yml")]);
    var pa := SecretVolume("imagepullsecret", a.imagePullSecret);
    BuiltVolumesAre(name, b, va);
    BuiltVolumesAre(name, b, pa);
    hide BuiltVolumes;
  }

  /**
   * The two source names are what the test never looks at: where it asks for no update, the stored volumes are those that
   * the new spec asks for exactly when both specs set equally many variables and name the same verification ConfigMap and
   * the same pull secret.  A rename alone leaves the pods with the old one.
   */
  lemma RenamedSourcesAreMissed(
    cfg: Config, n: string, a: ServerSpec, va: nat, stamp: Option<string>, b: ServerSpec, vb: nat)
    requires ShouldUpdate(NameWithPrefix(n), Stored(BuiltDeployment(cfg, va, n, a), stamp),
                          BuiltDeployment(cfg, vb, n, b)) == Ok(false)
    ensures Stored(BuiltDeployment(cfg, va, n, a), stamp).template.volumes ==
            BuiltDeployment(cfg, vb, n, b).template.volumes <==>
            && |a.env| == |b.env|
            && a.verificationConfig == b.verificationConfig && a.imagePullSecret == b.imagePullSecret
  {
    if BuiltEnv(cfg, a) != BuiltEnv(cfg, b) {
      EnvIsCompared(cfg, n, a, va, stamp, b, vb);
    }
    hide ShouldUpdate;
    SameVolumesExactly(cfg, NameWithPrefix(n), a, b);
    hide BuiltVolumes;
    hide BuiltContainer;
  }

  lemma SameVolumesExactly(cfg: Config, name: string, a: ServerSpec, b: ServerSpec)
    requires BuiltEnv(cfg, a) == BuiltEnv(cfg, b)
    ensures BuiltVolumes(name, a) == BuiltVolumes(name, b) <==>
            && |a.env| == |b.env|
            && a.verificationConfig == b.verificationConfig && a.imagePullSecret == b.imagePullSecret
  {
    EqualEnvsSameVolumesExactly(cfg, name, a, b);
    if BuiltVolumes(name, a) == BuiltVolumes(name, b) {
      BlocksTellNames(name, a, b);
    }
    if |a.env| == |b.env| {
      EnvSplits(cfg, a);
      EnvSplits(cfg, b);
      var k := |FixedEnv(cfg, a)|;
      assert OptionalEnv(a) == BuiltEnv(cfg, a)[k..] == BuiltEnv(cfg, b)[k..] == OptionalEnv(b);
      OptionalEnvTellsBlocks(a);
      OptionalEnvTellsBlocks(b);
    }
  }

  /** Away from the reserved variables the cheap test misses nothing. */
  lemma CheapTestIsExact(
    cfg: Config, n: string, a: ServerSpec, va: nat, stamp: Option<string>, b: ServerSpec, vb: nat)
    requires AvoidsReserved(a) && AvoidsReserved(b)
    ensures var original := Stored(BuiltDeployment(cfg, va, n, a), stamp);
            var desired := BuiltDeployment(cfg, vb, n, b);
            ShouldUpdate(NameWithPrefix(n), original, desired) == Ok(!FullyAgree(original, desired))
  {
    CheapTestMissesExactly(cfg, n, a, va, stamp, b, vb);
    if BuiltEnv(cfg, a) == BuiltEnv(cfg, b) {
      EnvDeterminesBlocks(cfg, a, b);
      SameBlocksSameVolumes("", a, b);
      EqualEnvsSameVolumesExactly(cfg, "", a, b);
    } else {
      EnvIsCompared(cfg, n, a, va, stamp, b, vb);
    }
  }

  lemma EnvIsCompared(cfg: Config, n: string, a: ServerSpec, va: nat, stamp: Option<string>, b: ServerSpec, vb: nat)
    requires BuiltEnv(cfg, a) != BuiltEnv(cfg, b)
    ensures ShouldUpdate(NameWithPrefix(n), Stored(BuiltDeployment(cfg, va, n, a), stamp),
                         BuiltDeployment(cfg, vb, n, b)) == Ok(true)
  {
    var original, desired := Stored(BuiltDeployment(cfg, va, n, a), stamp), BuiltDeployment(cfg, vb, n, b);
    assert original.template.containers[0].env == BuiltEnv(cfg, a);
    assert desired.template.containers[0].env == BuiltEnv(cfg, b);
    assert ImageOf(original.template.containers, NameWithPrefix(n)) == Some(a.image);
    assert ImageOf(desired.template.containers, NameWithPrefix(n)) == Some(b.image);
  }

  /** A restart by hand is not undone, unless the server's spec carries the restart annotation itself. */
  lemma RestartsSurviveExactly(cfg: Config, n: string, spec: ServerSpec, version: nat, stamp: Option<string>)
    ensures var d := BuiltDeployment(cfg, version, n, spec);
            ShouldUpdate(NameWithPrefix(n), Stored(d, stamp), d) == Ok(RESTART_ANNOTATION in spec.annotations)
  {
    var d := BuiltDeployment(cfg, version, n, spec);
    var annotations := Stored(d, stamp).template.annotations;
    assert ImageOf(d.template.containers, NameWithPrefix(n)) == Some(spec.image);
    assert RESTART_ANNOTATION !in WithoutRestart(annotations);
    if RESTART_ANNOTATION !in spec.annotations {
      assert WithoutRestart(annotations) == spec.annotations;
    }
  }

  /** With a reserved variable set by hand the cheap test misses a real change: a volume appears unnoticed. */
  lemma ReservedEnvFoolsTheTest(cfg: Config, n: string, v: nat, a: ServerSpec)
    requires a.env == [VERIFICATION_ENV] && !cfg.alwaysAcceptReviews
    requires !HasVerification(a) && !HasPullSecret(a) && !HasSources(a) && RESTART_ANNOTATION !in a.annotations
    ensures var b := a.(env := [], verificationConfig := "signatures");
            var original, desired := BuiltDeployment(cfg, v, n, a), BuiltDeployment(cfg, v, n, b);
            && ShouldUpdate(NameWithPrefix(n), original, desired) == Ok(false)
            && !SameTemplates(original.template, desired.template)
  {
    var b := a.(env := [], verificationConfig := "signatures");
    assert BuiltEnv(cfg, a) == BaseEnv() + [VERIFICATION_ENV] == BuiltEnv(cfg, b);
    assert WithoutRestart(a.annotations) == a.annotations;
    CheapTestMissesExactly(cfg, n, a, v, None, b, v);
  }

  // --------------------------------------------------------- reconciliation

  function UpdateDeployment(s: Store, n: string, desired: Deployment, faults: set<Call>): Write {
    if GetDeployment in faults then Failed(s, Other)
    else if n !in s.deployments then Failed(s, NotFound)
    else
      var original := s.deployments[n];
      var update := ShouldUpdate(NameWithPrefix(n), original, desired);
      if update.Err? then Failed(s, Other)
      else if !update.value then Done(s)
      else Api.PatchDeployment(s, n, Patched(original, desired), PatchDeployment in faults)
  }

  function Patched(original: Deployment, desired: Deployment): Deployment {
    original.(replicas := desired.replicas, template := desired.template, configVersion := desired.configVersion)
  }

  function SyncDeployment(s: Store, n: string, desired: Deployment, faults: set<Call>): Write {
    if CreateDeployment in faults then Failed(s, Other)
    else if n !in s.deployments then Api.CreateDeployment(s, n, desired, false)
    else UpdateDeployment(s, n, desired, faults)
  }

  function DeploymentStage(s: Store, cfg: Config, n: string, spec: ServerSpec, faults: set<Call>): Write {
    if ReadConfigMapVersion in faults then Failed(s, Other)
    else if n !in s.configMaps then Failed(s, NotFound)
    else if spec.imagePullSecret != "" && CheckPullSecret in faults then Failed(s, Other)
    else SyncDeployment(s, n, BuiltDeployment(cfg, s.configMaps[n].rv, n, spec), faults)
  }

  /** The deployment now asks for what `desired` asks for, and is the same object as before if there was one. */
  predicate TakesOver(before: Option<Deployment>, after: Deployment, desired: Deployment) {
    && after.template == desired.template && after.configVersion == desired.configVersion
    && after.replicas == desired.replicas
    && (before.Some? ==> after.uid == before.value.uid && after.revision == before.value.revision &&
                         after.serverLabel == before.value.serverLabel)
    && (before.None? ==> after.uid == after.rv && after.revision == desired.revision &&
                         after.serverLabel == desired.serverLabel)
  }

  /** From `s` to `s'` at most the deployment of `n` was written, once. */
  predicate WritesDeployment(s: Store, s': Store, n: string, desired: Deployment) {
    && s' == s.(rv := s'.rv, deployments := s'.deployments)
    && if s'.rv == s.rv then s'.deployments == s.deployments
       else
         && s'.rv == s.rv + 1
         && n in s'.deployments && s'.deployments[n].rv == s'.rv
         && s'.deployments == s.deployments[n := s'.deployments[n]]
         && TakesOver(Lookup(s.deployments, n), s'.deployments[n], desired)
  }

  lemma PatchDeploymentWrites(s: Store, n: string, desired: Deployment, fail: bool)
    requires n in s.deployments
    ensures WritesDeployment(s, Api.PatchDeployment(s, n, Patched(s.deployments[n], desired), fail).store, n, desired)
  {
    var d := Patched(s.deployments[n], desired);
    if fail {
    } else if d.(rv := s.deployments[n].rv) == s.deployments[n] {
    } else {
      var s' := Api.PatchDeployment(s, n, d, fail).store;
      assert s'.deployments == s.deployments[n := s'.deployments[n]];
    }
  }

  lemma SyncDeploymentWrites(s: Store, n: string, desired: Deployment, faults: set<Call>)
    ensures WritesDeployment(s, SyncDeployment(s, n, desired, faults).store, n, desired)
  {
    if CreateDeployment in faults {
    } else if n !in s.deployments {
      var s' := Api.CreateDeployment(s, n, desired, false).store;
      assert s'.deployments == s.deployments[n := s'.deployments[n]];
    } else if GetDeployment in faults {
    } else {
      var update := ShouldUpdate(NameWithPrefix(n), s.deployments[n], desired);
      if update.Err? {
      } else if !update.value {
      } else {
        PatchDeploymentWrites(s, n, desired, PatchDeployment in faults);
      }
    }
  }

  /** Either nothing is left to update, or the deployment already asks for everything `desired` does. */
  predicate InStep(name: string, d: Deployment, desired: Deployment) {
    ShouldUpdate(name, d, desired) == Ok(false) || Patched(d, desired) == d
  }

  /** Success leaves the deployment in step and at the desired configuration version; failure writes nothing. */
  lemma SyncDeploymentResult(s: Store, n: string, desired: Deployment, faults: set<Call>)
    ensures var w := SyncDeployment(s, n, desired, faults);
            if w.error.Some? then w.store == s
            else
              && n in w.store.deployments
              && InStep(NameWithPrefix(n), w.store.deployments[n], desired)
              && w.store.deployments[n].configVersion == desired.configVersion
              && w.store.deployments[n].replicas == desired.replicas
  {
    if CreateDeployment in faults {
    } else if n !in s.deployments {
      var d := Api.CreateDeployment(s, n, desired, false).store.deployments[n];
      assert Patched(d, desired) == d;
    } else if GetDeployment in faults {
    } else {
      var update := ShouldUpdate(NameWithPrefix(n), s.deployments[n], desired);
      if update.Err? {
      } else if !update.value {
      } else {
        var d := Patched(s.deployments[n], desired);
        if PatchDeployment in faults {
        } else if d.(rv := s.deployments[n].rv) == s.deployments[n] {
          assert Patched(s.deployments[n], desired) == s.deployments[n];
        } else {
          var d' := Api.PatchDeployment(s, n, d, false).store.deployments[n];
          assert Patched(d', desired) == d';
        }
      }
    }
  }

  /** Once in step, another run changes nothing, whether or not the cheap test asks for a patch. */
  lemma InStepIsStable(s: Store, n: string, desired: Deployment, faults: set<Call>)
    requires n in s.deployments && InStep(NameWithPrefix(n), s.deployments[n], desired)
    ensures SyncDeployment(s, n, desired, faults).store == s
  {
    if CreateDeployment in faults || GetDeployment in faults {
    } else {
      var update := ShouldUpdate(NameWithPrefix(n), s.deployments[n], desired);
      if update.Err? {
      } else if !update.value {
      } else if PatchDeployment in faults {
      } else {
        assert Patched(s.deployments[n], desired) == s.deployments[n];
      }
    }
  }
}
