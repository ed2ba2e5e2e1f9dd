/** The Kubernetes objects the controller reads and writes, as values, and the cluster state that holds them. */
module Model {
  import opened Common
  import opened Naming

  /** The controller's own finalizer, named "kubewarden", and those of others. */
  datatype Finalizer = Kubewarden | Foreign(name: string)

  /** Keys of the ConfigMap's data: "policies.yml", "sources.yml" and any other. */
  datatype ConfigKey = PoliciesYml | SourcesYml | OtherKey(name: string)

  /** Settings of one controller process. */
  datatype Config = Config(deploymentsNamespace: string, alwaysAcceptReviews: bool, defaultPolicyServer: string)

  // ---------------------------------------------------------------- policies

  datatype Requirement = Requirement(key: string, operator: string, values: seq<string>)

  datatype Selector = Selector(matchLabels: map<string, string>, matchExpressions: seq<Requirement>)

  datatype Rule = Rule(
    operations: seq<string>, apiGroups: seq<string>, apiVersions: seq<string>, resources: seq<string>,
    scope: Option<string>)

  /** None stands for nil.  `namespaceSelector` exists for cluster-wide policies only. */
  datatype PolicySpec = PolicySpec(
    policyServer: string, wasmModule: string, mode: string, settings: Option<string>, rules: seq<Rule>,
    failurePolicy: Option<string>, mutating: bool, matchPolicy: Option<string>, objectSelector: Option<Selector>,
    namespaceSelector: Option<Selector>, sideEffects: Option<string>, timeoutSeconds: Option<int>)

  datatype PolicyState = Unset | Unscheduled | Scheduled | Pending | Active

  /** Status conditions of a policy; None while the condition was never set. */
  datatype PolicyConditions = PolicyConditions(active: Option<bool>, reachable: Option<bool>, configured: Option<bool>)

  datatype PolicyStatus = PolicyStatus(state: PolicyState, mode: string, conditions: PolicyConditions)

  const NEW_STATUS := PolicyStatus(Unset, "", PolicyConditions(None, None, None))

  datatype Policy = Policy(deleting: bool, finalizers: set<Finalizer>, spec: PolicySpec, status: PolicyStatus)

  /** A policy as the server reconciler lists it. */
  datatype BoundPolicy = BoundPolicy(key: PolicyKey, spec: PolicySpec)

  // ---------------------------------------------------------- policy servers

  datatype EnvVar = EnvVar(name: string, value: string)

  datatype ServerSpec = ServerSpec(
    image: string, replicas: int, annotations: map<string, string>, env: seq<EnvVar>, serviceAccountName: string,
    imagePullSecret: string, insecureSources: Option<seq<string>>, sourceAuthorities: map<string, seq<string>>,
    verificationConfig: string)

  /** Status conditions of a policy server, one for each stage of its reconciliation, in the order of the stages. */
  type ServerCondition = i: nat | i < STAGES

  const STAGES: nat := 5
  const CA_ROOT_SECRET_RECONCILED: ServerCondition := 0
  const CA_SECRET_RECONCILED: ServerCondition := 1
  const CONFIG_MAP_RECONCILED: ServerCondition := 2
  const DEPLOYMENT_RECONCILED: ServerCondition := 3
  const SERVICE_RECONCILED: ServerCondition := 4

  datatype PolicyServer = PolicyServer(
    deleting: bool, finalizers: set<Finalizer>, spec: ServerSpec, conditions: map<ServerCondition, bool>)

  // --------------------------------------------------------- owned resources

  datatype PolicyEntry = PolicyEntry(
    key: PolicyKey, url: string, policyMode: string, allowedToMutate: bool, settings: Option<string>)

  datatype Authority = Authority(kind: string, data: string)

  /** None is nil (and, in JSON, an absent key); Some([]) and Some(map[]) are empty but not nil. */
  datatype Sources = Sources(insecure: Option<seq<string>>, authorities: Option<map<string, seq<Authority>>>)

  /** A ConfigMap value: JSON text by what it decodes to, or text that does not decode. */
  datatype Text = PoliciesJson(policies: map<string, PolicyEntry>) | SourcesJson(sources: Sources) | Garbage(raw: string)

  datatype ConfigMap = ConfigMap(rv: nat, serverLabel: Option<string>, data: map<ConfigKey, Text>)

  datatype VolumeMount = VolumeMount(name: string, readOnly: bool, mountPath: string)

  datatype Volume =
    | EmptyDirVolume(name: string)
    | SecretVolume(name: string, secretName: string)
    | ConfigMapVolume(name: string, configMapName: string, items: seq<(string, string)>)

  datatype Container = Container(
    name: string, image: string, mounts: seq<VolumeMount>, env: seq<EnvVar>,
    readinessPath: string, readinessPort: int, readOnlyRootFilesystem: bool)

  /** `configVersion` is the label holding the ConfigMap's resource version. */
  datatype Template = Template(
    appLabel: string, serverLabel: string, configVersion: nat, annotations: map<string, string>,
    containers: seq<Container>, serviceAccountName: string, volumes: seq<Volume>)

  /** `configVersion` and `revision` are annotations; `uid` tells incarnations of the same name apart. */
  datatype Deployment = Deployment(
    uid: nat, rv: nat, configVersion: Option<nat>, revision: Option<nat>, appLabel: string, serverLabel: string,
    replicas: int, template: Template)

  /** Kept under its pod-template hash. */
  datatype ReplicaSet = ReplicaSet(
    server: string, owner: nat, configVersion: Option<nat>, revision: Option<nat>, template: Template)

  datatype PodCondition = PodCondition(kind: string, status: string)

  /** The configuration a policy server process read when it started. */
  datatype Loaded = Loaded(version: nat, policies: map<string, PolicyEntry>)

  /** `server`, `hash` and `configVersion` are labels. */
  datatype Pod = Pod(
    server: string, hash: nat, configVersion: nat, conditions: seq<PodCondition>, loaded: Option<Loaded>)

  // --------------------------------------------------- secrets and webhooks

  /** Contents of secrets: certificates by the authority that issued and signed them. */
  datatype Blob =
    | CaCert(ca: nat) | CaPem(ca: nat) | CaKey(ca: nat)
    | ServingCert(issuer: nat, signedBy: nat, commonName: string) | ServingKey(commonName: string)
    | Opaque(raw: string)

  /** Keys of the secrets: certificate, PEM and private key of the root; certificate and key of a server. */
  datatype SecretKey = RootCert | RootPem | RootPrivateKey | TlsCert | TlsKey | OtherSecretKey(name: string)

  datatype Secret = Secret(data: map<SecretKey, Blob>)

  datatype Webhook = Webhook(
    name: string, serviceNamespace: string, serviceName: string, path: string, port: int, caBundle: Option<Blob>,
    rules: seq<Rule>, failurePolicy: Option<string>, matchPolicy: Option<string>,
    namespaceSelector: Option<Selector>, objectSelector: Option<Selector>, sideEffects: Option<string>,
    timeoutSeconds: Option<int>, admissionReviewVersions: seq<string>)

  datatype WebhookConfiguration = WebhookConfiguration(rv: nat, webhooks: seq<Webhook>)

  datatype WebhookKind = Mutating | Validating

  function KindOf(mutating: bool): WebhookKind {
    if mutating then Mutating else Validating
  }

  // ------------------------------------------------------------ the cluster

  /**
   * Everything the API server stores.  Objects named after a policy server are kept under the server's name;
   * secrets and webhooks under their own.  `rv` is the last resource version, uid or hash handed out.
   */
  datatype Store = Store(
    rv: nat,
    policies: map<PolicyKey, Policy>,
    servers: map<string, PolicyServer>,
    configMaps: map<string, ConfigMap>,
    deployments: map<string, Deployment>,
    replicaSets: map<nat, ReplicaSet>,
    pods: map<nat, Pod>,
    secrets: map<string, Secret>,
    services: set<string>,
    mutating: map<string, WebhookConfiguration>,
    validating: map<string, WebhookConfiguration>)
  {
    function Webhooks(kind: WebhookKind): map<string, WebhookConfiguration> {
      if kind.Mutating? then mutating else validating
    }

    function WithWebhooks(kind: WebhookKind, hooks: map<string, WebhookConfiguration>): Store {
      if kind.Mutating? then this.(mutating := hooks) else this.(validating := hooks)
    }
  }

  const EMPTY_STORE := Store(0, map[], map[], map[], map[], map[], map[], map[], {}, map[], map[])

  /** API calls that may fail for reasons of their own, by where the controller makes them. */
  datatype Call =
    | GetPolicyServer | GetRootSecret | GenerateCA | CreateRootSecret
    | GetServingSecret | GenerateCert | CreateServingSecret
    | GetConfigMap | CreateConfigMap | PatchConfigMap
    | ReadConfigMapVersion | CheckPullSecret | CreateDeployment | GetDeployment | PatchDeployment
    | CreateService | DeleteDeployment | DeleteSecret | DeleteService | DeleteConfigMap
    | UpdatePolicyServer | PolicyServerConflict
    | ListReplicaSets | ListPods | CreateWebhook | GetWebhook | PatchWebhook | DeleteWebhook
    | UpdatePolicy | UpdateStatus | DeleteBoundPolicy(key: PolicyKey)
}
