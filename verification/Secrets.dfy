/** The root certificate authority and the serving certificates of policy servers: created once, never changed. */
module Secrets {
  import opened Common
  import opened Naming
  import opened Model
  import opened Api

  /** Creating a secret that exists counts as success and changes nothing. */
  function ReconcileCASecret(s: Store, name: string, secret: Secret, fail: bool): Write {
    var w := Api.CreateSecret(s, name, secret, fail);
    if w.error == Some(AlreadyExists) then Done(s) else w
  }

  // ---------------------------------------------------------------- the root

  function BuildRootSecret(ca: nat): Secret {
    Secret(map[RootCert := CaCert(ca), RootPem := CaPem(ca), RootPrivateKey := CaKey(ca)])
  }

  /** The stored root, or a new authority `freshCa` when there is none. */
  function FetchRoot(s: Store, freshCa: nat, faults: set<Call>): Result<Secret> {
    if GetRootSecret in faults then Err(Other)
    else if ROOT_SECRET in s.secrets then Ok(s.secrets[ROOT_SECRET])
    else if GenerateCA in faults then Err(Other)
    else Ok(BuildRootSecret(freshCa))
  }

  /** A stage that hands a secret on to the next one. */
  datatype SecretOutcome = SecretOutcome(write: Write, secret: Option<Secret>)

  function RootStage(s: Store, freshCa: nat, faults: set<Call>): SecretOutcome {
    var root := FetchRoot(s, freshCa, faults);
    if root.Err? then SecretOutcome(Failed(s, root.error), None)
    else SecretOutcome(ReconcileCASecret(s, ROOT_SECRET, root.value, CreateRootSecret in faults), Some(root.value))
  }

  // ----------------------------------------------------- serving certificates

  datatype KeyPair = KeyPair(cert: nat, key: nat)

  /** An error unless certificate and private key are there and readable. */
  function ExtractCa(root: Secret): Result<KeyPair> {
    if RootCert in root.data && root.data[RootCert].CaCert? &&
       RootPrivateKey in root.data && root.data[RootPrivateKey].CaKey?
    then Ok(KeyPair(root.data[RootCert].ca, root.data[RootPrivateKey].ca))
    else Err(Other)
  }

  function CommonName(cfg: Config, name: string): string {
    name + "." + cfg.deploymentsNamespace + ".svc"
  }

  function BuildServingSecret(cfg: Config, name: string, root: Secret, fail: bool): Result<Secret> {
    var ca := ExtractCa(root);
    if ca.Err? || fail then Err(Other)
    else
      var cn := CommonName(cfg, name);
      Ok(Secret(map[TlsCert := ServingCert(ca.value.cert, ca.value.key, cn), TlsKey := ServingKey(cn)]))
  }

  function FetchServing(s: Store, cfg: Config, name: string, root: Secret, faults: set<Call>): Result<Secret> {
    if GetServingSecret in faults then Err(Other)
    else if name in s.secrets then Ok(s.secrets[name])
    else BuildServingSecret(cfg, name, root, GenerateCert in faults)
  }

  function ServingStage(s: Store, cfg: Config, name: string, root: Secret, faults: set<Call>): Write {
    var serving := FetchServing(s, cfg, name, root, faults);
    if serving.Err? then Failed(s, serving.error)
    else ReconcileCASecret(s, name, serving.value, CreateServingSecret in faults)
  }

  // ---------------------------------------------------------------- the trust

  /** A serving secret made from the authority `ca`. */
  predicate SignedBy(secret: Secret, ca: nat) {
    TlsCert in secret.data && secret.data[TlsCert].ServingCert? &&
    secret.data[TlsCert].issuer == ca && secret.data[TlsCert].signedBy == ca
  }

  /** Certificate and key both belong to that name. */
  predicate IssuedFor(secret: Secret, commonName: string) {
    && TlsCert in secret.data && secret.data[TlsCert].ServingCert? && secret.data[TlsCert].commonName == commonName
    && TlsKey in secret.data && secret.data[TlsKey] == ServingKey(commonName)
  }

  /** From `s` to `s'` at most the one secret was added; whatever was stored before is still there. */
  predicate AddsSecret(s: Store, s': Store, name: string) {
    && s' == s.(secrets := s'.secrets)
    && (s'.secrets == s.secrets ||
        (name !in s.secrets && name in s'.secrets && s'.secrets == s.secrets[name := s'.secrets[name]]))
  }

  lemma CreateSecretAdds(s: Store, name: string, secret: Secret, fail: bool)
    ensures var w := ReconcileCASecret(s, name, secret, fail);
            && AddsSecret(s, w.store, name)
            && (w.error.None? ==> name in w.store.secrets)
            && (name !in s.secrets && name in w.store.secrets ==> w.store.secrets[name] == secret)
  {
    if fail {
    } else if name in s.secrets {
    } else {
      var s' := ReconcileCASecret(s, name, secret, fail).store;
      assert s'.secrets == s.secrets[name := s'.secrets[name]];
    }
  }

  /** After success the secret handed on is the stored root; an existing root is never replaced. */
  lemma RootStageResult(s: Store, freshCa: nat, faults: set<Call>)
    ensures var out := RootStage(s, freshCa, faults);
            && AddsSecret(s, out.write.store, ROOT_SECRET)
            && (out.write.error.Some? ==> out.write.store == s)
            && (out.write.error.None? ==>
                  ROOT_SECRET in out.write.store.secrets &&
                  out.secret == Some(out.write.store.secrets[ROOT_SECRET]) &&
                  (ROOT_SECRET !in s.secrets ==> out.secret == Some(BuildRootSecret(freshCa))))
  {
    var root := FetchRoot(s, freshCa, faults);
    if root.Ok? {
      CreateSecretAdds(s, ROOT_SECRET, root.value, CreateRootSecret in faults);
    }
  }

  /** A new serving certificate is issued and signed by the root it was given, for this server's name. */
  lemma ServingStageResult(s: Store, cfg: Config, name: string, ca: nat, faults: set<Call>)
    ensures var w := ServingStage(s, cfg, name, BuildRootSecret(ca), faults);
            && AddsSecret(s, w.store, name)
            && (w.error.Some? ==> w.store == s)
            && (w.error.None? ==> name in w.store.secrets)
            && (name !in s.secrets && name in w.store.secrets ==>
                  && SignedBy(w.store.secrets[name], ca)
                  && IssuedFor(w.store.secrets[name], name + "." + cfg.deploymentsNamespace + ".svc"))
  {
    var serving := FetchServing(s, cfg, name, BuildRootSecret(ca), faults);
    if serving.Ok? {
      CreateSecretAdds(s, name, serving.value, CreateServingSecret in faults);
    }
  }

  /** Whatever root it is issued from, a new serving certificate is for the host under which the Service is called. */
  lemma NewServingIsNamed(s: Store, cfg: Config, name: string, root: Secret, faults: set<Call>)
    ensures var s' := ServingStage(s, cfg, name, root, faults).store;
            && AddsSecret(s, s', name)
            && (name !in s.secrets && name in s'.secrets ==>
                  IssuedFor(s'.secrets[name], name + "." + cfg.deploymentsNamespace + ".svc"))
  {
    var serving := FetchServing(s, cfg, name, root, faults);
    if serving.Ok? {
      CreateSecretAdds(s, name, serving.value, CreateServingSecret in faults);
    }
  }

  /**
   * When the root is fetched from one state and created in a later one, the secret kept in memory is the stored one
   * exactly when the fetch already saw a root or nobody stored one in between: losing that race goes unnoticed.
   */
  lemma KeptRootIsStoredRoot(fetched: Store, later: Store, freshCa: nat)
    requires ROOT_SECRET in fetched.secrets ==>
               ROOT_SECRET in later.secrets && later.secrets[ROOT_SECRET] == fetched.secrets[ROOT_SECRET]
    requires ROOT_SECRET in later.secrets && ROOT_SECRET !in fetched.secrets ==>
               later.secrets[ROOT_SECRET] != BuildRootSecret(freshCa)
    ensures var kept := FetchRoot(fetched, freshCa, {}).value;
            var w := ReconcileCASecret(later, ROOT_SECRET, kept, false);
            && w.error.None?
            && (w.store.secrets[ROOT_SECRET] == kept <==>
                ROOT_SECRET in fetched.secrets || ROOT_SECRET !in later.secrets)
  {
  }
}
