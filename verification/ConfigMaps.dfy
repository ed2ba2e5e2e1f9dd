/** The policy server's ConfigMap: what it should hold, when it is patched, and the requests read back from it. */
module ConfigMaps {
  import opened Common
  import opened Naming
  import opened Model
  import opened Api

  // ------------------------------------------------------------ policies.yml

  function EntryOf(p: BoundPolicy): PolicyEntry {
    PolicyEntry(p.key, p.spec.wasmModule, p.spec.mode, p.spec.mutating, p.spec.settings)
  }

  /** The entry tells the policy server what the policy is: module, mode, whether it may mutate, and settings. */
  predicate Tells(e: PolicyEntry, p: BoundPolicy) {
    && e.key == p.key && e.url == p.spec.wasmModule && e.policyMode == p.spec.mode
    && e.allowedToMutate == p.spec.mutating && e.settings == p.spec.settings
  }

  /** One entry per unique name; of policies that share a name, the last one listed. */
  function PoliciesMap(policies: seq<BoundPolicy>): map<string, PolicyEntry> {
    if policies == [] then map[]
    else
      var last := |policies| - 1;
      PoliciesMap(policies[..last])[UniqueName(policies[last].key) := EntryOf(policies[last])]
  }

  method CreatePoliciesMap(policies: seq<BoundPolicy>) returns (m: map<string, PolicyEntry>)
    ensures m == PoliciesMap(policies)
    ensures m.Keys == Names(policies)
    ensures forall u :: u in m ==> exists i :: IsLastOf(policies, i, u) && Tells(m[u], policies[i])
  {
    m := map[];
    for i := 0 to |policies|
      invariant m == PoliciesMap(policies[..i])
    {
      m := m[UniqueName(policies[i].key) := EntryOf(policies[i])];
      assert policies[..i + 1][..i] == policies[..i];
    }
    assert policies[..|policies|] == policies;
    PoliciesMapKeys(policies);
    forall u | u in m
      ensures exists i :: IsLastOf(policies, i, u) && Tells(m[u], policies[i])
    {
      var i := PoliciesMapMembers(policies, u);
    }
  }

  /** The last policy of that name. */
  ghost predicate IsLastOf(policies: seq<BoundPolicy>, i: int, u: string) {
    && 0 <= i < |policies| && UniqueName(policies[i].key) == u
    && forall j :: i < j < |policies| ==> UniqueName(policies[j].key) != u
  }

  /** The unique names of the listed policies. */
  function Names(policies: seq<BoundPolicy>): set<string> {
    set p | p in policies :: UniqueName(p.key)
  }

  lemma {:induction false} PoliciesMapKeys(policies: seq<BoundPolicy>)
    ensures PoliciesMap(policies).Keys == Names(policies)
    ensures forall u :: u in PoliciesMap(policies) ==> UniqueName(PoliciesMap(policies)[u].key) == u
  {
    if policies != [] {
      var last := |policies| - 1;
      PoliciesMapKeys(policies[..last]);
      assert policies == policies[..last] + [policies[last]];
    }
  }

  /** Every entry tells of a listed policy, the last one of its name. */
  lemma {:induction false} PoliciesMapMembers(policies: seq<BoundPolicy>, u: string) returns (i: nat)
    requires u in PoliciesMap(policies)
    ensures IsLastOf(policies, i, u) && Tells(PoliciesMap(policies)[u], policies[i])
  {
    var last := |policies| - 1;
    if UniqueName(policies[last].key) == u {
      i := last;
    } else {
      i := PoliciesMapMembers(policies[..last], u);
    }
  }

  ghost predicate DistinctNames(policies: seq<BoundPolicy>) {
    forall i, j :: 0 <= i < j < |policies| ==> UniqueName(policies[i].key) != UniqueName(policies[j].key)
  }

  lemma {:induction false} PoliciesMapEntries(policies: seq<BoundPolicy>, i: nat)
    requires DistinctNames(policies) && i < |policies|
    ensures UniqueName(policies[i].key) in PoliciesMap(policies)
    ensures PoliciesMap(policies)[UniqueName(policies[i].key)] == EntryOf(policies[i])
    ensures Tells(PoliciesMap(policies)[UniqueName(policies[i].key)], policies[i])
  {
    var last := |policies| - 1;
    if i < last {
      PoliciesMapEntries(policies[..last], i);
    }
  }

  lemma DistinctNamesOfFront(policies: seq<BoundPolicy>)
    requires policies != []
    ensures var last := |policies| - 1;
            DistinctNames(policies) <==>
            DistinctNames(policies[..last]) && UniqueName(policies[last].key) !in Names(policies[..last])
  {
    var last := |policies| - 1;
    var front := policies[..last];
    assert forall i :: 0 <= i < last ==> front[i] == policies[i] && front[i] in front;
    if DistinctNames(front) && UniqueName(policies[last].key) !in Names(front) {
      assert forall i :: 0 <= i < last ==> UniqueName(front[i].key) in Names(front);
    }
    if DistinctNames(policies) {
      assert forall p :: p in front ==> UniqueName(p.key) != UniqueName(policies[last].key);
    }
  }

  /** Sharing a unique name loses an entry. */
  lemma {:induction false} PoliciesMapSize(policies: seq<BoundPolicy>)
    ensures |PoliciesMap(policies)| <= |policies|
    ensures |PoliciesMap(policies)| == |policies| <==> DistinctNames(policies)
  {
    if policies != [] {
      var last := |policies| - 1;
      var front, u := policies[..last], UniqueName(policies[last].key);
      PoliciesMapSize(front);
      PoliciesMapKeys(front);
      DistinctNamesOfFront(policies);
      var m := PoliciesMap(front);
      assert PoliciesMap(policies) == m[u := EntryOf(policies[last])];
      assert u in m ==> |m[u := EntryOf(policies[last])]| == |m|;
      assert u !in m ==> |m[u := EntryOf(policies[last])]| == |m| + 1;
    }
  }

  // ------------------------------------------------------------- sources.yml

  /** Never nil: an absent list or map becomes an empty one. */
  function DesiredSources(spec: ServerSpec): Sources {
    Sources(
      Some(if spec.insecureSources.Some? then spec.insecureSources.value else []),
      Some(AuthoritiesMap(spec.sourceAuthorities)))
  }

  function Authorities(certs: seq<string>): seq<Authority> {
    seq(|certs|, i requires 0 <= i < |certs| => Authority("Data", certs[i]))
  }

  function AuthoritiesMap(certs: map<string, seq<string>>): map<string, seq<Authority>> {
    map uri | uri in certs :: Authorities(certs[uri])
  }

  /** What nil stands for where it is read. */
  function ListOf(insecure: Option<seq<string>>): seq<string> {
    if insecure.Some? then insecure.value else []
  }

  function TableOf(authorities: Option<map<string, seq<Authority>>>): map<string, seq<Authority>> {
    if authorities.Some? then authorities.value else map[]
  }

  /** The sources tell the policy server the spec's insecure registries, and each URI's certificates in their order. */
  ghost predicate SourcesTell(src: Sources, spec: ServerSpec) {
    && ListOf(src.insecure) == ListOf(spec.insecureSources)
    && TableOf(src.authorities).Keys == spec.sourceAuthorities.Keys
    && forall uri :: uri in spec.sourceAuthorities ==>
         var told, certs := TableOf(src.authorities)[uri], spec.sourceAuthorities[uri];
         |told| == |certs| && forall i :: 0 <= i < |certs| ==> told[i] == Authority("Data", certs[i])
  }

  /** So do those that are written, and what is read back from the text, nil and empty apart. */
  lemma DesiredSourcesTell(spec: ServerSpec)
    ensures SourcesTell(DesiredSources(spec), spec)
    ensures var read := DecodeSources(Some(EncodeSources(DesiredSources(spec)))); read.Ok? && SourcesTell(read.value, spec)
  {
    assert AuthoritiesMap(spec.sourceAuthorities).Keys == spec.sourceAuthorities.Keys;
  }

  method CreateAuthorities(certs: seq<string>) returns (list: seq<Authority>)
    ensures list == Authorities(certs)
  {
    list := [];
    for i := 0 to |certs|
      invariant |list| == i
      invariant forall x :: 0 <= x < i ==> list[x] == Authority("Data", certs[x])
    {
      list := list + [Authority("Data", certs[i])];
    }
  }

  method CreateSourcesMap(spec: ServerSpec) returns (r: Sources)
    ensures r == DesiredSources(spec)
    ensures SourcesTell(r, spec) && r.insecure.Some? && r.authorities.Some?
  {
    var authorities: map<string, seq<Authority>> := map[];
    var rest := spec.sourceAuthorities.Keys;
    while rest != {}
      invariant rest <= spec.sourceAuthorities.Keys
      invariant authorities.Keys == spec.sourceAuthorities.Keys - rest
      invariant forall uri :: uri in authorities ==> authorities[uri] == AuthoritiesMap(spec.sourceAuthorities)[uri]
      decreases |rest|
    {
      var uri :| uri in rest;
      var list := CreateAuthorities(spec.sourceAuthorities[uri]);
      authorities := authorities[uri := list];
      rest := rest - {uri};
    }
    assert authorities == AuthoritiesMap(spec.sourceAuthorities);
    r := Sources(Some(if spec.insecureSources.Some? then spec.insecureSources.value else []), Some(authorities));
    DesiredSourcesTell(spec);
  }

  /** JSON output leaves out empty values, so they read back as nil. */
  function EncodeSources(src: Sources): Text {
    SourcesJson(Sources(
      if src.insecure == Some([]) then None else src.insecure,
      if src.authorities == Some(map[]) then None else src.authorities))
  }

  function DecodeSources(t: Option<Text>): Result<Sources> {
    if t.Some? && t.value.SourcesJson? then Ok(t.value.sources) else Err(Other)
  }

  function DecodePolicies(t: Option<Text>): Result<map<string, PolicyEntry>> {
    if t.Some? && t.value.PoliciesJson? then Ok(t.value.policies) else Err(Other)
  }

  // -------------------------------------------------- creating and patching

  predicate Decodes(cm: ConfigMap) {
    && DecodePolicies(Lookup(cm.data, PoliciesYml)).Ok?
    && DecodeSources(Lookup(cm.data, SourcesYml)).Ok?
  }

  function NewData(policies: map<string, PolicyEntry>, sources: Sources): map<ConfigKey, Text> {
    map[PoliciesYml := PoliciesJson(policies), SourcesYml := EncodeSources(sources)]
  }

  /** The data after `updateIfNeeded`, given that both entries decode. */
  function PatchedData(
    data: map<ConfigKey, Text>, policies: map<string, PolicyEntry>, sources: Sources): Result<map<ConfigKey, Text>> {
    var currentPolicies := DecodePolicies(Lookup(data, PoliciesYml));
    var currentSources := DecodeSources(Lookup(data, SourcesYml));
    if currentPolicies.Err? || currentSources.Err? then Err(Other)
    else
      var data1 := if currentPolicies.value != policies then data[PoliciesYml := PoliciesJson(policies)] else data;
      Ok(if currentSources.value != sources then data1[SourcesYml := EncodeSources(sources)] else data1)
  }

  /** What the ConfigMap will hold: new data when it does not exist, patched data when it does. */
  function TargetData(
    current: Option<ConfigMap>, policies: map<string, PolicyEntry>, sources: Sources): Result<map<ConfigKey, Text>> {
    if current.None? then Ok(NewData(policies, sources)) else PatchedData(current.value.data, policies, sources)
  }

  predicate NeedsNoUpdate(data: map<ConfigKey, Text>, policies: map<string, PolicyEntry>, sources: Sources) {
    && DecodePolicies(Lookup(data, PoliciesYml)) == Ok(policies)
    && DecodeSources(Lookup(data, SourcesYml)) == Ok(sources)
  }

  /** Creates the ConfigMap, or patches the entries that differ from what they should decode to. */
  function SyncConfigMap(
    s: Store, n: string, policies: map<string, PolicyEntry>, sources: Sources, faults: set<Call>): Write {
    var target := TargetData(Lookup(s.configMaps, n), policies, sources);
    if GetConfigMap in faults || target.Err? then Failed(s, Other)
    else if n !in s.configMaps then Api.CreateConfigMap(s, n, Some(n), target.value, CreateConfigMap in faults)
    else if NeedsNoUpdate(s.configMaps[n].data, policies, sources) then Done(s)
    else Api.PatchConfigMap(s, n, target.value, PatchConfigMap in faults)
  }

  function ConfigMapStage(s: Store, n: string, spec: ServerSpec, policies: seq<BoundPolicy>, faults: set<Call>): Write {
    SyncConfigMap(s, n, PoliciesMap(policies), DesiredSources(spec), faults)
  }

  /** Policies a ConfigMap serves; a ConfigMap without the entry serves none. */
  function ServedPolicies(cm: ConfigMap): Result<map<string, PolicyEntry>> {
    if PoliciesYml in cm.data then DecodePolicies(Some(cm.data[PoliciesYml])) else Ok(map[])
  }

  predicate Serves(cm: ConfigMap, u: string) {
    ServedPolicies(cm).Ok? && u in ServedPolicies(cm).value
  }

  /** From `s` to `s'` at most the ConfigMap of `n` was written, once, and it got the new resource version. */
  predicate WritesConfigMap(s: Store, s': Store, n: string) {
    && s' == s.(rv := s'.rv, configMaps := s'.configMaps)
    && if s'.rv == s.rv then s'.configMaps == s.configMaps
       else
         && s'.rv == s.rv + 1
         && n in s'.configMaps && s'.configMaps[n].rv == s'.rv
         && s'.configMaps == s.configMaps[n := s'.configMaps[n]]
  }

  /** Both entries hold what the server should have, the sources possibly with their empty parts left out. */
  predicate UpToDate(data: map<ConfigKey, Text>, policies: map<string, PolicyEntry>, sources: Sources) {
    && PoliciesYml in data && data[PoliciesYml] == PoliciesJson(policies)
    && SourcesYml in data && (data[SourcesYml] == SourcesJson(sources) || data[SourcesYml] == EncodeSources(sources))
  }

  /** Empty sources always ask for a patch, but up-to-date data is patched to itself. */
  lemma UpToDateIsStable(data: map<ConfigKey, Text>, policies: map<string, PolicyEntry>, sources: Sources)
    requires UpToDate(data, policies, sources)
    ensures PatchedData(data, policies, sources) == Ok(data)
  {
    assert data[SourcesYml := data[SourcesYml]] == data;
  }

  lemma TargetIsUpToDate(
    current: Option<ConfigMap>, policies: map<string, PolicyEntry>, sources: Sources)
    requires TargetData(current, policies, sources).Ok?
    ensures UpToDate(TargetData(current, policies, sources).value, policies, sources)
  {
  }

  lemma PatchConfigMapWrites(s: Store, n: string, data: map<ConfigKey, Text>, fail: bool)
    ensures WritesConfigMap(s, Api.PatchConfigMap(s, n, data, fail).store, n)
  {
    if fail || n !in s.configMaps {
    } else if s.configMaps[n].data == data {
    } else {
      var s' := Api.PatchConfigMap(s, n, data, fail).store;
      assert s'.configMaps == s.configMaps[n := s'.configMaps[n]];
    }
  }

  lemma PatchConfigMapHolds(s: Store, n: string, data: map<ConfigKey, Text>, fail: bool)
    requires n in s.configMaps
    ensures var w := Api.PatchConfigMap(s, n, data, fail);
            if w.error.Some? then w.store == s else n in w.store.configMaps && w.store.configMaps[n].data == data
  {
    if fail {
    } else if s.configMaps[n].data == data {
    } else {
    }
  }

  lemma CreateConfigMapWrites(s: Store, n: string, data: map<ConfigKey, Text>, fail: bool)
    ensures WritesConfigMap(s, Api.CreateConfigMap(s, n, Some(n), data, fail).store, n)
  {
  }

  /** Nothing but the server's ConfigMap is written, at most once. */
  lemma SyncConfigMapWrites(
    s: Store, n: string, policies: map<string, PolicyEntry>, sources: Sources, faults: set<Call>)
    ensures WritesConfigMap(s, SyncConfigMap(s, n, policies, sources, faults).store, n)
  {
    var target := TargetData(Lookup(s.configMaps, n), policies, sources);
    if GetConfigMap in faults || target.Err? {
    } else if n !in s.configMaps {
      CreateConfigMapWrites(s, n, target.value, CreateConfigMap in faults);
    } else if NeedsNoUpdate(s.configMaps[n].data, policies, sources) {
    } else {
      PatchConfigMapWrites(s, n, target.value, PatchConfigMap in faults);
    }
  }

  /** Success leaves the ConfigMap up to date; failure writes nothing. */
  lemma SyncConfigMapResult(
    s: Store, n: string, policies: map<string, PolicyEntry>, sources: Sources, faults: set<Call>)
    ensures var w := SyncConfigMap(s, n, policies, sources, faults);
            if w.error.Some? then w.store == s
            else n in w.store.configMaps && UpToDate(w.store.configMaps[n].data, policies, sources)
  {
    var target := TargetData(Lookup(s.configMaps, n), policies, sources);
    if GetConfigMap in faults || target.Err? {
    } else {
      TargetIsUpToDate(Lookup(s.configMaps, n), policies, sources);
      if n !in s.configMaps {
      } else if NeedsNoUpdate(s.configMaps[n].data, policies, sources) {
        assert target.value == s.configMaps[n].data;
      } else {
        PatchConfigMapHolds(s, n, target.value, PatchConfigMap in faults);
      }
    }
  }

  /** What a ConfigMap should say: what each of the policies is, under its name, and the server's sources. */
  ghost predicate SaysAll(cm: ConfigMap, spec: ServerSpec, policies: seq<BoundPolicy>) {
    var read, src := ServedPolicies(cm), DecodeSources(Lookup(cm.data, SourcesYml));
    && read.Ok? && read.value.Keys == Names(policies)
    && (forall u :: u in read.value ==> exists i :: IsLastOf(policies, i, u) && Tells(read.value[u], policies[i]))
    && src.Ok? && SourcesTell(src.value, spec)
  }

  /** A stage that succeeds leaves a ConfigMap that says it all; one that it had to create carries the server's label. */
  lemma StageSaysAll(s: Store, n: string, spec: ServerSpec, policies: seq<BoundPolicy>, faults: set<Call>)
    requires ConfigMapStage(s, n, spec, policies, faults).error.None?
    ensures var s' := ConfigMapStage(s, n, spec, policies, faults).store;
            && n in s'.configMaps && SaysAll(s'.configMaps[n], spec, policies)
            && s'.configMaps[n].serverLabel == if n in s.configMaps then s.configMaps[n].serverLabel else Some(n)
  {
    var s' := ConfigMapStage(s, n, spec, policies, faults).store;
    SyncConfigMapResult(s, n, PoliciesMap(policies), DesiredSources(spec), faults);
    StageKeepsLabel(s, n, PoliciesMap(policies), DesiredSources(spec), faults);
    DesiredSourcesTell(spec);
    PoliciesMapKeys(policies);
    hide SourcesTell;
    hide EncodeSources;
    hide DesiredSources;
    hide SyncConfigMap;
    var read := ServedPolicies(s'.configMaps[n]).value;
    forall u | u in read
      ensures exists i :: IsLastOf(policies, i, u) && Tells(read[u], policies[i])
    {
      var i := PoliciesMapMembers(policies, u);
    }
  }

  lemma StageKeepsLabel(s: Store, n: string, policies: map<string, PolicyEntry>, sources: Sources, faults: set<Call>)
    requires SyncConfigMap(s, n, policies, sources, faults).error.None?
    ensures var s' := SyncConfigMap(s, n, policies, sources, faults).store;
            n in s'.configMaps &&
            s'.configMaps[n].serverLabel == if n in s.configMaps then s.configMaps[n].serverLabel else Some(n)
  {
    hide TargetData;
    hide NeedsNoUpdate;
    hide Api.CreateConfigMap;
    hide Api.PatchConfigMap;
    var target := TargetData(Lookup(s.configMaps, n), policies, sources);
    CallsKeepLabel(s, n, target.value);
  }

  lemma CallsKeepLabel(s: Store, n: string, data: map<ConfigKey, Text>)
    ensures var w := Api.CreateConfigMap(s, n, Some(n), data, false);
            w.error.None? ==> n in w.store.configMaps && w.store.configMaps[n].serverLabel == Some(n)
    ensures var w := Api.PatchConfigMap(s, n, data, false);
            w.error.None? ==> n in s.configMaps && n in w.store.configMaps &&
                              w.store.configMaps[n].serverLabel == s.configMaps[n].serverLabel
    ensures Api.CreateConfigMap(s, n, Some(n), data, true).error.Some?
    ensures Api.PatchConfigMap(s, n, data, true).error.Some?
  {
    if n !in s.configMaps {
    } else if s.configMaps[n].data == data {
    } else {
    }
  }

  /** A second run changes nothing. */
  lemma SyncConfigMapIdempotent(
    s: Store, n: string, policies: map<string, PolicyEntry>, sources: Sources, faults: set<Call>, faults': set<Call>)
    requires SyncConfigMap(s, n, policies, sources, faults).error.None?
    ensures var s1 := SyncConfigMap(s, n, policies, sources, faults).store;
            SyncConfigMap(s1, n, policies, sources, faults').store == s1
  {
    SyncConfigMapResult(s, n, policies, sources, faults);
    var s1 := SyncConfigMap(s, n, policies, sources, faults).store;
    UpToDateIsStable(s1.configMaps[n].data, policies, sources);
  }

  /** Nil and empty differ on comparison: a server without sources asks for a patch on every run. */
  lemma EmptySourcesAlwaysDiffer(spec: ServerSpec)
    ensures DecodeSources(Some(EncodeSources(DesiredSources(spec)))).value == DesiredSources(spec) <==>
            spec.insecureSources.Some? && spec.insecureSources.value != [] && spec.sourceAuthorities != map[]
  {
    var d := DesiredSources(spec);
    assert d.authorities.value.Keys == spec.sourceAuthorities.Keys;
    assert d.authorities.value == map[] <==> spec.sourceAuthorities.Keys == {};
    assert spec.sourceAuthorities == map[] <==> spec.sourceAuthorities.Keys == {};
  }

  // ------------------------------------------------------- reconcile requests

  datatype Request = Request(ns: string, name: string)

  function RequestOf(e: PolicyEntry): Request {
    Request(e.key.Namespace(), e.key.name)
  }

  /** Requests for the entries with a namespace, or for those without one, in the order the map is read. */
  function Requests(m: map<string, PolicyEntry>, order: seq<string>, namespaced: bool): seq<Request> {
    if order == [] then []
    else
      var last := |order| - 1;
      var front := Requests(m, order[..last], namespaced);
      if order[last] in m && (m[order[last]].key.Namespace() != "") == namespaced
      then front + [RequestOf(m[order[last]])]
      else front
  }

  method ToAdmissionPolicyReconcileRequests(m: map<string, PolicyEntry>, order: seq<string>) returns (res: seq<Request>)
    requires forall u :: u in order ==> u in m
    ensures res == Requests(m, order, true)
  {
    res := [];
    for i := 0 to |order|
      invariant res == Requests(m, order[..i], true)
    {
      assert order[..i + 1][..i] == order[..i];
      var policy := m[order[i]];
      if policy.key.Namespace() == "" {
        continue;
      }
      res := res + [Request(policy.key.Namespace(), policy.key.name)];
    }
    assert order[..|order|] == order;
  }

  method ToClusterAdmissionPolicyReconcileRequests(m: map<string, PolicyEntry>, order: seq<string>)
    returns (res: seq<Request>)
    requires forall u :: u in order ==> u in m
    ensures res == Requests(m, order, false)
  {
    res := [];
    for i := 0 to |order|
      invariant res == Requests(m, order[..i], false)
    {
      assert order[..i + 1][..i] == order[..i];
      var policy := m[order[i]];
      if policy.key.Namespace() != "" {
        continue;
      }
      res := res + [Request("", policy.key.name)];
    }
    assert order[..|order|] == order;
  }

  function PolicyName(p: BoundPolicy): Request {
    Request(p.key.Namespace(), p.key.name)
  }

  /** The listed policies' names, only the namespaced ones or only the cluster-wide ones. */
  function PolicyNames(policies: seq<BoundPolicy>, namespaced: bool): seq<Request> {
    if policies == [] then []
    else
      var last := |policies| - 1;
      var front := PolicyNames(policies[..last], namespaced);
      if policies[last].key.Namespaced? == namespaced then front + [PolicyName(policies[last])] else front
  }

  /** Namespaces are never empty in Kubernetes. */
  ghost predicate RealNamespaces(policies: seq<BoundPolicy>) {
    forall p :: p in policies ==> (p.key.Namespaced? <==> p.key.Namespace() != "")
  }

  lemma {:induction false} RequestsElements(m: map<string, PolicyEntry>, order: seq<string>, namespaced: bool)
    ensures forall r :: r in Requests(m, order, namespaced) <==>
              exists u :: u in order && u in m && (m[u].key.Namespace() != "") == namespaced && RequestOf(m[u]) == r
  {
    if order != [] {
      var last := |order| - 1;
      RequestsElements(m, order[..last], namespaced);
      assert order == order[..last] + [order[last]];
    }
  }

  lemma DistinctAppend<T>(xs: seq<T>, x: T)
    requires Distinct(xs) && x !in xs
    ensures Distinct(xs + [x])
  {
  }

  lemma {:induction false} RequestsDistinct(m: map<string, PolicyEntry>, order: seq<string>, namespaced: bool)
    requires Distinct(order)
    requires forall u, v :: u in m && v in m && u != v ==> RequestOf(m[u]) != RequestOf(m[v])
    ensures Distinct(Requests(m, order, namespaced))
  {
    if order != [] {
      var last := |order| - 1;
      RequestsDistinct(m, order[..last], namespaced);
      RequestsElements(m, order[..last], namespaced);
      assert order[last] !in order[..last];
      if order[last] in m {
        DistinctAppend(Requests(m, order[..last], namespaced), RequestOf(m[order[last]]));
      }
    }
  }

  lemma {:induction false} PolicyNamesElements(policies: seq<BoundPolicy>, namespaced: bool)
    ensures forall r :: r in PolicyNames(policies, namespaced) <==>
              exists p :: p in policies && p.key.Namespaced? == namespaced && PolicyName(p) == r
  {
    if policies != [] {
      var last := |policies| - 1;
      PolicyNamesElements(policies[..last], namespaced);
      assert policies == policies[..last] + [policies[last]];
    }
  }

  lemma NameDeterminesKey(a: PolicyKey, b: PolicyKey)
    requires a.Namespaced? <==> a.Namespace() != ""
    requires b.Namespaced? <==> b.Namespace() != ""
    ensures a.Namespace() == b.Namespace() && a.name == b.name <==> a == b
  {
  }

  lemma {:induction false} PolicyNamesDistinct(policies: seq<BoundPolicy>, namespaced: bool)
    requires DistinctNames(policies) && RealNamespaces(policies)
    ensures Distinct(PolicyNames(policies, namespaced))
  {
    if policies != [] {
      var last := |policies| - 1;
      var front := policies[..last];
      PolicyNamesDistinct(front, namespaced);
      PolicyNamesElements(front, namespaced);
      forall p | p in front
        ensures PolicyName(p) != PolicyName(policies[last])
      {
        var i :| 0 <= i < last && front[i] == p;
        assert policies[i] == p && p in policies && policies[last] in policies;
        assert UniqueName(policies[i].key) != UniqueName(policies[last].key);
        NameDeterminesKey(p.key, policies[last].key);
      }
      DistinctAppend(PolicyNames(front, namespaced), PolicyName(policies[last]));
    }
  }

  /**
   * Reading the requests back from the map gives every policy once, in the list of its own kind, whatever order the
   * two maps are read in.
   */
  lemma RequestsRoundTrip(policies: seq<BoundPolicy>, order: seq<string>, namespaced: bool)
    requires DistinctNames(policies) && RealNamespaces(policies)
    requires Enumerates(order, PoliciesMap(policies).Keys)
    ensures multiset(Requests(PoliciesMap(policies), order, namespaced)) == multiset(PolicyNames(policies, namespaced))
  {
    var m := PoliciesMap(policies);
    PoliciesMapKeys(policies);
    forall u | u in m
      ensures exists i :: 0 <= i < |policies| && UniqueName(policies[i].key) == u && m[u] == EntryOf(policies[i])
    {
      var p :| p in policies && UniqueName(p.key) == u;
      var i :| 0 <= i < |policies| && policies[i] == p;
      PoliciesMapEntries(policies, i);
    }
    forall u, v | u in m && v in m && u != v
      ensures RequestOf(m[u]) != RequestOf(m[v])
    {
      var i :| 0 <= i < |policies| && UniqueName(policies[i].key) == u && m[u] == EntryOf(policies[i]);
      var j :| 0 <= j < |policies| && UniqueName(policies[j].key) == v && m[v] == EntryOf(policies[j]);
      assert policies[i] in policies && policies[j] in policies;
      NameDeterminesKey(policies[i].key, policies[j].key);
    }
    RequestsDistinct(m, order, namespaced);
    PolicyNamesDistinct(policies, namespaced);
    RequestsElements(m, order, namespaced);
    PolicyNamesElements(policies, namespaced);
    var rs, ns := Requests(m, order, namespaced), PolicyNames(policies, namespaced);
    forall r | r in rs
      ensures r in ns
    {
      var u :| u in order && u in m && (m[u].key.Namespace() != "") == namespaced && RequestOf(m[u]) == r;
      var i :| 0 <= i < |policies| && UniqueName(policies[i].key) == u && m[u] == EntryOf(policies[i]);
      assert policies[i] in policies && PolicyName(policies[i]) == r;
    }
    forall r | r in ns
      ensures r in rs
    {
      var p :| p in policies && p.key.Namespaced? == namespaced && PolicyName(p) == r;
      var i :| 0 <= i < |policies| && policies[i] == p;
      PoliciesMapEntries(policies, i);
      assert UniqueName(p.key) in order;
    }
    SameElementsSameMultiset(rs, ns);
  }

  lemma {:induction false} RequestsCount(m: map<string, PolicyEntry>, order: seq<string>)
    requires forall u :: u in order ==> u in m
    ensures |Requests(m, order, true)| + |Requests(m, order, false)| == |order|
  {
    if order != [] {
      RequestsCount(m, order[..|order| - 1]);
      assert order[|order| - 1] in m;
    }
  }

  lemma {:induction false} EnumerationLength<T>(order: seq<T>, xs: set<T>)
    requires Distinct(order) && (forall x :: x in order <==> x in xs)
    ensures |order| == |xs|
  {
    if order == [] {
      assert xs == {};
    } else {
      var x := order[0];
      assert x in xs;
      forall y | y in xs - {x}
        ensures y in order[1..]
      {
        var i :| 0 <= i < |order| && order[i] == y;
        assert order[1..][i - 1] == y;
      }
      EnumerationLength(order[1..], xs - {x});
    }
  }

  /** Nobody is lost on the way exactly when no two of the policies share a unique name. */
  lemma RoundTripExactlyWhenNamesDistinct(policies: seq<BoundPolicy>, order: seq<string>)
    requires RealNamespaces(policies)
    requires Enumerates(order, PoliciesMap(policies).Keys)
    ensures var m := PoliciesMap(policies);
            DistinctNames(policies) <==>
            |Requests(m, order, true)| + |Requests(m, order, false)| == |policies|
  {
    PoliciesMapSize(policies);
    RequestsCount(PoliciesMap(policies), order);
    EnumerationLength(order, PoliciesMap(policies).Keys);
  }
}
