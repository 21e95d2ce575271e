/** The admission webhook: what a document has to be, and which changes of its PVC list are let through. */
module Webhook {
  import opened Names
  import opened Labels
  import opened Documents
  import opened Yamls
  import opened Configs

  /* ---- the document ---- */

  const SERVER_GROUPS := ["proxy", "server-groups"]
  const SPLITS := ["proxy", "suffixes"]

  datatype Check = Passes | Fails | Panics

  /** An entry of the document which names a ConfigMap, and a key in it unless that is empty. */
  datatype ConfigMapEntry = ConfigMapEntry(name: string, key: string)

  /** A reference from the environment to a ConfigMap or a secret. */
  datatype Reference = Reference(name: string, optional: bool)

  datatype EnvFrom = EnvFrom(configMap: Option<Reference>, secret: Option<Reference>)

  /** What of the document is checked; image, resources, env and serviceAccountName are only compared. */
  datatype Spec = Spec(
    pvcs: seq<Pvc>,
    proxyPvc: Option<Pvc>,
    proxy: ConfigMapEntry,
    server: ConfigMapEntry,
    envFrom: seq<EnvFrom>,
    image: string,
    resources: string,
    env: string,
    serviceAccountName: string)

  /** What can be read in the namespace: the texts of ConfigMaps by key, parsed, or None for a text which is not YAML. */
  datatype Namespace = Namespace(claims: set<Pvc>, configMaps: map<string, map<string, Option<Yaml>>>, secrets: set<string>)

  predicate Exists(ns: Namespace, entry: ConfigMapEntry) {
    entry.name in ns.configMaps && (entry.key != "" ==> entry.key in ns.configMaps[entry.name])
  }

  predicate Provided(ns: Namespace, e: EnvFrom) {
    && (e.configMap.Some? && !e.configMap.value.optional ==> e.configMap.value.name in ns.configMaps)
    && (e.secret.Some? && !e.secret.value.optional ==> e.secret.value.name in ns.secrets)
  }

  /** The proxy's configuration; a missing key reads as an empty text, which is null. */
  function ProxyBody(ns: Namespace, entry: ConfigMapEntry): Option<Yaml> {
    if entry.name !in ns.configMaps then None
    else if entry.key in ns.configMaps[entry.name] then ns.configMaps[entry.name][entry.key]
    else Some(Nil)
  }

  predicate AllParsed(ns: Namespace) {
    forall n, k | n in ns.configMaps && k in ns.configMaps[n] && ns.configMaps[n][k].Some? :: Parsed(ns.configMaps[n][k].value)
  }

  /** Neither generated entry is configured. */
  predicate LeavesGenerated(y: Yaml) {
    StringKeys(y) && At(y, SERVER_GROUPS) == Nil && At(y, SPLITS) == Nil
  }

  /** Whether the user's proxy configuration leaves the generated entries to the operator. */
  method ValidateProxyConfigMap(ns: Namespace, entry: ConfigMapEntry) returns (r: Check)
    requires AllParsed(ns)
    ensures r == Panics <==> ProxyBody(ns, entry).Some? && !StringKeys(ProxyBody(ns, entry).value)
    ensures r == Passes <==> ProxyBody(ns, entry).Some? && LeavesGenerated(ProxyBody(ns, entry).value)
  {
    var body := ProxyBody(ns, entry);
    if body == None {
      return Fails;
    }
    var y := body.value;
    var converted := ConvertYaml(y);
    if converted == None {
      return Panics;
    }
    Found(y, SERVER_GROUPS);
    Found(y, SPLITS);
    var entries := ["server-groups", "suffixes"];
    for i := 0 to 2
      invariant forall j | 0 <= j < i :: GetYamlValue(converted.value, ["proxy", entries[j]]) == Nil
    {
      if GetYamlValue(converted.value, ["proxy", entries[i]]) != Nil {
        return Fails;
      }
    }
    assert ["proxy", entries[0]] == SERVER_GROUPS && ["proxy", entries[1]] == SPLITS;
    return Passes;
  }

  /**
   * A proxy entry with one setting passes exactly when that is neither of the generated ones, or null; any other one makes the
   * text surgery write a second proxy member.
   */
  lemma ProxyMemberPasses(setting: string, value: Yaml)
    requires Parsed(value) && StringKeys(value)
    ensures var y := AnyMap(map[Text("proxy") := AnyMap(map[Text(setting) := value])]);
      Parsed(y) && At(y, ["proxy"]) != Nil && (LeavesGenerated(y) <==> setting !in {"server-groups", "suffixes"} || value == Nil)
  {
    var y := AnyMap(map[Text("proxy") := AnyMap(map[Text(setting) := value])]);
    assert SERVER_GROUPS[1..] == ["server-groups"] && SPLITS[1..] == ["suffixes"];
    var inner := AnyMap(map[Text(setting) := value]);
    assert Lookup(y, SERVER_GROUPS) == Lookup(inner, ["server-groups"]) == if setting == "server-groups" then Some(value) else None;
    assert Lookup(y, SPLITS) == Lookup(inner, ["suffixes"]) == if setting == "suffixes" then Some(value) else None;
    assert StringKeys(inner) && StringKeys(y);
    assert Lookup(y, ["proxy"]) == Some(y.entries[Text("proxy")]);
  }

  method ValidatePVCs(ns: Namespace, spec: Spec) returns (ok: bool)
    ensures ok <==> SetOf(spec.pvcs) <= ns.claims && (spec.proxyPvc.Some? ==> spec.proxyPvc.value in ns.claims)
  {
    for i := 0 to |spec.pvcs|
      invariant forall j | 0 <= j < i :: spec.pvcs[j] in ns.claims
    {
      if spec.pvcs[i] !in ns.claims {
        assert spec.pvcs[i] in SetOf(spec.pvcs);
        return false;
      }
    }
    ok := spec.proxyPvc.Some? ==> spec.proxyPvc.value in ns.claims;
  }

  method ValidateUnique(spec: Spec) returns (ok: bool)
    ensures ok <==> Distinct(spec.pvcs) && (spec.proxyPvc.Some? ==> spec.proxyPvc.value !in spec.pvcs)
  {
    var pvcs, allPvcs: set<Pvc> := spec.pvcs, {};
    for i := 0 to |pvcs|
      invariant forall p :: p in allPvcs <==> p in pvcs[..i]
      invariant Distinct(pvcs[..i])
    {
      if pvcs[i] in allPvcs {
        assert exists j | 0 <= j < i :: pvcs[j] == pvcs[i];
        return false;
      }
      assert pvcs[..i + 1] == pvcs[..i] + [pvcs[i]];
      allPvcs := allPvcs + {pvcs[i]};
    }
    assert pvcs[..|pvcs|] == pvcs;
    ok := spec.proxyPvc.Some? ==> spec.proxyPvc.value !in allPvcs;
  }

  method ValidateConfigMap(ns: Namespace, entry: ConfigMapEntry) returns (ok: bool)
    ensures ok <==> Exists(ns, entry)
  {
    ok := entry.name in ns.configMaps;
    if ok && entry.key != "" {
      ok := entry.key in ns.configMaps[entry.name];
    }
  }

  method ValidateEnvFrom(ns: Namespace, envFrom: seq<EnvFrom>) returns (ok: bool)
    ensures ok <==> forall e | e in envFrom :: Provided(ns, e)
  {
    for i := 0 to |envFrom|
      invariant forall j | 0 <= j < i :: Provided(ns, envFrom[j])
    {
      var e := envFrom[i];
      assert e in envFrom;
      if e.configMap.Some? && !e.configMap.value.optional {
        ok := ValidateConfigMap(ns, ConfigMapEntry(e.configMap.value.name, ""));
        if !ok {
          return;
        }
      }
      if e.secret.Some? && !e.secret.value.optional && e.secret.value.name !in ns.secrets {
        assert !Provided(ns, e);
        return false;
      }
    }
    return true;
  }

  /** What a document has to be, but for the contents of the proxy's ConfigMap. */
  predicate Fit(ns: Namespace, spec: Spec) {
    && SetOf(spec.pvcs) <= ns.claims && (spec.proxyPvc.Some? ==> spec.proxyPvc.value in ns.claims)
    && Distinct(spec.pvcs) && (spec.proxyPvc.Some? ==> spec.proxyPvc.value !in spec.pvcs)
    && Exists(ns, spec.proxy) && Exists(ns, spec.server)
    && forall e | e in spec.envFrom :: Provided(ns, e)
  }

  /** The checks on the document itself. */
  method ValidateDocument(ns: Namespace, spec: Spec) returns (r: Check)
    requires AllParsed(ns)
    ensures r == Passes <==> Fit(ns, spec) && ProxyBody(ns, spec.proxy).Some? && LeavesGenerated(ProxyBody(ns, spec.proxy).value)
    ensures r == Panics <==> Fit(ns, spec) && ProxyBody(ns, spec.proxy).Some? && !StringKeys(ProxyBody(ns, spec.proxy).value)
  {
    var ok := ValidatePVCs(ns, spec);
    if ok {
      ok := ValidateUnique(spec);
    }
    if ok {
      ok := ValidateConfigMap(ns, spec.proxy);
    }
    if ok {
      ok := ValidateConfigMap(ns, spec.server);
    }
    if ok {
      ok := ValidateEnvFrom(ns, spec.envFrom);
    }
    if !ok {
      return Fails;
    }
    r := ValidateProxyConfigMap(ns, spec.proxy);
  }

  /* ---- the pods ---- */

  /** A pod as a listing returns it. */
  datatype ListedPod = ListedPod(name: string, labels: LabelSet)

  /** What reading a pod by its name shows: whether it is running and ready; pods which cannot be read are missing. */
  type Readiness = map<string, bool>

  /** A pod without the label counts under the empty name. */
  function PvcOf(pod: ListedPod): string {
    if PVC_LABEL in pod.labels then pod.labels[PVC_LABEL] else ""
  }

  /** No later pod has the same PVC. */
  predicate LastOf(listed: seq<ListedPod>, i: nat)
    requires i < |listed|
  {
    forall j | i < j < |listed| :: PvcOf(listed[j]) != PvcOf(listed[i])
  }

  /** The listed pods by PVC; the later one wins. */
  function ByPvc(listed: seq<ListedPod>): (r: map<string, ListedPod>)
    ensures forall p :: p in r <==> exists i | 0 <= i < |listed| :: PvcOf(listed[i]) == p
    ensures forall p | p in r :: r[p] in listed && PvcOf(r[p]) == p
  {
    if listed == [] then map[]
    else
      var k := |listed| - 1;
      assert listed == listed[..k] + [listed[k]];
      ByPvc(listed[..k])[PvcOf(listed[k]) := listed[k]]
  }

  lemma {:induction false} LastWins(listed: seq<ListedPod>, i: nat)
    requires i < |listed| && LastOf(listed, i)
    ensures PvcOf(listed[i]) in ByPvc(listed) && ByPvc(listed)[PvcOf(listed[i])] == listed[i]
    decreases |listed|
  {
    hide PvcOf;
    var k := |listed| - 1;
    if i < k {
      assert LastOf(listed[..k], i);
      LastWins(listed[..k], i);
      assert PvcOf(listed[k]) != PvcOf(listed[i]);
    }
  }

  function Listed(pvcs: seq<Pvc>): (r: set<string>)
    ensures forall p :: p in r <==> exists i | 0 <= i < |pvcs| :: pvcs[i] == p
  {
    set i | 0 <= i < |pvcs| :: pvcs[i]
  }

  predicate IsReady(ready: Readiness, name: string) {
    name in ready && ready[name]
  }

  /** Whether the pods let the list of PVCs be changed; primaries is what asking the proxy returned, None for an error. */
  ghost predicate PodsAllow(pods: map<string, ListedPod>, ready: Readiness, pvcs: seq<Pvc>, primaries: Option<set<string>>) {
    || pods.Keys == Listed(pvcs)
    || (&& (forall p | p in pods && p in Listed(pvcs) :: IsReady(ready, pods[p].name))
        && primaries.Some?
        && forall p | p in pods && p !in Listed(pvcs) :: p !in primaries.value)
  }

  /** The pods which go, those which stay, and the PVCs which come. */
  method Classify(pods: map<string, ListedPod>, pvcs: seq<Pvc>)
    returns (toBeDeleted: set<string>, toBeLeft: set<string>, toBeAdded: seq<Pvc>)
    ensures forall p :: p in toBeDeleted <==> p in pods && p !in Listed(pvcs)
    ensures forall p :: p in toBeLeft <==> p in pods && p in Listed(pvcs)
    ensures toBeAdded == [] <==> Listed(pvcs) <= pods.Keys
  {
    toBeDeleted, toBeLeft, toBeAdded := {}, {}, [];
    var listed: set<string> := {};
    for i := 0 to |pvcs|
      invariant forall p :: p in listed <==> exists j | 0 <= j < i :: pvcs[j] == p
    {
      listed := listed + {pvcs[i]};
    }
    assert listed == Listed(pvcs);
    var rest := pods.Keys;
    while rest != {}
      invariant rest <= pods.Keys
      invariant forall p :: p in toBeDeleted <==> p in pods && p !in rest && p !in listed
      invariant forall p :: p in toBeLeft <==> p in pods && p !in rest && p in listed
    {
      var key :| key in rest;
      rest := rest - {key};
      if key in listed {
        toBeLeft := toBeLeft + {key};
      } else {
        toBeDeleted := toBeDeleted + {key};
      }
    }
    for i := 0 to |pvcs|
      invariant toBeAdded == [] <==> forall j | 0 <= j < i :: pvcs[j] in pods
    {
      if pvcs[i] !in pods {
        toBeAdded := toBeAdded + [pvcs[i]];
      }
    }
  }

  method AllReady(pods: map<string, ListedPod>, ready: Readiness, keys: set<string>) returns (ok: bool)
    requires keys <= pods.Keys
    ensures ok <==> forall p | p in keys :: IsReady(ready, pods[p].name)
  {
    var rest := keys;
    while rest != {}
      invariant rest <= keys
      invariant forall p | p in keys && p !in rest :: IsReady(ready, pods[p].name)
    {
      var key :| key in rest;
      rest := rest - {key};
      if !IsReady(ready, pods[key].name) {
        return false;
      }
    }
    return true;
  }

  method NoneIn(keys: set<string>, primaries: set<string>) returns (ok: bool)
    ensures ok <==> forall p | p in keys :: p !in primaries
  {
    var rest := keys;
    while rest != {}
      invariant rest <= keys
      invariant forall p | p in keys && p !in rest :: p !in primaries
    {
      var key :| key in rest;
      rest := rest - {key};
      if key in primaries {
        return false;
      }
    }
    return true;
  }

  /** The listed pods by their label. */
  method ByLabel(listed: seq<ListedPod>) returns (pods: map<string, ListedPod>)
    ensures pods == ByPvc(listed)
  {
    pods := map[];
    for i := 0 to |listed|
      invariant pods == ByPvc(listed[..i])
    {
      assert listed[..i + 1][..i] == listed[..i];
      pods := pods[PvcOf(listed[i]) := listed[i]];
    }
    assert listed[..|listed|] == listed;
  }

  method ValidatePods(listed: seq<ListedPod>, ready: Readiness, pvcs: seq<Pvc>, primaries: Option<set<string>>) returns (ok: bool)
    ensures ok <==> PodsAllow(ByPvc(listed), ready, pvcs, primaries)
  {
    hide ByPvc, Listed, PvcOf, IsReady;
    var pods := ByLabel(listed);
    var toBeDeleted, toBeLeft, toBeAdded := Classify(pods, pvcs);
    assert pods.Keys <= Listed(pvcs) <==> toBeDeleted == {};
    if |toBeDeleted| == 0 && |toBeAdded| == 0 {
      return true;
    }
    assert pods.Keys != Listed(pvcs);
    ok := AllReady(pods, ready, toBeLeft);
    if !ok || primaries == None {
      return false;
    }
    ok := NoneIn(toBeDeleted, primaries.value);
  }

  /* ---- what the listing shows ---- */

  /** A replica's pod. */
  ghost predicate PodOf(pod: ListedPod, name: string, pvc: Pvc) {
    pod.labels == ForPod(name, ReplicaName(name, pvc), pvc)
  }

  /** A pod which the operator has created: of some replica of some directory, or of some proxy. */
  ghost predicate OperatorPod(pod: ListedPod) {
    || (exists name: string, pvc: Pvc :: PodOf(pod, name, pvc))
    || (exists name: string :: pod.labels == ForProxy(name))
  }

  function Selected(selector: LabelSet, pods: seq<ListedPod>): (r: seq<ListedPod>)
    ensures forall p :: p in r <==> p in pods && Selects(selector, p.labels)
    ensures (forall p | p in pods :: !Selects(selector, p.labels)) ==> r == []
  {
    if pods == [] then []
    else if Selects(selector, pods[0].labels) then [pods[0]] + Selected(selector, pods[1..])
    else Selected(selector, pods[1..])
  }

  lemma OperatorPodNotSelected(name: string, p: ListedPod)
    requires OperatorPod(p)
    ensures !Selects(ForApp(name, ""), p.labels)
  {
    if n: string, q: Pvc :| PodOf(p, n, q) {
      AppSelectorMissesEveryPod(name, n, q);
    } else {
      var n: string :| p.labels == ForProxy(n);
      AppSelectorMissesEveryPod(name, n, "p");
    }
  }

  /** The pods which the operator has not created. */
  ghost function Others(pods: seq<ListedPod>): seq<ListedPod> {
    if pods == [] then []
    else if OperatorPod(pods[0]) then Others(pods[1..])
    else [pods[0]] + Others(pods[1..])
  }

  /**
   * As it is written, the check selects by LabelsForApp, which no pod of the operator carries. What it allows depends on the
   * pods of others only; when there is none which carries these labels, it never refuses because a pod is not ready, nor
   * because the primary write master would be removed: every change to a non-empty list is allowed as soon as the proxy
   * has answered.
   */
  lemma {:induction false} PodCheckIsBlind(name: string, pods: seq<ListedPod>, ready: Readiness, pvcs: seq<Pvc>,
                                           primaries: Option<set<string>>)
    ensures Selected(ForApp(name, ""), pods) == Selected(ForApp(name, ""), Others(pods))
    ensures Selected(ForApp(name, ""), Others(pods)) == [] ==>
      (PodsAllow(ByPvc(Selected(ForApp(name, ""), pods)), ready, pvcs, primaries) <==> pvcs == [] || primaries.Some?)
    decreases |pods|
  {
    if pods != [] {
      PodCheckIsBlind(name, pods[1..], ready, pvcs, primaries);
      if OperatorPod(pods[0]) {
        OperatorPodNotSelected(name, pods[0]);
      } else {
        assert Others(pods)[1..] == Others(pods[1..]);
      }
    }
    NoPodsAllow(ready, pvcs, primaries);
  }

  lemma NoPodsAllow(ready: Readiness, pvcs: seq<Pvc>, primaries: Option<set<string>>)
    ensures PodsAllow(ByPvc([]), ready, pvcs, primaries) <==> pvcs == [] || primaries.Some?
  {
    assert ByPvc([]) == map[];
    assert pvcs != [] ==> pvcs[0] in Listed(pvcs);
    assert pvcs == [] ==> Listed(pvcs) == {};
  }

  lemma SelectedIsReplica(name: string, pod: ListedPod)
    requires OperatorPod(pod)
    ensures Selects(ForReplica(name, ""), pod.labels) <==> exists pvc: Pvc :: PodOf(pod, name, pvc)
  {
    if n: string, q: Pvc :| PodOf(pod, n, q) {
      ReplicaSelectorIsExact(name, n, q);
      assert name == n ==> PodOf(pod, name, q);
    } else {
      var n: string :| pod.labels == ForProxy(n);
      ReplicaSelectorIsExact(name, n, "p");
    }
    if q: Pvc :| PodOf(pod, name, q) {
      ReplicaSelectorIsExact(name, name, q);
    }
  }

  lemma PvcOfReplica(pod: ListedPod, name: string, pvc: Pvc)
    requires PodOf(pod, name, pvc)
    ensures PvcOf(pod) == pvc
  {
  }

  /** Selecting by LabelsForReplica, as the controller does, the check is about exactly the replicas of the directory. */
  lemma ReplicaListingIsExact(name: string, pods: seq<ListedPod>, pvc: Pvc)
    requires forall p | p in pods :: OperatorPod(p)
    ensures pvc in ByPvc(Selected(ForReplica(name, ""), pods)) <==> exists p :: p in pods && PodOf(p, name, pvc)
  {
    var selected := Selected(ForReplica(name, ""), pods);
    hide PodOf, PvcOf, OperatorPod, ForReplica, ForPod, Selects, Selected, ByPvc;
    if pvc in ByPvc(selected) {
      var p := ByPvc(selected)[pvc];
      SelectedIsReplica(name, p);
      var q: Pvc :| PodOf(p, name, q);
      PvcOfReplica(p, name, q);
    }
    if p :| p in pods && PodOf(p, name, pvc) {
      SelectedIsReplica(name, p);
      PvcOfReplica(p, name, pvc);
      var i :| 0 <= i < |selected| && selected[i] == p;
      assert PvcOf(selected[i]) == pvc;
    }
  }

  /** With that listing, taking away the primary write master is refused whenever its pod is there. */
  lemma RepairedCheckProtectsPrimary(name: string, pods: seq<ListedPod>, ready: Readiness, pvcs: seq<Pvc>,
                                     primaries: Option<set<string>>, pvc: Pvc)
    requires forall p | p in pods :: OperatorPod(p)
    requires exists p :: p in pods && PodOf(p, name, pvc)
    requires pvc !in pvcs && primaries.Some? && pvc in primaries.value
    ensures !PodsAllow(ByPvc(Selected(ForReplica(name, ""), pods)), ready, pvcs, primaries)
  {
    ReplicaListingIsExact(name, pods, pvc);
  }

  /* ---- updates and deletions ---- */

  /** Only the PVC lists may differ. */
  method ValidateDocumentUpdates(spec: Spec, before: Spec) returns (ok: bool)
    ensures ok <==> spec == before.(pvcs := spec.pvcs, proxyPvc := spec.proxyPvc)
  {
    if spec.image != before.image {
      return false;
    }
    if (spec.proxy, spec.server) != (before.proxy, before.server) {
      return false;
    }
    if spec.resources != before.resources {
      return false;
    }
    if spec.envFrom != before.envFrom {
      return false;
    }
    if spec.env != before.env {
      return false;
    }
    return spec.serviceAccountName == before.serviceAccountName;
  }

  /** The document itself passes. */
  predicate Acceptable(ns: Namespace, spec: Spec) {
    Fit(ns, spec) && ProxyBody(ns, spec.proxy).Some? && LeavesGenerated(ProxyBody(ns, spec.proxy).value)
  }

  /** The checks on an update of before to spec, in their order; stored has the conditions. None where the source panics. */
  method ValidateUpdate(stored: Document, ns: Namespace, before: Spec, spec: Spec, listed: seq<ListedPod>, ready: Readiness,
                        primaries: Option<set<string>>) returns (v: Option<Verdict>)
    requires AllParsed(ns)
    ensures v == None <==> stored.inProgress != True && Fit(ns, spec)
                           && ProxyBody(ns, spec.proxy).Some? && !StringKeys(ProxyBody(ns, spec.proxy).value)
    ensures v.Some? ==>
      v.value == Documents.ValidateUpdate(stored, spec.pvcs, Acceptable(ns, spec),
                                          spec == before.(pvcs := spec.pvcs, proxyPvc := spec.proxyPvc),
                                          PodsAllow(ByPvc(listed), ready, spec.pvcs, primaries))
    ensures v == Some(Admitted) <==>
      && stored.inProgress != True && stored.available != False && Acceptable(ns, spec)
      && spec == before.(pvcs := spec.pvcs, proxyPvc := spec.proxyPvc)
      && PodsAllow(ByPvc(listed), ready, spec.pvcs, primaries)
  {
    hide Fit, LeavesGenerated, PodsAllow, ByPvc, ProxyBody, StringKeys;
    FitIsDistinct(ns, spec);
    LeavesKeyed(ns, spec);
    if stored.inProgress == True {
      return Some(InProgress);
    }
    var check := ValidateDocument(ns, spec);
    if check == Panics {
      return None;
    } else if check == Fails {
      return Some(InvalidDocument);
    }
    if stored.available == False {
      return Some(Failing);
    }
    var ok := ValidateDocumentUpdates(spec, before);
    if !ok {
      return Some(FieldsChanged);
    }
    ok := ValidatePods(listed, ready, spec.pvcs, primaries);
    return Some(if ok then Admitted else PodsNotReady);
  }

  lemma FitIsDistinct(ns: Namespace, spec: Spec)
    ensures Fit(ns, spec) ==> Distinct(spec.pvcs)
  {
  }

  lemma LeavesKeyed(ns: Namespace, spec: Spec)
    ensures Acceptable(ns, spec) ==> StringKeys(ProxyBody(ns, spec.proxy).value)
  {
  }

  /** The verdict on an update, with the pods which this selector picks. */
  ghost predicate Admits(stored: Document, ns: Namespace, before: Spec, spec: Spec, selector: LabelSet, pods: seq<ListedPod>,
                         ready: Readiness, primaries: Option<set<string>>) {
    Documents.ValidateUpdate(stored, spec.pvcs, Acceptable(ns, spec), spec == before.(pvcs := spec.pvcs, proxyPvc := spec.proxyPvc),
                             PodsAllow(ByPvc(Selected(selector, pods)), ready, spec.pvcs, primaries)) == Admitted
  }

  /**
   * With the listing which the controller uses, an admitted update never takes away a primary write master, and changes the
   * replicas only while each one which stays has a pod that is ready.
   */
  lemma RepairedAdmissionIsSafe(stored: Document, ns: Namespace, before: Spec, spec: Spec, name: string, pods: seq<ListedPod>,
                                ready: Readiness, primaries: Option<set<string>>, pvc: Pvc)
    requires forall p | p in pods :: OperatorPod(p)
    requires Admits(stored, ns, before, spec, ForReplica(name, ""), pods, ready, primaries)
    requires exists p :: p in pods && PodOf(p, name, pvc)
    ensures primaries.Some? && pvc in primaries.value ==> pvc in spec.pvcs
    ensures pvc in spec.pvcs && (exists q: Pvc :: q in spec.pvcs <==> !exists p :: p in pods && PodOf(p, name, q)) ==>
      exists p :: p in pods && PodOf(p, name, pvc) && p.name in ready && ready[p.name]
  {
    hide Acceptable, ByPvc, Selected, OperatorPod, Selects;
    var listed := ByPvc(Selected(ForReplica(name, ""), pods));
    EditIsDocEffect(stored, spec.pvcs, Acceptable(ns, spec), spec == before.(pvcs := spec.pvcs, proxyPvc := spec.proxyPvc),
                    PodsAllow(listed, ready, spec.pvcs, primaries));
    ReplicaListingIsExact(name, pods, pvc);
    if pvc in spec.pvcs && exists q: Pvc :: q in spec.pvcs <==> !exists p :: p in pods && PodOf(p, name, q) {
      var q: Pvc :| q in spec.pvcs <==> !exists p :: p in pods && PodOf(p, name, q);
      ReplicaListingIsExact(name, pods, q);
      assert q in listed.Keys <==> q !in Listed(spec.pvcs);
      assert IsReady(ready, listed[pvc].name);
      ListedPodOf(name, pods, pvc);
    }
  }

  predicate IsPvc(q: string) {
    q != "" && IsLower(q)
  }

  /** The directory has a replica pod of this PVC. */
  ghost predicate HasPod(pods: seq<ListedPod>, name: string, pvc: Pvc) {
    exists p :: p in pods && PodOf(p, name, pvc)
  }

  /** The replicas stay the same, or the pods which stay are ready, and those which go are no primary write masters'. */
  ghost predicate Changeable(pods: seq<ListedPod>, name: string, ready: Readiness, pvcs: seq<Pvc>, primaries: Option<set<string>>) {
    || (forall q: Pvc :: q in pvcs <==> HasPod(pods, name, q))
    || (primaries.Some? && forall p, q: Pvc | p in pods && PodOf(p, name, q) ::
          if q in pvcs then p.name in ready && ready[p.name] else q !in primaries.value)
  }

  /**
   * When no two pods have the same PVC, it is admitted exactly when the other checks pass and either the replicas stay the
   * same, or the proxy has answered, the pods which stay are ready, and those which go are no primary write masters'.
   */
  lemma RepairedAdmitsExactlyWhen(stored: Document, ns: Namespace, before: Spec, spec: Spec, name: string, pods: seq<ListedPod>,
                                  ready: Readiness, primaries: Option<set<string>>)
    requires forall p | p in pods :: OperatorPod(p)
    requires forall p, q, pvc: Pvc | p in pods && q in pods && PodOf(p, name, pvc) && PodOf(q, name, pvc) :: p == q
    ensures Admits(stored, ns, before, spec, ForReplica(name, ""), pods, ready, primaries)
            <==> && stored.inProgress != True && stored.available != False && Acceptable(ns, spec)
                 && spec == before.(pvcs := spec.pvcs, proxyPvc := spec.proxyPvc)
                 && Changeable(pods, name, ready, spec.pvcs, primaries)
  {
    hide Acceptable, ByPvc, Selected, OperatorPod, Selects, PodOf, ForReplica, PodsAllow, Changeable;
    AcceptableIsDistinct(ns, spec);
    RepairedAllowsExactlyWhen(name, pods, ready, spec.pvcs, primaries);
  }

  lemma RepairedAllowsExactlyWhen(name: string, pods: seq<ListedPod>, ready: Readiness, pvcs: seq<Pvc>,
                                  primaries: Option<set<string>>)
    requires forall p | p in pods :: OperatorPod(p)
    requires forall p, q, pvc: Pvc | p in pods && q in pods && PodOf(p, name, pvc) && PodOf(q, name, pvc) :: p == q
    ensures PodsAllow(ByPvc(Selected(ForReplica(name, ""), pods)), ready, pvcs, primaries)
            <==> Changeable(pods, name, ready, pvcs, primaries)
  {
    hide ByPvc, Selected, OperatorPod, Selects, PodOf, ForReplica, PodsAllow, Changeable;
    var listed := ByPvc(Selected(ForReplica(name, ""), pods));
    OnlyReplicasListed(name, pods);
    forall q: Pvc ensures q in listed <==> HasPod(pods, name, q) {
      ReplicaListingIsExact(name, pods, q);
    }
    forall q: Pvc | q in listed ensures listed[q] in pods && PodOf(listed[q], name, q) {
      ListedPodOf(name, pods, q);
    }
    AllowsExactlyWhen(listed, name, pods, ready, pvcs, primaries);
  }

  lemma AllowsExactlyWhen(listed: map<string, ListedPod>, name: string, pods: seq<ListedPod>, ready: Readiness, pvcs: seq<Pvc>,
                          primaries: Option<set<string>>)
    requires forall q: string | q in listed :: IsPvc(q)
    requires forall q: Pvc :: q in listed <==> HasPod(pods, name, q)
    requires forall q: Pvc | q in listed :: listed[q] in pods && PodOf(listed[q], name, q)
    requires forall p, q, pvc: Pvc | p in pods && q in pods && PodOf(p, name, pvc) && PodOf(q, name, pvc) :: p == q
    ensures PodsAllow(listed, ready, pvcs, primaries) <==> Changeable(pods, name, ready, pvcs, primaries)
  {
    hide PodOf;
    SameListing(listed, pvcs);
    InListing(pvcs);
    hide Listed;
    forall p, q: Pvc | p in pods && PodOf(p, name, q) ensures q in listed && listed[q] == p {
      assert HasPod(pods, name, q);
    }
    hide HasPod;
    if forall q: string | q in listed :: MayBe(listed[q], q, ready, pvcs, primaries) {
      forall p, q: Pvc | p in pods && PodOf(p, name, q) ensures MayBe(p, q, ready, pvcs, primaries) {
        assert q in listed && listed[q] == p;
      }
    } else {
      var q: string :| q in listed && !MayBe(listed[q], q, ready, pvcs, primaries);
      var pvc: Pvc := q;
      assert PodOf(listed[q], name, pvc);
    }
  }

  /** The pod of this PVC is ready if it stays, and no primary write master's if it goes. */
  predicate MayBe(pod: ListedPod, q: string, ready: Readiness, pvcs: seq<Pvc>, primaries: Option<set<string>>) {
    if q in Listed(pvcs) then pod.name in ready && ready[pod.name] else primaries.Some? && q !in primaries.value
  }

  lemma InListing(pvcs: seq<Pvc>)
    ensures forall q: Pvc :: q in Listed(pvcs) <==> q in pvcs
    ensures forall q: string | q in Listed(pvcs) :: IsPvc(q)
  {
    forall q: string | q in Listed(pvcs) ensures IsPvc(q) {
      var i :| 0 <= i < |pvcs| && pvcs[i] == q;
    }
  }

  /** The keys of the listing are PVCs. */
  lemma OnlyReplicasListed(name: string, pods: seq<ListedPod>)
    requires forall p | p in pods :: OperatorPod(p)
    ensures forall q: string | q in ByPvc(Selected(ForReplica(name, ""), pods)) :: IsPvc(q)
  {
    hide PodOf, PvcOf, OperatorPod, ForReplica, ForPod, Selects;
    forall q: string | q in ByPvc(Selected(ForReplica(name, ""), pods)) ensures IsPvc(q) {
      var p := ByPvc(Selected(ForReplica(name, ""), pods))[q];
      assert p in Selected(ForReplica(name, ""), pods);
      SelectedIsReplica(name, p);
      var pvc: Pvc :| PodOf(p, name, pvc);
      PvcOfReplica(p, name, pvc);
    }
  }

  lemma SameListing(listed: map<string, ListedPod>, pvcs: seq<Pvc>)
    requires forall q: string | q in listed :: IsPvc(q)
    ensures listed.Keys == Listed(pvcs) <==> forall q: Pvc :: q in pvcs <==> q in listed
  {
    InListing(pvcs);
    hide Listed;
    if forall q: Pvc :: q in pvcs <==> q in listed {
      forall q: string ensures q in listed.Keys <==> q in Listed(pvcs) {
        if q in listed.Keys || q in Listed(pvcs) {
          var pvc: Pvc := q;
          assert pvc in pvcs <==> pvc in listed;
        }
      }
      assert listed.Keys == Listed(pvcs);
    }
    if listed.Keys == Listed(pvcs) {
      forall q: Pvc ensures q in pvcs <==> q in listed {
        assert q in listed.Keys <==> q in Listed(pvcs);
      }
    }
  }

  lemma ListedPodOf(name: string, pods: seq<ListedPod>, pvc: Pvc)
    requires forall p | p in pods :: OperatorPod(p)
    requires pvc in ByPvc(Selected(ForReplica(name, ""), pods))
    ensures var p := ByPvc(Selected(ForReplica(name, ""), pods))[pvc]; p in pods && PodOf(p, name, pvc)
  {
    var p := ByPvc(Selected(ForReplica(name, ""), pods))[pvc];
    hide PodOf, PvcOf, OperatorPod, ForReplica, ForPod, Selects;
    assert p in Selected(ForReplica(name, ""), pods);
    SelectedIsReplica(name, p);
    var q: Pvc :| PodOf(p, name, q);
    PvcOfReplica(p, name, q);
  }

  /** With the listing as it is written, an update which passes the other checks is admitted as soon as the proxy has answered. */
  lemma AdmissionIsBlind(stored: Document, ns: Namespace, before: Spec, spec: Spec, name: string, pods: seq<ListedPod>,
                         ready: Readiness, primaries: Option<set<string>>)
    requires Selected(ForApp(name, ""), Others(pods)) == []
    ensures Admits(stored, ns, before, spec, ForApp(name, ""), pods, ready, primaries)
            <==> && stored.inProgress != True && stored.available != False && Acceptable(ns, spec)
                 && spec == before.(pvcs := spec.pvcs, proxyPvc := spec.proxyPvc) && (spec.pvcs == [] || primaries.Some?)
  {
    hide Acceptable, PodsAllow, ByPvc, Selected, Others;
    PodCheckIsBlind(name, pods, ready, spec.pvcs, primaries);
    AcceptableIsDistinct(ns, spec);
  }

  lemma AcceptableIsDistinct(ns: Namespace, spec: Spec)
    ensures Acceptable(ns, spec) ==> Distinct(spec.pvcs)
  {
    FitIsDistinct(ns, spec);
  }

  /* ---- the primary write masters ---- */

  const ATTR := "ibm-slapdProxyBackendServerName="

  /** The text matches the name as a regular expression: a dot stands for any character of a line. */
  predicate Fits(name: string, text: string) {
    |text| == |name| && forall k | 0 <= k < |name| :: text[k] == name[k] || (name[k] == '.' && text[k] != '\n')
  }

  predicate AttrAt(dn: string, i: int) {
    0 <= i <= |dn| - |ATTR| && dn[i..i + |ATTR|] == ATTR
  }

  /** At i stands the attribute, its value up to the dash, and one more character. */
  predicate Hit(dn: string, name: string, i: int) {
    var v := i + |ATTR|;
    && AttrAt(dn, i) && v + |name| + 1 < |dn|
    && Fits(name, dn[v..v + |name|]) && dn[v + |name|] == '-'
  }

  /** The last hit before k, which is where a greedy prefix ends; -1 if there is none. */
  function LastHit(dn: string, name: string, k: nat): (r: int)
    ensures -1 <= r < k && (r >= 0 ==> Hit(dn, name, r))
    ensures forall i | r < i < k :: !Hit(dn, name, i)
  {
    if k == 0 then -1 else if Hit(dn, name, k - 1) then k - 1 else LastHit(dn, name, k - 1)
  }

  /** The index of the first plus sign or comma at or behind k, or the length. */
  function ValueEnd(s: string, k: nat): (e: nat)
    requires k <= |s|
    ensures k <= e <= |s| && (e < |s| ==> s[e] == '+' || s[e] == ',')
    ensures forall i | k <= i < e :: s[i] != '+' && s[i] != ','
    decreases |s| - k
  {
    if k == |s| || s[k] == '+' || s[k] == ',' then k else ValueEnd(s, k + 1)
  }

  /** The submatch of .*ibm-slapdProxyBackendServerName=<name>-(.[^+,]*) in a DN without line breaks. */
  function WriteMaster(dn: string, name: string): Option<string>
    requires '\n' !in dn
  {
    var i := LastHit(dn, name, |dn|);
    if i < 0 then None
    else
      var v := i + |ATTR| + |name| + 1;
      Some(dn[v..ValueEnd(dn, v + 1)])
  }

  lemma LowerName(directory: string, pvc: Pvc)
    ensures ReplicaName(directory, pvc) == ToLower(directory) + "-" + pvc
  {
    var r, s := ReplicaName(directory, pvc), ToLower(directory) + "-" + pvc;
    assert forall i | 0 <= i < |pvc| :: s[|directory| + 1 + i] == pvc[i] && r[|directory| + 1..][i] == r[|directory| + 1 + i];
    assert r == s;
  }

  /** A DN in which the printed name of a replica is the value of the attribute. */
  function Dn(before: string, directory: string, pvc: Pvc, rest: string): string {
    before + ATTR + ReplicaName(directory, pvc) + rest
  }

  lemma Part(a: string, b: string, c: string)
    ensures var s := a + b + c;
      s[|a|..|a| + |b|] == b && s[|a| + |b|..] == c
  {
  }

  lemma Regrouped(a: string, b: string, c: string, d: string, e: string, f: string)
    ensures a + b + (c + d + e) + f == a + b + (c + d + e + f) == (a + b) + c + (d + e + f) == (a + b + c) + d + (e + f)
            == (a + b + c + d) + e + f
  {
  }

  lemma DnParts(before: string, directory: string, pvc: Pvc, rest: string)
    ensures var dn, name := Dn(before, directory, pvc, rest), ToLower(directory);
      var i := |before|;
      var v := i + |ATTR| + |name| + 1;
      && v + |pvc| <= |dn| && dn[v..v + |pvc|] == pvc && dn[v + |pvc|..] == rest && Hit(dn, name, i)
  {
    LowerName(directory, pvc);
    var dn, name, dash := Dn(before, directory, pvc, rest), ToLower(directory), "-";
    assert Fits(name, name);
    hide ReplicaName, ToLower, Fits;
    Regrouped(before, ATTR, name, dash, pvc, rest);
    Part(before, ATTR, name + dash + pvc + rest);
    Part(before + ATTR, name, dash + pvc + rest);
    Part(before + ATTR + name, dash, pvc + rest);
    Part(before + ATTR + name + dash, pvc, rest);
    assert dn[|before| + |ATTR| + |name|..|before| + |ATTR| + |name| + 1] == dash;
  }

  /**
   * In a DN whose last backend server is the printed name of a replica, the extraction gives the PVC of that replica
   * exactly when, behind its first character, the PVC has no plus sign and no comma.
   */
  lemma WriteMasterRoundTrip(before: string, directory: string, pvc: Pvc, rest: string)
    requires rest == "" || rest[0] == '+' || rest[0] == ','
    requires '\n' !in Dn(before, directory, pvc, rest)
    requires forall i | i > |before| :: !AttrAt(Dn(before, directory, pvc, rest), i)
    ensures WriteMaster(Dn(before, directory, pvc, rest), ToLower(directory)) == Some(pvc) <==> '+' !in pvc[1..] && ',' !in pvc[1..]
  {
    var dn, name := Dn(before, directory, pvc, rest), ToLower(directory);
    DnParts(before, directory, pvc, rest);
    hide ReplicaName, Dn, ToLower, Fits;
    assert LastHit(dn, name, |dn|) == |before|;
    ValueEnds(dn, |before| + |ATTR| + |name| + 1, pvc, rest);
  }

  lemma ValueEnds(s: string, v: nat, pvc: Pvc, rest: string)
    requires v + |pvc| <= |s| && s[v..v + |pvc|] == pvc && s[v + |pvc|..] == rest
    requires rest == "" || rest[0] == '+' || rest[0] == ','
    ensures s[v..ValueEnd(s, v + 1)] == pvc <==> '+' !in pvc[1..] && ',' !in pvc[1..]
  {
    var e := ValueEnd(s, v + 1);
    assert forall k | 0 <= k < |pvc| :: pvc[k] == s[v + k];
    if '+' !in pvc[1..] && ',' !in pvc[1..] {
      forall i | v + 1 <= i < v + |pvc| ensures s[i] != '+' && s[i] != ',' {
        assert s[i] == pvc[i - v] == pvc[1..][i - v - 1];
      }
      assert rest != "" ==> s[v + |pvc|] == rest[0];
      assert e == v + |pvc|;
    } else {
      var k :| 0 <= k < |pvc[1..]| && (pvc[1..][k] == '+' || pvc[1..][k] == ',');
      assert s[v + k + 1] == pvc[k + 1] && e <= v + k + 1;
      assert |s[v..e]| < |pvc|;
    }
  }

  datatype Attribute = Attribute(name: string, values: seq<string>)

  datatype Entry = Entry(dn: string, attributes: seq<Attribute>)

  const ROLE := Attribute("ibm-slapdProxyCurrentServerRole", ["primarywriteserver"])

  /** One of the entries names p as a primary write master of this directory. */
  predicate NamesPrimary(directory: string, entries: seq<Entry>, p: string)
    requires forall e | e in entries :: '\n' !in e.dn
  {
    exists i | 0 <= i < |entries| :: ROLE in entries[i].attributes && WriteMaster(entries[i].dn, ToLower(directory)) == Some(p)
  }

  /** An entry as the proxy returns it: the PVC of its last backend server is a primary write master if the role says so. */
  lemma PrimaryIsRead(before: string, directory: string, pvc: Pvc, rest: string, role: string, p: string)
    requires rest == "" || rest[0] == '+' || rest[0] == ','
    requires var dn := before + "ibm-slapdProxyBackendServerName=" + ReplicaName(directory, pvc) + rest;
      '\n' !in dn && forall i | i > |before| :: !AttrAt(dn, i)
    requires '+' !in pvc[1..] && ',' !in pvc[1..]
    ensures var dn := before + "ibm-slapdProxyBackendServerName=" + ReplicaName(directory, pvc) + rest;
      NamesPrimary(directory, [Entry(dn, [Attribute("ibm-slapdProxyCurrentServerRole", [role])])], p)
      <==> role == "primarywriteserver" && p == pvc
  {
    var dn := before + "ibm-slapdProxyBackendServerName=" + ReplicaName(directory, pvc) + rest;
    var attribute := Attribute("ibm-slapdProxyCurrentServerRole", [role]);
    assert dn == Dn(before, directory, pvc, rest);
    WriteMasterRoundTrip(before, directory, pvc, rest);
    assert [Entry(dn, [attribute])][0].attributes == [attribute];
    assert ROLE in [attribute] <==> role == "primarywriteserver" by {
      assert attribute.values[0] == role && ROLE.values[0] == "primarywriteserver";
    }
    hide WriteMaster, ReplicaName, Dn;
  }

  /** The PVCs which the entries name as primary write masters of this directory. */
  method PrimaryWriteMasters(directory: string, entries: seq<Entry>) returns (primaries: set<string>)
    requires forall e | e in entries :: '\n' !in e.dn
    ensures forall p :: p in primaries <==> NamesPrimary(directory, entries, p)
  {
    primaries := {};
    for i := 0 to |entries|
      invariant forall p :: p in primaries <==>
        exists j | 0 <= j < i :: ROLE in entries[j].attributes && WriteMaster(entries[j].dn, ToLower(directory)) == Some(p)
    {
      var entry, found := entries[i], WriteMaster(entries[i].dn, ToLower(directory));
      ghost var was := primaries;
      for j := 0 to |entry.attributes|
        invariant primaries == if ROLE in entry.attributes[..j] && found.Some? then was + {found.value} else was
      {
        assert entry.attributes[..j + 1] == entry.attributes[..j] + [entry.attributes[j]];
        var attr := entry.attributes[j];
        if attr.name == ROLE.name && |attr.values| == 1 && attr.values[0] == "primarywriteserver" {
          assert attr.values == ["primarywriteserver"];
          if found.Some? {
            primaries := primaries + {found.value};
          }
        }
      }
      assert entry.attributes[..|entry.attributes|] == entry.attributes;
    }
  }
}
