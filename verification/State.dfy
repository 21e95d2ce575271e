/** The stored document: the part of the custom resource on which the protocol depends. */
module Documents {
  import opened Names

  /** The status of one entry of Status.Conditions. */
  datatype Flag = Unset | True | False

  datatype Option<+T> = None | Some(value: T)

  datatype Document = Document(pvcs: seq<Pvc>, version: nat, generation: nat, inProgress: Flag, available: Flag)

  predicate Distinct<T(==)>(items: seq<T>) {
    forall i, j | 0 <= i < j < |items| :: items[i] != items[j]
  }

  function SetOf<T>(items: seq<T>): set<T> {
    set x | x in items
  }

  lemma PrefixGrows<T>(items: seq<T>, i: nat)
    requires i < |items|
    ensures SetOf(items[..i + 1]) == SetOf(items[..i]) + {items[i]}
    ensures SetOf(items[i..]) == SetOf(items[i + 1..]) + {items[i]}
    ensures Distinct(items) ==> items[i] !in SetOf(items[..i])
    ensures items[i] in SetOf(items) && SetOf(items[..i]) <= SetOf(items)
  {
    assert items[..i + 1] == items[..i] + [items[i]];
    assert items[i..] == [items[i]] + items[i + 1..];
  }

  datatype Verdict = Admitted | InProgress | InvalidDocument | Failing | FieldsChanged | PodsNotReady

  /**
   * The order of the checks made on an update; the last three inputs are the outcomes of the other validators
   * (Webhook.ValidateUpdate).
   */
  function ValidateUpdate(stored: Document, pvcs: seq<Pvc>, resourcesExist: bool, sameFields: bool, podsAllow: bool): Verdict {
    if stored.inProgress == True then InProgress
    else if !resourcesExist || !Distinct(pvcs) then InvalidDocument
    else if stored.available == False then Failing
    else if !sameFields then FieldsChanged
    else if !podsAllow then PodsNotReady
    else Admitted
  }

  function ValidateDelete(stored: Document): (v: Verdict)
    ensures v == Admitted <==> stored.inProgress != True
  {
    if stored.inProgress == True then InProgress else Admitted
  }

  /** What the API server stores when it admits an update of the PVC list. */
  function Edited(stored: Document, pvcs: seq<Pvc>): Document {
    stored.(pvcs := pvcs, version := stored.version + 1, generation := stored.generation + 1)
  }

  /** What users can do to a document: nothing while it is being processed or once it is failing. */
  ghost predicate DocEffect(d: Document, e: Document) {
    && e.inProgress == d.inProgress && e.available == d.available
    && d.version <= e.version
    && (d.version == e.version ==> e == d)
    && (d.inProgress == True || d.available == False ==> e == d)
    && (Distinct(d.pvcs) ==> Distinct(e.pvcs))
  }

  /** An update is admitted exactly when every check passes; the document may then be deleted, too. */
  lemma EditIsDocEffect(d: Document, pvcs: seq<Pvc>, exist: bool, same: bool, pods: bool)
    ensures ValidateUpdate(d, pvcs, exist, same, pods) == Admitted
            <==> d.inProgress != True && d.available != False && exist && Distinct(pvcs) && same && pods
    ensures ValidateUpdate(d, pvcs, exist, same, pods) == Admitted ==>
      DocEffect(d, Edited(d, pvcs)) && ValidateDelete(d) == Admitted
  {
  }
}

/**
 * Every object of the cluster which the protocol reads or writes, and what moves them besides the operator. Objects are
 * keyed by PVC: within one directory names and PVCs determine each other (Names.ReplicaNameIsOne).
 */
module States {
  import opened Names
  import opened Documents

  datatype PodStatus = Waiting | Running(ready: bool, restarts: nat) | Finished

  datatype Pod = Pod(suffix: Suffix, status: PodStatus)

  /** A replica's service, by its name's PVC, keeps the port and the PVC label it was created with. */
  datatype Service = Service(port: int, selects: Pvc)

  /** What a PVC holds: its replication agreements, by destination id, and the volumes it has been seeded from so far. */
  datatype Volume = Volume(agreements: multiset<string>, seeds: seq<Pvc>)

  /**
   * A seed job: while active it mounts its source read-only and its destination for writing; base is what the
   * destination had been seeded from before.
   */
  datatype Job = Job(source: Pvc, failed: nat, succeeded: nat, active: bool, base: seq<Pvc>)

  /** The proxy's deployment and its service, each with its port. */
  datatype Proxy = Proxy(deployment: Option<int>, service: Option<int>, restarts: nat)

  /** strays are services which the operator created under a name which is no replica's. */
  datatype State = State(
    name: string,
    doc: Document,
    replicaSets: set<Pvc>,
    pods: map<Pvc, Pod>,
    services: map<Pvc, Service>,
    strays: set<string>,
    jobs: map<Pvc, Job>,
    configMaps: map<string, string>,
    proxy: Proxy,
    volumes: map<Pvc, Volume>)

  function VolumeOf(s: State, p: Pvc): Volume {
    if p in s.volumes then s.volumes[p] else Volume(multiset{}, [])
  }

  /** p's volume holds an agreement with q. */
  predicate Edge(s: State, p: Pvc, q: Pvc) {
    ReplicaName(s.name, q) in VolumeOf(s, p).agreements
  }

  /** No pod mounts p, and no ReplicaSet can start one. */
  predicate Unmounted(s: State, p: Pvc) {
    p !in s.replicaSets && p !in s.pods
  }

  predicate Seeding(s: State, p: Pvc) {
    p in s.jobs && s.jobs[p].active
  }

  predicate Quiet(s: State) {
    forall p | p in s.jobs :: !s.jobs[p].active
  }

  /** No active job mounts p. */
  ghost predicate Untouched(s: State, p: Pvc) {
    !Seeding(s, p) && forall q | q in s.jobs && s.jobs[q].active :: s.jobs[q].source != p
  }

  /** Volume exclusion: what an active seed job mounts, no replica pod mounts, and no other job writes. */
  ghost predicate Exclusive(s: State) {
    forall p | p in s.jobs && s.jobs[p].active ::
      && Unmounted(s, p)
      && Unmounted(s, s.jobs[p].source)
      && !Seeding(s, s.jobs[p].source)
  }

  /** A job which succeeded has seeded its destination once, from its source; an active one has not yet. */
  predicate Accounts(job: Job, dest: Volume) {
    && (job.active ==> job.succeeded == 0 && dest.seeds == job.base)
    && (job.succeeded > 0 ==> dest.seeds == job.base + [job.source])
  }

  ghost predicate Accounted(s: State) {
    forall p | p in s.jobs :: Accounts(s.jobs[p], VolumeOf(s, p))
  }

  /** What holds of every state the cluster is ever in. */
  ghost predicate Inv(s: State) {
    Accounted(s) && Distinct(s.doc.pvcs)
  }

  /** No volume holds two agreements with the same destination. */
  ghost predicate Single(volumes: map<Pvc, Volume>) {
    forall p, id | p in volumes :: volumes[p].agreements[id] <= 1
  }

  /** The pods without a ReplicaSet. */
  function Orphans(s: State): set<Pvc> {
    s.pods.Keys - s.replicaSets
  }

  /** Every ReplicaSet has its pod, and every pod its ReplicaSet. */
  ghost predicate Sound(s: State) {
    s.pods.Keys == s.replicaSets
  }

  /** The replicas of these PVCs are up: they have a ReplicaSet and its pod. */
  ghost predicate Up(s: State, keep: set<Pvc>) {
    keep <= s.replicaSets && keep <= s.pods.Keys
  }

  /** Every replica has its service, and every service is that of a replica. */
  ghost predicate Served(s: State) {
    s.services.Keys == s.replicaSets && forall p | p in s.services :: s.services[p].selects == p
  }

  /** Every pair of distinct PVCs of r has an agreement in at least one direction. */
  ghost predicate Connected(s: State, r: set<Pvc>) {
    forall p, q | p in r && q in r && p != q :: Edge(s, p, q) || Edge(s, q, p)
  }

  /** No job has started since s. */
  ghost predicate NoNewJobs(s: State, t: State) {
    forall p | Seeding(t, p) :: Seeding(s, p) && t.jobs[p].source == s.jobs[p].source
  }

  /** Nor has anything been written but what was being seeded. */
  ghost predicate Still(s: State, t: State) {
    && NoNewJobs(s, t)
    && (forall p: Pvc | !Seeding(s, p) :: VolumeOf(t, p) == VolumeOf(s, p))
  }

  function ProxyConfig(s: State): Option<string> {
    if ProxyName(s.name) in s.configMaps then Some(s.configMaps[ProxyName(s.name)]) else None
  }

  /* ---- the other actors ---- */

  datatype Action =
    | StartPod(pvc: Pvc, suffix: Suffix)
    | ReplacePod(pvc: Pvc, suffix: Suffix)
    | MovePod(pvc: Pvc, status: PodStatus)
    | StopPod(pvc: Pvc)
    | RetryJob(pvc: Pvc)
    | EndJob(pvc: Pvc, ok: bool, agreements: set<string>)
    | ExpireJob(pvc: Pvc)
    | WriteSeed(pvc: Pvc, agreements: set<string>)
    | EditSpec(pvcs: seq<Pvc>)

  /**
   * One step of another actor, and nothing when it is not enabled: the ReplicaSet controller starts a pod, or replaces
   * it by another one, a pod changes, garbage collection removes the pod of a deleted ReplicaSet, the Job controller
   * retries a failed pod, records the end of a job and removes an ended one, a seed job overwrites its destination, in
   * part or all of it when it succeeds, and leaves some set of agreements there, or a user edits the document.
   */
  function React(s: State, a: Action): State {
    match a
    case StartPod(p, suffix) =>
      if p in s.replicaSets && p !in s.pods then s.(pods := s.pods[p := Pod(suffix, Waiting)]) else s
    case ReplacePod(p, suffix) =>
      if p in s.replicaSets && p in s.pods then s.(pods := s.pods[p := Pod(suffix, Waiting)]) else s
    case MovePod(p, status) =>
      if p in s.pods then s.(pods := s.pods[p := s.pods[p].(status := status)]) else s
    case StopPod(p) =>
      if p in s.pods && p !in s.replicaSets then s.(pods := s.pods - {p}) else s
    case RetryJob(p) =>
      if Seeding(s, p) then s.(jobs := s.jobs[p := s.jobs[p].(failed := s.jobs[p].failed + 1)]) else s
    case EndJob(p, ok, agreements) =>
      if Seeding(s, p) then
        var job := s.jobs[p].(active := false);
        if ok then s.(jobs := s.jobs[p := job.(succeeded := job.succeeded + 1)],
                      volumes := s.volumes[p := Volume(multiset(agreements), VolumeOf(s, p).seeds + [job.source])])
        else s.(jobs := s.jobs[p := job.(failed := job.failed + 1)])
      else s
    case ExpireJob(p) =>
      if p in s.jobs && !s.jobs[p].active then s.(jobs := s.jobs - {p}) else s
    case WriteSeed(p, agreements) =>
      if Seeding(s, p) then s.(volumes := s.volumes[p := VolumeOf(s, p).(agreements := multiset(agreements))]) else s
    case EditSpec(pvcs) =>
      if ValidateUpdate(s.doc, pvcs, true, true, true) == Admitted then s.(doc := Edited(s.doc, pvcs)) else s
  }

  /** A pod appears only for a ReplicaSet, stays as long as that, and is replaced only meanwhile. */
  ghost predicate PodsEffect(s: State, t: State) {
    && (forall p | p in t.pods :: p in s.replicaSets || (p in s.pods && t.pods[p].suffix == s.pods[p].suffix))
    && (forall p | p in s.pods && p in s.replicaSets :: p in t.pods)
  }

  /** No job appears or restarts, and only the destination of an active one is written. */
  ghost predicate JobsEffect(s: State, t: State) {
    && (forall p | p in t.jobs ::
      && p in s.jobs && t.jobs[p].source == s.jobs[p].source && t.jobs[p].base == s.jobs[p].base
      && (t.jobs[p].active ==> s.jobs[p].active))
    && (forall p: Pvc | !Seeding(s, p) :: VolumeOf(t, p) == VolumeOf(s, p))
  }

  ghost predicate SameShape(s: State, t: State) {
    && t.name == s.name && t.replicaSets == s.replicaSets && t.services == s.services && t.strays == s.strays
    && t.configMaps == s.configMaps && t.proxy == s.proxy
  }

  /** What any number of such steps can do. */
  ghost predicate EnvEffect(s: State, t: State) {
    SameShape(s, t) && DocEffect(s.doc, t.doc) && PodsEffect(s, t) && JobsEffect(s, t)
  }

  predicate MovesPod(a: Action) {
    a.StartPod? || a.ReplacePod? || a.MovePod? || a.StopPod?
  }

  /** A step changes pods, or jobs and volumes, or the document. */
  lemma ReactParts(s: State, a: Action)
    ensures MovesPod(a) ==> React(s, a) == s.(pods := React(s, a).pods)
    ensures !MovesPod(a) && !a.EditSpec? ==> React(s, a) == s.(jobs := React(s, a).jobs, volumes := React(s, a).volumes)
    ensures a.EditSpec? ==> React(s, a) == s.(doc := React(s, a).doc)
  {
  }

  lemma ReactPods(s: State, a: Action)
    requires MovesPod(a)
    ensures PodsEffect(s, React(s, a))
  {
  }

  /** What one job's step leaves of it, and of its destination. */
  ghost predicate JobEffect(s: State, t: State, p: Pvc) {
    && t.jobs - {p} == s.jobs - {p}
    && (forall q: Pvc | q != p :: VolumeOf(t, q) == VolumeOf(s, q))
    && (p in t.jobs ==> p in s.jobs && t.jobs[p].source == s.jobs[p].source && t.jobs[p].base == s.jobs[p].base)
    && (Seeding(t, p) ==> Seeding(s, p))
    && (!Seeding(s, p) ==> VolumeOf(t, p) == VolumeOf(s, p))
    && (p in t.jobs && Accounts(s.jobs[p], VolumeOf(s, p)) ==> Accounts(t.jobs[p], VolumeOf(t, p)))
  }

  lemma ReactJob(s: State, a: Action)
    requires !MovesPod(a) && !a.EditSpec?
    ensures JobEffect(s, React(s, a), a.pvc)
  {
    match a
    case EndJob(p, ok, agreements) => EndJobEffect(s, a);
    case RetryJob(p) => assert React(s, a).volumes == s.volumes;
    case ExpireJob(p) => assert React(s, a).volumes == s.volumes;
    case WriteSeed(p, agreements) => assert React(s, a).jobs == s.jobs;
  }

  lemma EndJobEffect(s: State, a: Action)
    requires a.EndJob?
    ensures JobEffect(s, React(s, a), a.pvc)
  {
  }

  lemma JobEffectStays(s: State, t: State, p: Pvc)
    requires JobEffect(s, t, p)
    ensures JobsEffect(s, t)
    ensures forall q | Seeding(t, q) :: Seeding(s, q) && t.jobs[q].source == s.jobs[q].source
    ensures Accounted(s) ==> Accounted(t)
  {
    hide VolumeOf, Accounts;
    forall q | q in t.jobs && q != p ensures q in s.jobs && t.jobs[q] == s.jobs[q] {
      assert q in t.jobs - {p};
      assert (t.jobs - {p})[q] == t.jobs[q];
    }
  }

  lemma ReactJobs(s: State, a: Action)
    ensures JobsEffect(s, React(s, a)) && NoNewJobs(s, React(s, a))
    ensures Accounted(s) ==> Accounted(React(s, a))
  {
    hide React, JobEffect;
    ReactParts(s, a);
    if !MovesPod(a) && !a.EditSpec? {
      ReactJob(s, a);
      JobEffectStays(s, React(s, a), a.pvc);
    }
  }

  lemma ReactDoc(s: State, a: Action)
    ensures DocEffect(s.doc, React(s, a).doc)
  {
    hide React;
    ReactParts(s, a);
    if a.EditSpec? {
      EditDoc(s, a);
    }
  }

  lemma EditDoc(s: State, a: Action)
    requires a.EditSpec?
    ensures DocEffect(s.doc, React(s, a).doc)
  {
  }

  /** No step of another actor breaks volume exclusion. */
  lemma ReactKeepsExclusive(s: State, a: Action)
    requires Exclusive(s)
    ensures Exclusive(React(s, a))
  {
    hide React;
    var t := React(s, a);
    ReactIsEnvEffect(s, a);
    ReactJobs(s, a);
    forall p | p in t.jobs && t.jobs[p].active
      ensures Unmounted(t, p) && Unmounted(t, t.jobs[p].source) && !Seeding(t, t.jobs[p].source)
    {
      assert Seeding(s, p) && s.jobs[p].source == t.jobs[p].source;
    }
  }

  /** Nor the account of what was seeded. */
  lemma ReactKeepsInv(s: State, a: Action)
    requires Inv(s)
    ensures Inv(React(s, a))
  {
    hide React;
    ReactDoc(s, a);
    ReactJobs(s, a);
  }

  /** No live volume is ever wiped: what a step overwrites, no pod mounts and no job reads. */
  lemma SeedWritesNoLiveVolume(s: State, a: Action, p: Pvc)
    requires Exclusive(s) && VolumeOf(React(s, a), p) != VolumeOf(s, p)
    ensures Unmounted(s, p) && Seeding(s, p) && forall q | q in s.jobs && s.jobs[q].active :: s.jobs[q].source != p
  {
    forall q | q in s.jobs && s.jobs[q].active ensures s.jobs[q].source != p {
      assert !Seeding(s, s.jobs[q].source);
    }
  }

  lemma ReactKeepsSingle(s: State, a: Action)
    requires Single(s.volumes)
    ensures Single(React(s, a).volumes)
  {
  }

  lemma ReactIsEnvEffect(s: State, a: Action)
    ensures EnvEffect(s, React(s, a))
  {
    hide React;
    ReactParts(s, a);
    ReactJobs(s, a);
    ReactDoc(s, a);
    if MovesPod(a) {
      ReactPods(s, a);
    }
  }

  lemma EnvEffectReflexive(s: State)
    ensures EnvEffect(s, s)
    ensures Later(s, s) && Still(s, s)
  {
  }

  lemma EnvEffectTransitive(s: State, t: State, u: State)
    requires EnvEffect(s, t) && EnvEffect(t, u)
    ensures EnvEffect(s, u)
  {
  }

  /** The other actors have moved, and have not disturbed what the operator relies on. */
  ghost predicate Later(s: State, t: State) {
    EnvEffect(s, t) && SameShape(s, t) && Still(s, t) && Orphans(t) <= Orphans(s) && (Sound(s) ==> Sound(t))
  }

  lemma EnvIsLater(s: State, t: State)
    requires EnvEffect(s, t)
    ensures Later(s, t)
    ensures forall keep | Up(s, keep) :: Up(t, keep)
  {
  }

  lemma LaterTransitive(s: State, t: State, u: State)
    requires Later(s, t) && Later(t, u)
    ensures Later(s, u)
  {
    EnvEffectTransitive(s, t, u);
    EnvIsLater(s, u);
  }

  lemma StillTransitive(s: State, t: State, u: State)
    requires Still(s, t) && Still(t, u)
    ensures Still(s, u)
  {
    forall p: Pvc | !Seeding(s, p) ensures VolumeOf(u, p) == VolumeOf(s, p) {
      assert !Seeding(t, p);
    }
  }

  /** What no active job mounted, none mounts later. */
  lemma NoNewJobsUntouched(s: State, t: State, p: Pvc)
    requires NoNewJobs(s, t) && Untouched(s, p)
    ensures Untouched(t, p)
  {
    forall q | q in t.jobs && t.jobs[q].active ensures t.jobs[q].source != p {
      assert Seeding(t, q);
    }
  }
}
