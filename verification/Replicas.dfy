/** The operator's procedures on one replica: finding its pod, waiting, starting and stopping. */
module Replicas {
  import opened Names
  import opened Documents
  import opened States
  import opened Clusters

  datatype ServerConfig = ServerConfig(
    port: int, secure: bool, licenseKey: string, adminDn: string, adminPwd: string, suffixes: seq<string>)

  /** The document as the reconcile read it, and the server configuration. */
  class RequestHandle {
    var directory: Document
    var config: ServerConfig

    constructor ()
      ensures directory == Document([], 0, 0, Unset, Unset)
    {
      directory := Document([], 0, 0, Unset, Unset);
      config := ServerConfig(0, false, "", "", "", []);
    }
  }

  /** Nothing but ReplicaSets and services has been changed, to these; no job has started. */
  ghost predicate Settled(s: State, t: State, rs: set<Pvc>, services: map<Pvc, Service>) {
    && t.name == s.name && t.replicaSets == rs && t.services == services && t.strays == s.strays
    && t.configMaps == s.configMaps && t.proxy == s.proxy && Still(s, t)
  }

  lemma SameRS(s: State, t: State)
    requires Later(s, t)
    ensures t.replicaSets == s.replicaSets && t.name == s.name
  {
  }

  lemma LaterIsSettled(s: State, t: State)
    requires Later(s, t)
    ensures Settled(s, t, s.replicaSets, s.services)
  {
  }

  lemma SettledTransitive(s: State, t: State, u: State, rs: set<Pvc>, services: map<Pvc, Service>)
    requires Settled(s, t, t.replicaSets, t.services) && Settled(t, u, rs, services)
    ensures Settled(s, u, rs, services)
  {
    StillTransitive(s, t, u);
  }

  /** Only the number of times another pod was taken for a ReplicaSet's own may have grown. */
  ghost predicate OnlyMisled(a: Faults, b: Faults) {
    b == a.(misled := b.misled) && a.misled <= b.misled
  }

  lemma OnlyMisledReflexive(f: Faults)
    ensures OnlyMisled(f, f)
  {
  }

  lemma OnlyMisledTransitive(f: Faults, g: Faults, h: Faults)
    requires OnlyMisled(f, g) && OnlyMisled(g, h)
    ensures OnlyMisled(f, h) && (h == f ==> g == f && h == g)
  {
  }

  /** A pod whose name looks like that of a replica of the directory. */
  predicate Lookalike(directory: string, name: string) {
    '-' in name && IsReplicaName(directory, DeploymentName(name))
  }

  function Resolved<T>(found: Option<T>): Outcome {
    if found.Some? then Ok else Lost
  }

  /**
   * The first pod which the selector of the ReplicaSet picks, once it shows up. A ReplicaSet which is not there, or cannot
   * be read, has no selector, and then that is any pod of the namespace.
   */
  method GetReplicaSetPodName(api: Cluster, name: string) returns (id: Option<PodId>)
    requires api.Valid()
    modifies api`state, api`trace, api`faults
    ensures api.Valid() && Onward(old(api.SoFar()), api.SoFar()) && Later(old(api.state), api.state)
    ensures Told(old(api.SoFar()), api.SoFar(), Resolved(id), Silent)
    ensures OnlyMisled(old(api.faults), api.faults)
    ensures id.Some? ==> if id.value.Own? then Present(api.state, id.value) else !Lookalike(api.directory, id.value.name)
    ensures && id.Some? && api.faults == old(api.faults)
            && IsReplicaName(api.directory, name) && PvcNamed(api.directory, name) in api.state.replicaSets
            ==> id.value.Own? && id.value.pvc == PvcNamed(api.directory, name)
  {
    hide Told, Cluster.Valid, Later;
    ghost var start, p0 := api.state, api.SoFar();
    var found := IsReplicaName(api.directory, name) && PvcNamed(api.directory, name) in api.state.replicaSets;
    Await60(api);
    SameRS(start, api.state);
    ghost var p1 := api.SoFar();
    var read: bool, listed: bool := *, *;
    if found && read {
      var pvc := PvcNamed(api.directory, name);
      id := if listed && pvc in api.state.pods then Some(Own(pvc, api.state.pods[pvc].suffix)) else None;
    } else {
      id := AnyPod(api);
      if found && id.Some? && !(id.value.Own? && id.value.pvc == PvcNamed(api.directory, name)) {
        api.Note(api.faults.(misled := api.faults.misled + 1));
      }
    }
    if id == None {
      APanicIs(NoPod);
      api.GiveUp(NoPod);
      OnwardTransitive(p0, p1, api.SoFar());
    } else {
      ToldSame(p0, p1, api.SoFar());
    }
  }

  /** Reads the ReplicaSet at most 60 times, until its pod has shown up; the last time decides. */
  method Await60(api: Cluster)
    requires api.Valid()
    modifies api`state, api`trace
    ensures api.Valid() && Onward(old(api.SoFar()), api.SoFar()) && Later(old(api.state), api.state)
    ensures Told(old(api.SoFar()), api.SoFar(), Ok, Silent)
  {
    hide Onward, Cluster.Valid, EnvEffect, Told;
    ghost var start, p0 := api.state, api.SoFar();
    api.Others();
    var tries, shown := 0, false;
    while tries < 60 && !shown
      invariant api.Valid() && Onward(p0, api.SoFar()) && Later(start, api.state) && Told(p0, api.SoFar(), Ok, Silent)
    {
      ghost var before, p1 := api.state, api.SoFar();
      api.Others();
      LaterTransitive(start, before, api.state);
      OnwardTransitive(p0, p1, api.SoFar());
      shown := *;
      tries := tries + 1;
    }
  }

  /** Any pod of the namespace; None when it has none. Other pods do not have names like those of replicas. */
  method AnyPod(api: Cluster) returns (id: Option<PodId>)
    ensures id.Some? ==> if id.value.Own? then Present(api.state, id.value) else !Lookalike(api.directory, id.value.name)
  {
    var own: bool, name: string, any: bool := *, *, *;
    if own && api.state.pods.Keys != {} {
      var q :| q in api.state.pods;
      id := Some(Own(q, api.state.pods[q].suffix));
    } else {
      id := if any && !Lookalike(api.directory, name) then Some(Foreign(name)) else None;
    }
  }

  /** Creates the ConfigMap, or updates it when the name is taken. */
  method CreateConfigMap(api: Cluster, name: string, value: string) returns (ok: bool, ghost seen: State)
    requires api.Valid() && api.MaySave(name, value)
    modifies api`state, api`trace
    ensures api.Valid() && Onward(old(api.SoFar()), api.SoFar()) && Later(old(api.state), seen)
    ensures Told(old(api.SoFar()), api.SoFar(), Answer(ok), Silent)
    ensures Answered(ok, seen, api.state, PutConfigMap(name, value))
  {
    hide Onward, Later, EnvEffect, Cluster.Valid, Told;
    ghost var s0, p0 := api.state, api.SoFar();
    var taken;
    ok, taken, seen := api.CreateConfigMap(name, value);
    if taken {
      ghost var s1, p1 := api.state, api.SoFar();
      ok, seen := api.UpdateConfigMap(name, value);
      OnwardTransitive(p0, p1, api.SoFar());
      LaterTransitive(s0, s1, seen);
    }
  }

  /** The replica's pod is ready. */
  predicate Ready(s: State, p: Pvc) {
    p in s.pods && s.pods[p].status.Running? && s.pods[p].status.ready
  }

  /** Waits until the pod is ready, has failed, or the time is over. */
  method WaitForPod(api: Cluster, id: PodId) returns (r: Outcome)
    requires api.Valid()
    modifies api`state, api`trace
    ensures api.Valid() && Onward(old(api.SoFar()), api.SoFar()) && Later(old(api.state), api.state)
    ensures r.Ok? && id.Own? ==> Present(api.state, id) && Ready(api.state, id.pvc)
    ensures !r.Lost? && Told(old(api.SoFar()), api.SoFar(), r, Silent)
  {
    hide Onward, Cluster.Valid, EnvEffect, Later, Told;
    ghost var start, p0 := api.state, api.SoFar();
    EnvEffectReflexive(start);
    OnwardReflexive(p0);
    AnErrorIs(PodFailed(id));
    AnErrorIs(TimeOver);
    var polls :| polls >= 0;
    for i := 0 to polls
      invariant api.Valid() && Onward(p0, api.SoFar()) && Later(start, api.state) && Told(p0, api.SoFar(), Ok, Silent)
    {
      ghost var before, p1 := api.state, api.SoFar();
      ghost var fault;
      var status;
      status, fault := api.GetPod(id);
      LaterTransitive(start, before, api.state);
      ghost var p2 := api.SoFar();
      OnwardTransitive(p0, p1, p2);
      match status {
        case Some(Running(true, _)) => return Ok;
        case Some(Running(false, restarts)) =>
          if restarts > 3 {
            api.GiveUp(PodFailed(id));
            OnwardTransitive(p0, p2, api.SoFar());
            return Err;
          }
        case Some(Finished) =>
          api.GiveUp(PodFailed(id));
          OnwardTransitive(p0, p2, api.SoFar());
          return Err;
        case Some(Waiting) =>
        case None =>
      }
    }
    ghost var p3 := api.SoFar();
    api.GiveUp(TimeOver);
    OnwardTransitive(p0, p3, api.SoFar());
    return Err;
  }

  /** Waits until no pod of that name is found; a failed request counts as that. */
  method WaitForStop(api: Cluster, id: PodId) returns (r: Outcome)
    requires api.Valid()
    modifies api`state, api`trace, api`faults
    ensures api.Valid() && Onward(old(api.SoFar()), api.SoFar()) && Later(old(api.state), api.state) && !r.Lost?
    ensures api.faults == old(api.faults).(misread := api.faults.misread)
    ensures r.Ok? ==> (Present(api.state, id) <==> api.faults.misread != old(api.faults).misread)
    ensures Told(old(api.SoFar()), api.SoFar(), r, Silent)
  {
    hide Told, Cluster.Valid, Later;
    ghost var p0 := api.SoFar();
    r := PollStop(api, id);
    ghost var p1 := api.SoFar();
    if r.Ok? && Present(api.state, id) {
      api.Note(api.faults.(misread := api.faults.misread + 1));
    }
    ToldSame(p0, p1, api.SoFar());
  }

  method PollStop(api: Cluster, id: PodId) returns (r: Outcome)
    requires api.Valid()
    modifies api`state, api`trace
    ensures api.Valid() && Onward(old(api.SoFar()), api.SoFar()) && Later(old(api.state), api.state) && !r.Lost?
    ensures Told(old(api.SoFar()), api.SoFar(), r, Silent)
  {
    hide Onward, Cluster.Valid, EnvEffect, Later, Present, Told;
    ghost var start, p0 := api.state, api.SoFar();
    EnvEffectReflexive(start);
    OnwardReflexive(p0);
    AnErrorIs(TimeOver);
    var polls :| polls >= 0;
    for i := 0 to polls
      invariant api.Valid() && Onward(p0, api.SoFar()) && Later(start, api.state) && Told(p0, api.SoFar(), Ok, Silent)
    {
      ghost var before, p1 := api.state, api.SoFar();
      ghost var fault;
      var status;
      status, fault := api.GetPod(id);
      LaterTransitive(start, before, api.state);
      OnwardTransitive(p0, p1, api.SoFar());
      if status == None {
        return Ok;
      }
    }
    ghost var p2 := api.SoFar();
    api.GiveUp(TimeOver);
    OnwardTransitive(p0, p2, api.SoFar());
    return Err;
  }

  /** The pod of p, if there is still one, is the one which is being waited for. */
  ghost predicate Awaited(s: State, p: Pvc, id: PodId) {
    p in s.pods ==> id == Own(p, s.pods[p].suffix)
  }

  /** Once its ReplicaSet is gone, no other pod comes in its place. */
  lemma LaterIsAwaited(s: State, t: State, p: Pvc, id: PodId)
    requires Later(s, t) && p !in s.replicaSets && Awaited(s, p, id)
    ensures Awaited(t, p, id)
    ensures !Present(t, id) ==> p !in t.pods
    ensures !Present(t, id) ==> Orphans(t) <= Orphans(s) - {p}
    ensures s.pods.Keys - {p} == s.replicaSets ==> t.pods.Keys - {p} == t.replicaSets
  {
  }

  /**
   * Seeing no pod of the name which was resolved means that the replica has stopped exactly when the pod there at the
   * deletion of the ReplicaSet is the resolved one: otherwise there is a course of events in which it is still running.
   */
  lemma StopIsSeenExactlyWhen(s: State, p: Pvc, id: PodId)
    requires p !in s.replicaSets
    ensures (forall t | Later(s, t) && !Present(t, id) :: p !in t.pods) <==> Awaited(s, p, id)
  {
    if Awaited(s, p, id) {
      forall t | Later(s, t) && !Present(t, id) ensures p !in t.pods {
        LaterIsAwaited(s, t, p, id);
      }
    } else {
      var gone := if id.Own? && Present(s, id) then React(s, StopPod(id.pvc)) else s;
      EnvEffectReflexive(s);
      if id.Own? && Present(s, id) {
        NotAwaited(s, p, id);
      }
    }
  }

  lemma NotAwaited(s: State, p: Pvc, id: PodId)
    requires p !in s.replicaSets && !Awaited(s, p, id) && Present(s, id)
    ensures exists t :: Later(s, t) && !Present(t, id) && p in t.pods
  {
    if id.pvc in s.replicaSets {
      var other: Suffix := id.suffix + "x";
      var t := React(s, ReplacePod(id.pvc, other));
      ReactIsEnvEffect(s, ReplacePod(id.pvc, other));
      EnvIsLater(s, t);
      assert other != id.suffix;
    } else {
      ReactIsEnvEffect(s, StopPod(id.pvc));
      EnvIsLater(s, React(s, StopPod(id.pvc)));
    }
  }

  /** In some state from from on, the service of p was gone, and the ReplicaSets were still those of s. */
  ghost predicate ServiceWentFirst(trace: seq<Event>, from: int, s: State, p: Pvc) {
    exists i | from <= i < |trace| && 0 <= i ::
      trace[i].state.services == s.services - {p} && trace[i].state.replicaSets == s.replicaSets
  }

  lemma WentFirst(s: State, t: State, trace: seq<Event>, more: seq<Event>, from: int, p: Pvc)
    requires Settled(s, t, s.replicaSets, s.services - {p}) && trace <= more && from < |trace|
    requires 0 < |trace| && trace[|trace| - 1].state == t
    ensures ServiceWentFirst(more, from, s, p)
  {
    assert more[|trace| - 1] == trace[|trace| - 1];
  }

  /** Deletes the service and the ReplicaSet of a PVC, and waits for the pod which was found first to be gone. */
  method DeleteReplica(api: Cluster, pvc: Pvc) returns (r: Outcome)
    requires api.Valid() && pvc !in api.watch.keep
    modifies api`state, api`trace, api`requests, api`faults
    ensures api.Valid() && Onward(old(api.SoFar()), api.SoFar()) && Told(old(api.SoFar()), api.SoFar(), r, Silent)
    ensures api.requests.clashes == old(api.requests.clashes) && api.faults.refused == old(api.faults.refused)
    ensures r.Ok? ==> api.requests == Mounting(Serving(old(api.requests), false), DeleteReplicaSet(pvc), true, false)
    ensures r.Ok? ==> Settled(old(api.state), api.state, old(api.state.replicaSets) - {pvc}, old(api.state.services) - {pvc})
    ensures r.Ok? ==> ServiceWentFirst(api.trace, old(|api.trace|) - 1, old(api.state), pvc)
    ensures r.Ok? && api.Calm() ==> Orphans(api.state) <= Orphans(old(api.state)) - {pvc}
    ensures r.Ok? && api.Calm() && Sound(old(api.state)) ==> Sound(api.state)
  {
    hide Cluster.Valid, EnvEffect, Still, Onward, Later, Settled, Awaited, Present, Orphans, Sound, Apply, Serving, Mounting,
         Cluster.Calm, Told, ServiceWentFirst;
    ghost var s0, p0 := api.state, api.SoFar();
    ghost var q := api.requests;
    NoClash(q, DeleteReplicaSet(pvc), true);
    NoClash(Serving(q, false), DeleteReplicaSet(pvc), true);
    var podName := ReplicaName(api.directory, pvc);
    var name := GetReplicaSetPodName(api, podName);
    if name == None {
      return Lost;
    }
    ghost var s1, p1 := api.state, api.SoFar();
    var ok;
    ghost var s2, s4;
    ok, s2 := api.DeleteService(podName, pvc);
    ghost var s3, p3 := api.state, api.SoFar();
    api.LastState();
    OnwardTransitive(p0, p1, p3);
    if !ok {
      return Err;
    }
    ok, s4 := api.DeleteReplicaSet(podName, pvc);
    ghost var s5, p5 := api.state, api.SoFar();
    OnwardTransitive(p0, p3, p5);
    if !ok {
      return Err;
    }
    r := ObserveStop(api, pvc, name.value);
    OnwardTransitive(p0, p5, api.SoFar());
    LaterTransitive(s0, s1, s2);
    SettledRequest(s0, s2, DeleteService(pvc));
    OnwardFacts(p0, p3);
    OnwardTransitive(p3, p5, api.SoFar());
    OnwardFacts(p3, api.SoFar());
    WentFirst(s0, s3, p3.trace, api.trace, |p0.trace| - 1, pvc);
    SettledLater(s0, s3, s4);
    Stopped(s0, s4, s5, api.state, pvc, name.value);
  }

  /** Waits for the pod which was found to be gone; it slips when that is not the pod which is there. */
  method ObserveStop(api: Cluster, ghost pvc: Pvc, id: PodId) returns (r: Outcome)
    requires api.Valid()
    modifies api`state, api`trace, api`faults
    ensures api.Valid() && Onward(old(api.SoFar()), api.SoFar()) && Later(old(api.state), api.state) && !r.Lost?
    ensures api.faults == old(api.faults).(misread := api.faults.misread, slips := api.faults.slips)
    ensures api.faults.slips == old(api.faults.slips) + if Awaited(old(api.state), pvc, id) then 0 else 1
    ensures r.Ok? ==> (Present(api.state, id) <==> api.faults.misread != old(api.faults).misread)
    ensures r.Ok? && api.Calm() ==> Awaited(old(api.state), pvc, id) && !Present(api.state, id)
    ensures Told(old(api.SoFar()), api.SoFar(), r, Silent)
  {
    hide Told, Cluster.Valid, Later;
    ghost var p0 := api.SoFar();
    if !Awaited(api.state, pvc, id) {
      api.Note(api.faults.(slips := api.faults.slips + 1));
    }
    ghost var p1 := api.SoFar();
    r := WaitForStop(api, id);
    ToldBehind(p0, p1, api.SoFar());
  }

  /** Deleting a service keeps what is settled. */
  lemma SettledRequest(s: State, t: State, r: Request)
    requires Later(s, t) && r.DeleteService?
    ensures Settled(s, Apply(t, r), s.replicaSets, s.services - {r.pvc})
    ensures Orphans(Apply(t, r)) <= Orphans(s)
    ensures Sound(s) ==> Sound(Apply(t, r))
  {
  }

  lemma SettledLater(s: State, t: State, u: State)
    requires Settled(s, t, t.replicaSets, t.services) && Later(t, u)
    ensures Settled(s, u, t.replicaSets, t.services) && Orphans(u) <= Orphans(t) && (Sound(t) ==> Sound(u))
  {
    LaterIsSettled(t, u);
    SettledTransitive(s, t, u, t.replicaSets, t.services);
  }

  /** From s to t the service went, in u the ReplicaSet has gone too, and v is when no pod was seen any more. */
  lemma Stopped(s: State, t: State, u: State, v: State, p: Pvc, id: PodId)
    requires Settled(s, t, s.replicaSets, s.services - {p}) && u == Apply(t, DeleteReplicaSet(p)) && Later(u, v)
    ensures Settled(s, v, s.replicaSets - {p}, s.services - {p})
    ensures Awaited(u, p, id) && !Present(v, id) ==> Orphans(v) <= Orphans(t) - {p}
    ensures Awaited(u, p, id) && !Present(v, id) && Sound(t) ==> Sound(v)
  {
    assert Settled(s, u, s.replicaSets - {p}, s.services - {p});
    SettledLater(s, u, v);
    if Awaited(u, p, id) {
      LaterIsAwaited(u, v, p, id);
    }
  }

  /**
   * Creates the ReplicaSet of a PVC; a failure of that request is ignored, and then some other pod may be returned.
   */
  method DeployReplica(api: Cluster, pvc: Pvc) returns (id: Option<PodId>)
    requires api.Valid()
    modifies api`state, api`trace, api`requests, api`breaches, api`faults
    ensures api.Valid() && Onward(old(api.SoFar()), api.SoFar()) && Told(old(api.SoFar()), api.SoFar(), Resolved(id), Silent)
    ensures Untouched(old(api.state), pvc) ==> api.breaches == old(api.breaches)
    ensures api.Calm() == old(api.Calm()) && api.faults.refused <= old(api.faults.refused) + 1
    ensures api.requests == Mounting(old(api.requests), CreateReplicaSet(pvc), true, pvc in old(api.state).replicaSets)
    ensures Settled(old(api.state), api.state, api.state.replicaSets, old(api.state.services))
    ensures api.state.replicaSets
            == old(api.state.replicaSets) + if api.faults.refused == old(api.faults.refused) then {pvc} else {}
    ensures Orphans(api.state) <= Orphans(old(api.state))
    ensures id.Some? ==> if id.value.Own? then Present(api.state, id.value) else !Lookalike(api.directory, id.value.name)
    ensures id.Some? && api.faults == old(api.faults) ==>
      && id.value.Own? && id.value.pvc == pvc
      && (Sound(old(api.state)) ==> Sound(api.state))
  {
    hide Cluster.Valid, EnvEffect, Still, ReplicaName, IsReplicaName, PvcNamed, Untouched, Onward, Settled, Orphans, Sound,
         Mounting, Told;
    ghost var s0 := api.state;
    var podName := ReplicaName(api.directory, pvc);
    ReplicaNameIsOne(api.directory, pvc);
    ghost var p0 := api.SoFar();
    var ok;
    ghost var s1;
    ok, s1 := api.CreateReplicaSet(podName, pvc);
    ghost var s2, p2 := api.state, api.SoFar();
    id := GetReplicaSetPodName(api, podName);
    OnwardTransitive(p0, p2, api.SoFar());
    if Untouched(s0, pvc) {
      LaterUntouched(s0, s1, pvc);
    }
    Deployed(s0, s1, s2, api.state, pvc);
  }

  lemma LaterUntouched(s: State, t: State, p: Pvc)
    requires Later(s, t) && Untouched(s, p)
    ensures Untouched(t, p)
  {
    NoNewJobsUntouched(s, t, p);
  }

  lemma Deployed(s: State, t: State, u: State, v: State, p: Pvc)
    requires Later(s, t) && (u == t || u == Apply(t, CreateReplicaSet(p))) && Later(u, v)
    ensures Settled(s, v, s.replicaSets + if p in u.replicaSets then {p} else {}, s.services)
    ensures Orphans(v) <= Orphans(s)
    ensures Sound(s) && (p in u.replicaSets ==> p in v.pods) ==> Sound(v)
  {
    assert Settled(s, u, u.replicaSets, s.services);
    SettledLater(s, u, v);
  }
}
