/** Starting new replicas and giving each of them its service, with whatever pod has been found for it. */
module Serve {
  import opened Names
  import opened Documents
  import opened States
  import opened Clusters
  import opened Replicas

  /** The services of these PVCs, all on one port. */
  function ServiceMap(pvcs: set<Pvc>, port: int): map<Pvc, Service> {
    map p | p in pvcs :: Service(port, p)
  }

  /** The names which are kept for the PVCs are those of their replicas. */
  predicate NamesFor(directory: string, names: map<Pvc, string>) {
    forall p | p in names :: names[p] == ReplicaName(directory, p)
  }

  /** Only services have been created, of either kind, and nothing has been written. */
  ghost predicate OnlyServes(s: State, t: State) {
    && t.name == s.name && t.replicaSets == s.replicaSets && s.strays <= t.strays
    && t.configMaps == s.configMaps && t.proxy == s.proxy && Still(s, t)
    && Orphans(t) <= Orphans(s) && (Sound(s) ==> Sound(t))
  }

  lemma LaterOnlyServes(s: State, t: State)
    requires Later(s, t)
    ensures OnlyServes(s, t) && t.services == s.services && t.strays == s.strays
  {
  }

  lemma OnlyServesTransitive(s: State, t: State, u: State)
    requires OnlyServes(s, t) && OnlyServes(t, u)
    ensures OnlyServes(s, u)
  {
    StillTransitive(s, t, u);
  }

  /** A service under the name of a replica is that replica's; under any other name, it is a stray one. */
  lemma ServiceCreated(s: State, t: State, name: string, pvc: Pvc, port: int)
    requires Later(s, t)
    ensures var u := Apply(t, CreateService(name, pvc, port));
      && OnlyServes(s, u)
      && (name == ReplicaName(s.name, pvc) ==> u.services == s.services[pvc := Service(port, pvc)] && u.strays == s.strays)
      && (!IsReplicaName(s.name, name) ==> u.services == s.services && u.strays == s.strays + {name})
  {
    hide ReplicaName, IsReplicaName, PvcNamed, Later;
    hide OnlyServes;
    ReplicaNameIsOne(s.name, pvc);
    LaterOnlyServes(s, t);
    CreatedOnlyServes(t, name, pvc, port);
    OnlyServesTransitive(s, t, Apply(t, CreateService(name, pvc, port)));
  }

  lemma CreatedOnlyServes(s: State, name: string, pvc: Pvc, port: int)
    ensures OnlyServes(s, Apply(s, CreateService(name, pvc, port)))
  {
    hide IsReplicaName, PvcNamed, ReplicaName, Still;
    CreatedStill(s, name, pvc, port);
  }

  lemma CreatedStill(s: State, name: string, pvc: Pvc, port: int)
    ensures Still(s, Apply(s, CreateService(name, pvc, port)))
  {
    hide IsReplicaName, PvcNamed, ReplicaName;
  }

  lemma TakenLater(s: State, t: State, name: string, pvc: Pvc)
    requires Later(s, t)
    ensures Taken(t, name) == Taken(s, name)
    ensures name == ReplicaName(s.name, pvc) ==> (Taken(s, name) <==> pvc in s.services)
  {
    ReplicaNameIsOne(s.name, pvc);
  }

  /** One request, for a service which selects the pods of pvc. */
  method CreateClusterService(api: Cluster, name: string, pvc: Pvc, port: int) returns (r: Outcome)
    requires api.Valid()
    modifies api`state, api`trace, api`requests
    ensures api.Valid() && Onward(old(api.SoFar()), api.SoFar()) && !r.Lost? && Told(old(api.SoFar()), api.SoFar(), r, MayServe)
    ensures api.requests == Serving(old(api.requests), Taken(old(api.state), name))
    ensures OnlyServes(old(api.state), api.state)
    ensures r.Ok? && name == ReplicaName(api.directory, pvc) ==>
      && pvc !in old(api.state.services) && api.state.services == old(api.state.services)[pvc := Service(port, pvc)]
      && api.state.strays == old(api.state.strays)
    ensures r.Ok? && !IsReplicaName(api.directory, name) ==>
      name !in old(api.state.strays) && api.state.strays == old(api.state.strays) + {name}
    ensures r.Ok? ==> !Taken(old(api.state), name)
  {
    hide Cluster.Valid, Onward, Later, OnlyServes, ReplicaName, IsReplicaName, PvcNamed, Apply, Told;
    ghost var s := api.state;
    api.NameIsDirectory();
    var ok;
    ghost var seen;
    ok, seen := api.CreateService(name, pvc, port);
    LaterOnlyServes(s, seen);
    TakenLater(s, seen, name, pvc);
    ServiceCreated(s, seen, name, pvc, port);
    NotTaken(s, name);
    r := if ok then Ok else Err;
  }

  lemma NotTaken(s: State, name: string)
    ensures !IsReplicaName(s.name, name) ==> (Taken(s, name) <==> name in s.strays)
  {
  }

  /** The pod id has got a service under the name recovered from its own; when it is the pod of pvc, it is ready. */
  ghost predicate ServedBy(s: State, t: State, id: PodId, pvc: Pvc, port: int) {
    && OnlyServes(s, t) && '-' in PodText(s.name, id)
    && var name := DeploymentName(PodText(s.name, id));
      && !Taken(s, name)
      && (!IsReplicaName(s.name, name) ==> s.strays < t.strays)
      && (id.Own? && id.pvc == pvc ==>
        t.services == s.services[pvc := Service(port, pvc)] && t.strays == s.strays && Ready(t, pvc))
  }

  lemma OwnPodName(s: State, id: PodId)
    requires id.Own?
    ensures '-' in PodText(s.name, id) && DeploymentName(PodText(s.name, id)) == ReplicaName(s.name, id.pvc)
    ensures Taken(s, ReplicaName(s.name, id.pvc)) <==> id.pvc in s.services
  {
    ReplicaNameIsOne(s.name, id.pvc);
  }

  lemma IsServedBy(s: State, t: State, u: State, id: PodId, pvc: Pvc, port: int, name: string)
    requires OnlyServes(s, t) && Later(t, u) && '-' in PodText(s.name, id) && name == DeploymentName(PodText(s.name, id))
    requires !Taken(s, name)
    requires !IsReplicaName(s.name, name) ==> name !in s.strays && t.strays == s.strays + {name}
    requires name == ReplicaName(s.name, pvc) ==>
      t.services == s.services[pvc := Service(port, pvc)] && t.strays == s.strays
    requires id.Own? ==> Ready(u, id.pvc)
    ensures ServedBy(s, u, id, pvc, port)
  {
    if id.Own? {
      OwnPodName(s, id);
    }
    LaterOnlyServes(t, u);
    OnlyServesTransitive(s, t, u);
  }

  /** Creates a service under the name recovered from the pod's name, and waits for the pod. */
  method ServePod(api: Cluster, id: PodId, pvc: Pvc, port: int) returns (r: Outcome, deployment: string)
    requires api.Valid()
    modifies api`state, api`trace, api`requests
    ensures api.Valid() && Onward(old(api.SoFar()), api.SoFar()) && Told(old(api.SoFar()), api.SoFar(), r, MayServe)
    ensures api.requests.mounts == old(api.requests.mounts)
    ensures id.Own? && id.pvc == pvc && pvc !in old(api.state.services) ==> api.requests.clashes == old(api.requests.clashes)
    ensures r.Ok? ==> ServedBy(old(api.state), api.state, id, pvc, port)
    ensures r.Ok? && id.Own? ==> deployment == ReplicaName(api.directory, id.pvc)
  {
    hide Cluster.Valid, Onward, Later, OnlyServes, Taken, PodText, DeploymentName, ReplicaName, IsReplicaName, Ready, ServedBy,
         Told;
    deployment := "";
    ghost var s0, p0 := api.state, api.SoFar();
    OnwardReflexive(p0);
    api.NameIsDirectory();
    if id.Own? {
      OwnPodName(api.state, id);
    }
    if '-' !in PodText(api.directory, id) {
      APanicIs(NoDash(id));
      api.GiveUp(NoDash(id));
      ToldWider(p0, api.SoFar(), Lost, MayServe);
      return Lost, deployment;
    }
    deployment := DeploymentName(PodText(api.directory, id));
    r := CreateClusterService(api, deployment, pvc, port);
    ghost var s1, p1 := api.state, api.SoFar();
    if r != Ok {
      return;
    }
    r := WaitForPod(api, id);
    OnwardTransitive(p0, p1, api.SoFar());
    if r.Ok? {
      IsServedBy(s0, s1, api.state, id, pvc, port, deployment);
    }
  }

  /** Every replica has its service, and every pod its ReplicaSet. */
  ghost predicate AllServed(s: State) {
    Orphans(s) == {} && s.replicaSets <= s.services.Keys
  }

  /**
   * What starting pvc and giving it a service makes of s. When its ReplicaSet could not be created, and every replica has
   * a service already, there is a stray service afterwards.
   */
  ghost predicate Started(s: State, t: State, pvc: Pvc, refused: bool) {
    && t.name == s.name && t.replicaSets == s.replicaSets + (if refused then {} else {pvc}) && s.strays <= t.strays
    && t.configMaps == s.configMaps && t.proxy == s.proxy && Still(s, t) && Orphans(t) <= Orphans(s)
    && (refused && AllServed(s) ==> s.strays < t.strays)
  }

  /** The ReplicaSet, its pod and its service have come, and the pod is ready. */
  ghost predicate StartedWell(s: State, t: State, pvc: Pvc, port: int) {
    && Settled(s, t, s.replicaSets + {pvc}, s.services[pvc := Service(port, pvc)]) && Ready(t, pvc)
    && (Sound(s) ==> Sound(t))
  }

  /** With a service for every replica, a pod which is no new one's gets a stray service, if any. */
  lemma OtherPodIsStray(s: State, t: State, u: State, id: PodId, pvc: Pvc, port: int)
    requires Settled(s, t, s.replicaSets, s.services) && AllServed(s) && Orphans(t) <= Orphans(s)
    requires if id.Own? then Present(t, id) else !Lookalike(s.name, id.name)
    requires ServedBy(t, u, id, pvc, port)
    ensures t.strays < u.strays
  {
    hide Still, OnlyServes, ReplicaName, PvcNamed, DeploymentName;
    if id.Own? {
      assert id.pvc !in Orphans(t);
      OwnPodName(t, id);
    }
  }

  /** From s to t the ReplicaSet was asked for, and from t to u the pod was served. */
  lemma IsStarted(s: State, t: State, u: State, id: PodId, pvc: Pvc, port: int, refused: bool)
    requires Settled(s, t, s.replicaSets + (if refused then {} else {pvc}), s.services) && Orphans(t) <= Orphans(s)
    requires if id.Own? then Present(t, id) else !Lookalike(s.name, id.name)
    requires ServedBy(t, u, id, pvc, port)
    ensures Started(s, u, pvc, refused)
    ensures id.Own? && id.pvc == pvc && !refused && (Sound(s) ==> Sound(t)) ==> StartedWell(s, u, pvc, port)
  {
    hide Still, Lookalike, Present, PodText, DeploymentName, IsReplicaName, Taken;
    if refused && AllServed(s) {
      OtherPodIsStray(s, t, u, id, pvc, port);
    }
    StillTransitive(s, t, u);
  }

  /** What is claimed of starting one replica: a is before, b is after. */
  ghost predicate Launched(a: Moment, b: Moment, pvc: Pvc, port: int, r: Outcome) {
    var s, t := a.state, b.state;
    && Onward(a.past, b.past) && Told(a.past, b.past, r, MayServe) && CalmPast(b.past) == CalmPast(a.past) && b.commands == a.commands
    && (Untouched(s, pvc) ==> b.past.breaches == a.past.breaches)
    && b.requests.mounts == a.requests.mounts + [CreateReplicaSet(pvc)]
    && (b.past.faults == a.past.faults && pvc !in s.replicaSets && pvc !in s.services ==> b.requests.clashes == a.requests.clashes)
    && (r.Ok? ==> Started(s, t, pvc, b.past.faults.refused != a.past.faults.refused))
    && (r.Ok? && b.past.faults == a.past.faults ==> StartedWell(s, t, pvc, port))
  }

  /** Deploys a replica, and gives a service to the pod which was found for it. */
  method StartServed(api: Cluster, h: RequestHandle, pvc: Pvc) returns (r: Outcome, deployment: string)
    requires api.Valid()
    modifies api`state, api`trace, api`requests, api`breaches, api`faults
    ensures api.Valid() && Launched(old(api.Now()), api.Now(), pvc, h.config.port, r)
  {
    hide Cluster.Valid, Onward, Told, Settled, Orphans, Sound, Untouched, Started, StartedWell, ServedBy, Present, Lookalike,
         ReplicaName;
    deployment := "";
    ghost var s0, p0 := api.state, api.SoFar();
    api.NameIsDirectory();
    var pod := DeployReplica(api, pvc);
    ghost var s1, p1 := api.state, api.SoFar();
    SettledNames(s0, s1);
    if pod == None {
      ToldWider(p0, p1, Lost, MayServe);
      return Lost, deployment;
    }
    r, deployment := ServePod(api, pod.value, pvc, h.config.port);
    OnwardTransitive(p0, p1, api.SoFar());
    if r.Ok? {
      IsStarted(s0, s1, api.state, pod.value, pvc, h.config.port, p1.faults.refused != p0.faults.refused);
    }
  }

  lemma SettledNames(s: State, t: State)
    requires Settled(s, t, t.replicaSets, s.services)
    ensures t.name == s.name && t.services == s.services
  {
  }

  /* ---- several replicas ---- */

  /** The ReplicaSets of pvcs have been asked for; unless some were refused, all of them are there. */
  ghost predicate Deploying(s: State, t: State, pvcs: set<Pvc>, refused: bool) {
    && Settled(s, t, t.replicaSets, s.services) && Orphans(t) <= Orphans(s)
    && t.replicaSets <= s.replicaSets + pvcs
    && if refused then pvcs !! s.replicaSets ==> !(pvcs <= t.replicaSets) else t.replicaSets == s.replicaSets + pvcs
  }

  lemma NoneDeploying(s: State)
    ensures Deploying(s, s, {}, false)
  {
  }

  lemma OneMoreDeploying(s: State, t: State, u: State, pvcs: set<Pvc>, p: Pvc, before: bool, now: bool)
    requires Deploying(s, t, pvcs, before) && p !in pvcs
    requires Deploying(t, u, {p}, now)
    ensures Deploying(s, u, pvcs + {p}, before || now)
  {
    hide Still;
    SettledTransitive(s, t, u, u.replicaSets, u.services);
  }

  lemma OneDeploying(t: State, u: State, p: Pvc, now: bool)
    requires Settled(t, u, t.replicaSets + (if now then {} else {p}), t.services) && Orphans(u) <= Orphans(t)
    ensures Deploying(t, u, {p}, now)
  {
    hide Still;
  }

  lemma DeployingUntouched(s: State, t: State, pvcs: set<Pvc>, p: Pvc, refused: bool)
    requires Deploying(s, t, pvcs, refused) && p !in pvcs
    ensures t.name == s.name && (p !in s.replicaSets ==> p !in t.replicaSets)
    ensures Untouched(s, p) ==> Untouched(t, p)
  {
    if Untouched(s, p) {
      NoNewJobsUntouched(s, t, p);
    }
  }

  function StartRequests(items: seq<Pvc>): seq<Request> {
    seq(|items|, i requires 0 <= i < |items| => CreateReplicaSet(items[i]))
  }

  lemma OneMoreStart(items: seq<Pvc>, i: nat, log: seq<Request>)
    requires i < |items|
    ensures log + StartRequests(items[..i + 1]) == log + StartRequests(items[..i]) + [CreateReplicaSet(items[i])]
    ensures log + StartRequests([]) == log
  {
    assert StartRequests(items[..i + 1]) == StartRequests(items[..i]) + [CreateReplicaSet(items[i])];
    assert StartRequests([]) == [];
  }

  lemma NoStartYet(log: seq<Request>)
    ensures log + StartRequests([]) == log && SetOf<Pvc>([]) == {}
  {
    assert StartRequests([]) == [];
  }

  /** Every volume of items can be mounted, as far as active jobs are concerned. */
  ghost predicate AllUntouched(s: State, items: seq<Pvc>) {
    forall p | p in items :: Untouched(s, p)
  }

  /** Deploys a replica, and recovers a name from that of the pod which was found for it. */
  method DeployNamed(api: Cluster, pvc: Pvc) returns (name: Option<string>)
    requires api.Valid()
    modifies api`state, api`trace, api`requests, api`breaches, api`faults
    ensures api.Valid() && Onward(old(api.SoFar()), api.SoFar()) && api.Calm() == old(api.Calm())
    ensures Told(old(api.SoFar()), api.SoFar(), Resolved(name), Silent)
    ensures Untouched(old(api.state), pvc) ==> api.breaches == old(api.breaches)
    ensures api.requests.mounts == old(api.requests.mounts) + [CreateReplicaSet(pvc)]
    ensures pvc !in old(api.state.replicaSets) ==> api.requests.clashes == old(api.requests.clashes)
    ensures Deploying(old(api.state), api.state, {pvc}, api.faults.refused != old(api.faults.refused))
    ensures name.Some? && api.faults == old(api.faults) ==>
      name.value == ReplicaName(api.directory, pvc) && (Sound(old(api.state)) ==> Sound(api.state))
  {
    hide Cluster.Valid, Onward, Deploying, Settled, Orphans, Sound, Untouched, PodText, DeploymentName, ReplicaName,
         Told;
    ghost var s, p0 := api.state, api.SoFar();
    api.NameIsDirectory();
    var pod := DeployReplica(api, pvc);
    OneDeploying(s, api.state, pvc, api.faults.refused != old(api.faults.refused));
    if pod == None {
      return None;
    }
    if '-' !in PodText(api.directory, pod.value) {
      ghost var p1 := api.SoFar();
      api.NameIsDirectory();
      APanicIs(NoDash(pod.value));
      api.GiveUp(NoDash(pod.value));
      OnwardTransitive(p0, p1, api.SoFar());
      return None;
    }
    if pod.value.Own? {
      OwnPodName(s, pod.value);
    }
    return Some(DeploymentName(PodText(api.directory, pod.value)));
  }

  /** Deploying, with the names which have been recovered; without faults, these are right. */
  ghost predicate Starting(s: State, t: State, f: Faults, g: Faults, names: map<Pvc, string>) {
    && Deploying(s, t, names.Keys, g.refused != f.refused)
    && (g == f ==> NamesFor(s.name, names) && (Sound(s) ==> Sound(t)))
  }

  lemma OneMoreStarting(s: State, t: State, u: State, a: Past, b: Past, c: Past, names: map<Pvc, string>, p: Pvc, name: string)
    requires Starting(s, t, a.faults, b.faults, names) && p !in names && Onward(a, b) && Onward(b, c)
    requires Deploying(t, u, {p}, c.faults.refused != b.faults.refused)
    requires c.faults == b.faults ==> name == ReplicaName(s.name, p) && (Sound(t) ==> Sound(u))
    ensures Starting(s, u, a.faults, c.faults, names[p := name])
  {
    hide Deploying, Sound, ReplicaName;
    OneMoreDeploying(s, t, u, names.Keys, p, b.faults.refused != a.faults.refused, c.faults.refused != b.faults.refused);
    assert names[p := name].Keys == names.Keys + {p};
  }

  lemma StartingUntouched(s: State, t: State, f: Faults, g: Faults, names: map<Pvc, string>, p: Pvc)
    requires Starting(s, t, f, g, names) && p !in names
    ensures t.name == s.name && (p !in s.replicaSets ==> p !in t.replicaSets)
    ensures Untouched(s, p) ==> Untouched(t, p)
  {
    DeployingUntouched(s, t, names.Keys, p, g.refused != f.refused);
  }

  lemma NoneStarting(s: State, f: Faults)
    ensures Starting(s, s, f, f, map[])
  {
    NoneDeploying(s);
  }

  /** Deploys each of the new replicas. */
  method StartReplicas(api: Cluster, toBeAdded: seq<Pvc>) returns (r: Outcome, replicaPods: map<Pvc, string>)
    requires api.Valid() && Distinct(toBeAdded)
    modifies api`state, api`trace, api`requests, api`breaches, api`faults
    ensures api.Valid() && Onward(old(api.SoFar()), api.SoFar()) && api.Calm() == old(api.Calm())
    ensures Told(old(api.SoFar()), api.SoFar(), r, Silent)
    ensures AllUntouched(old(api.state), toBeAdded) ==> api.breaches == old(api.breaches)
    ensures r.Ok? ==> api.requests.mounts == old(api.requests.mounts) + StartRequests(toBeAdded)
    ensures SetOf(toBeAdded) !! old(api.state.replicaSets) ==> api.requests.clashes == old(api.requests.clashes)
    ensures r.Ok? ==> replicaPods.Keys == SetOf(toBeAdded)
    ensures r.Ok? ==> Starting(old(api.state), api.state, old(api.faults), api.faults, replicaPods)
  {
    hide Cluster.Valid, Onward, SetOf, Distinct, Deploying, Starting, Sound, Untouched, StartRequests, ReplicaName, Cluster.Calm,
         Told;
    ghost var s, p0, log := api.state, api.SoFar(), api.requests;
    replicaPods := map[];
    NoneStarting(s, p0.faults);
    OnwardReflexive(p0);
    NoStartYet(log.mounts);
    assert toBeAdded[..0] == [];
    api.NameIsDirectory();
    for i := 0 to |toBeAdded|
      invariant api.Valid() && Onward(p0, api.SoFar()) && api.Calm() == old(api.Calm()) && Told(p0, api.SoFar(), Ok, Silent)
      invariant replicaPods.Keys == SetOf(toBeAdded[..i])
      invariant Starting(s, api.state, p0.faults, api.faults, replicaPods)
      invariant AllUntouched(s, toBeAdded) ==> api.breaches == p0.breaches
      invariant api.requests.mounts == log.mounts + StartRequests(toBeAdded[..i])
      invariant SetOf(toBeAdded) !! s.replicaSets ==> api.requests.clashes == log.clashes
    {
      var pvcName := toBeAdded[i];
      PrefixGrows(toBeAdded, i);
      OneMoreStart(toBeAdded, i, log.mounts);
      ghost var t, p1 := api.state, api.SoFar();
      StartingUntouched(s, t, p0.faults, p1.faults, replicaPods, pvcName);
      var name := DeployNamed(api, pvcName);
      OnwardTransitive(p0, p1, api.SoFar());
      if name == None {
        return Lost, replicaPods;
      }
      OneMoreStarting(s, t, api.state, p0, p1, api.SoFar(), replicaPods, pvcName, name.value);
      replicaPods := replicaPods[pvcName := name.value];
    }
    assert toBeAdded[..|toBeAdded|] == toBeAdded;
    return Ok, replicaPods;
  }

  /** Between a and b, p has been seen ready, with the ReplicaSets of s. */
  ghost predicate SeenReady(s: State, a: Past, b: Past, p: Pvc) {
    exists i | |a.trace| - 1 <= i < |b.trace| && 0 <= i :: Later(s, b.trace[i].state) && Ready(b.trace[i].state, p)
  }

  ghost predicate AllSeenReady(s: State, a: Past, b: Past, pvcs: set<Pvc>) {
    forall p | p in pvcs :: SeenReady(s, a, b, p)
  }

  /** One more of pvcs: u is the last state, in which p is ready. */
  lemma OneMoreReady(s: State, a: Past, b: Past, c: Past, u: State, pvcs: set<Pvc>, p: Pvc)
    requires AllSeenReady(s, a, b, pvcs - {p}) && Onward(a, b) && Onward(b, c) && Later(s, u) && Ready(u, p)
    requires 0 < |c.trace| && c.trace[|c.trace| - 1].state == u
    ensures AllSeenReady(s, a, c, pvcs)
  {
    hide Later, Ready;
    forall q | q in pvcs && q != p ensures SeenReady(s, a, c, q) {
      assert SeenReady(s, a, b, q);
      var i :| |a.trace| - 1 <= i < |b.trace| && 0 <= i && Later(s, b.trace[i].state) && Ready(b.trace[i].state, q);
      assert c.trace[i] == b.trace[i];
    }
  }

  /** Waits for the pod which is found under that name. */
  method AwaitReplica(api: Cluster, name: string, ghost pvc: Pvc) returns (r: Outcome)
    requires api.Valid()
    modifies api`state, api`trace, api`faults
    ensures api.Valid() && Onward(old(api.SoFar()), api.SoFar()) && Later(old(api.state), api.state)
    ensures Told(old(api.SoFar()), api.SoFar(), r, Silent) && OnlyMisled(old(api.faults), api.faults)
    ensures && r.Ok? && api.faults == old(api.faults)
            && name == ReplicaName(api.directory, pvc) && pvc in old(api.state.replicaSets)
            ==> Ready(api.state, pvc)
  {
    hide Cluster.Valid, Onward, Later, Present, Ready, ReplicaName, IsReplicaName, PvcNamed, Told;
    ghost var s, p0 := api.state, api.SoFar();
    ReplicaNameIsOne(api.directory, pvc);
    var pod := GetReplicaSetPodName(api, name);
    ghost var t, p1 := api.state, api.SoFar();
    SameRS(s, t);
    if pod == None {
      return Lost;
    }
    r := WaitForPod(api, pod.value);
    OnwardTransitive(p0, p1, api.SoFar());
    LaterTransitive(s, t, api.state);
  }

  /** Waits for the pods of the new replicas, in any order. */
  method AwaitReplicas(api: Cluster, replicaPods: map<Pvc, string>) returns (r: Outcome)
    requires api.Valid()
    modifies api`state, api`trace, api`faults
    ensures api.Valid() && Onward(old(api.SoFar()), api.SoFar()) && Later(old(api.state), api.state)
    ensures Told(old(api.SoFar()), api.SoFar(), r, Silent) && OnlyMisled(old(api.faults), api.faults)
    ensures r.Ok? && api.faults == old(api.faults) && NamesFor(api.directory, replicaPods)
            && replicaPods.Keys <= old(api.state.replicaSets) ==>
      AllSeenReady(old(api.state), old(api.SoFar()), api.SoFar(), replicaPods.Keys)
  {
    hide Cluster.Valid, Onward, Later, AllSeenReady, Ready, OnlyMisled, ReplicaName, Told;
    ghost var s, p0, f := api.state, api.SoFar(), api.faults;
    EnvEffectReflexive(s);
    OnwardReflexive(p0);
    OnlyMisledReflexive(f);
    NoneReady(s, p0);
    var rest := replicaPods.Keys;
    assert replicaPods.Keys - rest == {};
    while rest != {}
      invariant api.Valid() && Onward(p0, api.SoFar()) && Later(s, api.state) && OnlyMisled(f, api.faults)
      invariant Told(p0, api.SoFar(), Ok, Silent)
      invariant rest <= replicaPods.Keys
      invariant api.faults == f && NamesFor(api.directory, replicaPods) && replicaPods.Keys <= s.replicaSets ==>
        AllSeenReady(s, p0, api.SoFar(), replicaPods.Keys - rest)
    {
      var pvcName :| pvcName in rest;
      assert replicaPods.Keys - (rest - {pvcName}) - {pvcName} == replicaPods.Keys - rest;
      rest := rest - {pvcName};
      ghost var t, p1, g := api.state, api.SoFar(), api.faults;
      SameRS(s, t);
      r := AwaitReplica(api, replicaPods[pvcName], pvcName);
      OnwardTransitive(p0, p1, api.SoFar());
      OnlyMisledTransitive(f, g, api.faults);
      LaterTransitive(s, t, api.state);
      if r != Ok {
        return;
      }
      if api.faults == f && NamesFor(api.directory, replicaPods) && replicaPods.Keys <= s.replicaSets {
        api.LastState();
        OneMoreReady(s, p0, p1, api.SoFar(), api.state, replicaPods.Keys - rest, pvcName);
      }
    }
    assert replicaPods.Keys - rest == replicaPods.Keys;
    return Ok;
  }

  lemma NoneReady(s: State, a: Past)
    ensures AllSeenReady(s, a, a, {})
  {
  }

  lemma NotYetServed(services: map<Pvc, Service>, done: set<Pvc>, p: Pvc, port: int)
    ensures p !in services && p !in done ==> p !in services + ServiceMap(done, port)
    ensures (services + ServiceMap(done, port))[p := Service(port, p)] == services + ServiceMap(done + {p}, port)
    ensures services + ServiceMap({}, port) == services
  {
  }

  /** Creates the services of the new replicas, in any order. */
  method ServeReplicas(api: Cluster, h: RequestHandle, replicaPods: map<Pvc, string>) returns (r: Outcome)
    requires api.Valid()
    modifies api`state, api`trace, api`requests
    ensures api.Valid() && Onward(old(api.SoFar()), api.SoFar()) && OnlyServes(old(api.state), api.state)
    ensures Told(old(api.SoFar()), api.SoFar(), r, MayServe)
    ensures api.requests.mounts == old(api.requests.mounts)
    ensures NamesFor(api.directory, replicaPods) && replicaPods.Keys !! old(api.state.services.Keys)
            ==> api.requests.clashes == old(api.requests.clashes)
    ensures r.Ok? && NamesFor(api.directory, replicaPods) ==>
      && api.state.services == old(api.state.services) + ServiceMap(replicaPods.Keys, h.config.port)
      && api.state.strays == old(api.state.strays)
  {
    hide Cluster.Valid, Onward, OnlyServes, ServiceMap, ReplicaName, IsReplicaName, Taken, Told;
    ghost var s, p0, log, port := api.state, api.SoFar(), api.requests, h.config.port;
    api.NameIsDirectory();
    EnvEffectReflexive(s);
    LaterOnlyServes(s, s);
    OnwardReflexive(p0);
    var rest := replicaPods.Keys;
    ghost var done: set<Pvc> := {};
    NotYetServed(s.services, done, "p", port);
    while rest != {}
      invariant api.Valid() && Onward(p0, api.SoFar()) && OnlyServes(s, api.state) && Told(p0, api.SoFar(), Ok, MayServe)
      invariant rest !! done && rest + done == replicaPods.Keys
      invariant api.requests.mounts == log.mounts
      invariant NamesFor(api.directory, replicaPods) ==>
        api.state.services == s.services + ServiceMap(done, port) && api.state.strays == s.strays
      invariant NamesFor(api.directory, replicaPods) && replicaPods.Keys !! s.services.Keys ==> api.requests.clashes == log.clashes
    {
      var pvcName :| pvcName in rest;
      rest := rest - {pvcName};
      ghost var t, p1 := api.state, api.SoFar();
      NotYetServed(s.services, done, pvcName, port);
      TakenName(s, t, pvcName);
      r := CreateClusterService(api, replicaPods[pvcName], pvcName, h.config.port);
      OnwardTransitive(p0, p1, api.SoFar());
      OnlyServesTransitive(s, t, api.state);
      if r != Ok {
        return;
      }
      done := done + {pvcName};
    }
    assert done == replicaPods.Keys;
    return Ok;
  }

  lemma TakenName(s: State, t: State, p: Pvc)
    requires OnlyServes(s, t)
    ensures t.name == s.name && (Taken(t, ReplicaName(s.name, p)) <==> p in t.services)
  {
    ReplicaNameIsOne(s.name, p);
  }
}
