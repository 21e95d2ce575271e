/** deleteReplicas: stopping the replicas which the document does not list any more. */
module Delete {
  import opened Names
  import opened Documents
  import opened States
  import opened Clusters
  import opened Replicas
  import opened Agreements

  /**
   * Every agreement between two different PVCs is as before, and no volume has been seeded; nothing is said of volumes
   * which were being seeded.
   */
  ghost predicate EdgesKept(s: State, t: State) {
    && (forall p: Pvc, q: Pvc | p != q && !Seeding(s, p) :: Edge(t, p, q) <==> Edge(s, p, q))
    && (forall p: Pvc | !Seeding(s, p) :: VolumeOf(t, p).seeds == VolumeOf(s, p).seeds)
  }

  lemma EdgesKeptTransitive(s: State, t: State, u: State)
    requires EdgesKept(s, t) && NoNewJobs(s, t) && EdgesKept(t, u)
    ensures EdgesKept(s, u)
  {
    forall p: Pvc | !Seeding(s, p) ensures !Seeding(t, p) {
    }
  }

  lemma StillKeepsEdges(s: State, t: State)
    requires s.name == t.name && Still(s, t)
    ensures EdgesKept(s, t)
  {
  }

  /** A removal which a replica performs for its own id is about no other replica. */
  lemma OwnRemovalKeepsEdges(s: State, p: Pvc)
    ensures EdgesKept(s, Apply(s, RunCommand(p, Remove(ReplicaName(s.name, p)))))
  {
    hide Apply;
    CommandEdges(s, p, p, Remove(ReplicaName(s.name, p)));
  }

  /** The log, with n more removals about p on the pod of p. */
  ghost function Repeated(removals: multiset<(Option<Pvc>, Pvc)>, pod: Option<Pvc>, p: Pvc, n: nat): multiset<(Option<Pvc>, Pvc)> {
    removals[(pod, p) := removals[(pod, p)] + n]
  }

  lemma OnceMore(removals: multiset<(Option<Pvc>, Pvc)>, pod: Option<Pvc>, p: Pvc, n: nat)
    ensures Repeated(removals, pod, p, n) + multiset{(pod, p)} == Repeated(removals, pod, p, n + 1)
    ensures Repeated(removals, pod, p, 0) == removals
  {
  }

  /** Only volumes have been changed, and when own is true, no agreement between different replicas. */
  ghost predicate Removing(s: State, t: State, own: bool) {
    OnlyVolumes(s, t) && (own ==> EdgesKept(s, t))
  }

  lemma RemovingTransitive(s: State, t: State, u: State, own: bool)
    requires Removing(s, t, own) && Removing(t, u, own)
    ensures Removing(s, u, own)
  {
    OnlyVolumesTransitive(s, t, u);
    if own {
      EdgesKeptTransitive(s, t, u);
    }
  }

  lemma LaterIsRemoving(s: State, t: State)
    requires Later(s, t)
    ensures Removing(s, t, true) && Removing(s, t, false)
  {
    LaterIsOnlyVolumes(s, t);
    StillKeepsEdges(s, t);
  }

  lemma CommandIsRemoving(s: State, t: State, p: Pvc, pvc: Pvc)
    requires Later(s, t)
    ensures Removing(s, Apply(t, RunCommand(p, Remove(ReplicaName(s.name, pvc)))), p == pvc)
  {
    hide EdgesKept, OnlyVolumes;
    RunIsOnlyVolumes(s, t, p, Remove(ReplicaName(s.name, pvc)));
    LaterIsRemoving(s, t);
    if p == pvc {
      OwnRemovalKeepsEdges(t, p);
      EdgesKeptTransitive(s, t, Apply(t, RunCommand(p, Remove(ReplicaName(s.name, pvc)))));
    }
  }

  /** Sends one removal about pvc to a pod; a failure is ignored. */
  method DeleteReplicationAgreement(api: Cluster, pod: PodId, replicaId: string, ghost pvc: Pvc)
    requires api.Valid() && replicaId == ReplicaName(api.directory, pvc)
    modifies api`state, api`trace, api`commands
    ensures api.Valid() && Onward(old(api.SoFar()), api.SoFar()) && Told(old(api.SoFar()), api.SoFar(), Ok, Silent)
    ensures Removing(old(api.state), api.state, PodOf(pod) == Some(pvc))
    ensures api.commands.issued == old(api.commands.issued)
    ensures api.commands.removals == old(api.commands.removals) + multiset{(PodOf(pod), pvc)}
  {
    hide Cluster.Valid, Onward, Later, Removing, ReplicaName, Apply, Told;
    ghost var s := api.state;
    api.NameIsDirectory();
    var ok;
    ghost var seen;
    ok, seen := api.Exec(pod, Remove(replicaId), pvc);
    LaterIsRemoving(s, seen);
    if pod.Own? {
      CommandIsRemoving(s, seen, pod.pvc, pvc);
    }
  }

  /**
   * The removals made before a replica is deleted: one for each replica which stays, all of them on one pod, which is the
   * deleted one's.
   */
  method RemoveAgreements(api: Cluster, existing: map<Pvc, string>, toBeDeletedPvcs: set<Pvc>, pvc: Pvc)
    returns (r: Outcome, ghost pod: Option<Pvc>)
    requires api.Valid()
    modifies api`state, api`trace, api`commands, api`faults
    ensures api.Valid() && Onward(old(api.SoFar()), api.SoFar()) && !r.Err? && Told(old(api.SoFar()), api.SoFar(), r, Silent)
    ensures OnlyMisled(old(api.faults), api.faults) && api.commands.issued == old(api.commands.issued)
    ensures Removing(old(api.state), api.state, r.Ok? && pod == Some(pvc))
    ensures r.Ok? && api.faults == old(api.faults) && pvc in old(api.state.replicaSets) ==> pod == Some(pvc)
    ensures r.Ok? ==>
      api.commands.removals == Repeated(old(api.commands.removals), pod, pvc, |existing.Keys - toBeDeletedPvcs|)
  {
    hide Cluster.Valid, Onward, Later, Removing, ReplicaName, IsReplicaName, PvcNamed, Repeated, Told;
    ghost var s, p0, done: set<Pvc>, removals := api.state, api.SoFar(), {}, api.commands.removals;
    pod := None;
    var id := ReplicaName(api.directory, pvc);
    ReplicaNameIsOne(api.directory, pvc);
    var name := GetReplicaSetPodName(api, id);
    SameRS(s, api.state);
    LaterIsRemoving(s, api.state);
    if name == None {
      return Lost, pod;
    }
    pod := PodOf(name.value);
    ghost var own, f := pod == Some(pvc), api.faults;
    OnceMore(removals, pod, pvc, 0);
    var rest := existing.Keys;
    while rest != {}
      invariant api.Valid() && Onward(p0, api.SoFar()) && api.faults == f && Told(p0, api.SoFar(), Ok, Silent)
      invariant api.commands.issued == old(api.commands.issued) && Removing(s, api.state, own)
      invariant forall p :: p in done <==> p in existing && p !in rest && p !in toBeDeletedPvcs
      invariant api.commands.removals == Repeated(removals, pod, pvc, |done|)
    {
      var other :| other in rest;
      rest := rest - {other};
      if other !in toBeDeletedPvcs {
        ghost var t, p1 := api.state, api.SoFar();
        DeleteReplicationAgreement(api, name.value, id, pvc);
        OnwardTransitive(p0, p1, api.SoFar());
        RemovingTransitive(s, t, api.state, own);
        OnceMore(removals, pod, pvc, |done|);
        assert other !in done && |done + {other}| == |done| + 1;
        done := done + {other};
      }
    }
    assert done == existing.Keys - toBeDeletedPvcs;
    return Ok, pod;
  }

  /** These replicas have gone, with their services; when own is true, no agreement between different replicas has. */
  ghost predicate Deleted(s: State, t: State, pvcs: set<Pvc>, own: bool) {
    && t.name == s.name && t.replicaSets == s.replicaSets - pvcs && t.services == s.services - pvcs
    && t.strays == s.strays && t.configMaps == s.configMaps && t.proxy == s.proxy && NoNewJobs(s, t)
    && (own ==> EdgesKept(s, t))
  }

  lemma NoneDeleted(s: State)
    ensures Deleted(s, s, {}, true)
  {
  }

  lemma OneMoreDeleted(s: State, t: State, u: State, v: State, pvcs: set<Pvc>, pvc: Pvc, own: bool)
    requires Deleted(s, t, pvcs, own) && Removing(t, u, own)
    requires Settled(u, v, u.replicaSets - {pvc}, u.services - {pvc})
    ensures Deleted(s, v, pvcs + {pvc}, own)
  {
    hide Orphans, Sound, EdgesKept, VolumeOf;
    LessTwice(s.services, pvcs, pvc);
    if own {
      StillKeepsEdges(u, v);
      EdgesKeptTransitive(s, t, u);
      EdgesKeptTransitive(s, u, v);
    }
  }

  lemma LessTwice(services: map<Pvc, Service>, pvcs: set<Pvc>, p: Pvc)
    ensures services - pvcs - {p} == services - (pvcs + {p})
  {
  }

  /** Each of pvcs has been sent n removals about itself, and no other replica any about itself. */
  ghost predicate OwnRemovals(before: multiset<(Option<Pvc>, Pvc)>, after: multiset<(Option<Pvc>, Pvc)>, pvcs: set<Pvc>, n: nat) {
    forall p: Pvc :: after[(Some(p), p)] == before[(Some(p), p)] + if p in pvcs then n else 0
  }

  lemma OwnRemovalsStart(removals: multiset<(Option<Pvc>, Pvc)>, n: nat)
    ensures OwnRemovals(removals, removals, {}, n)
  {
  }

  lemma OwnRemovalsNext(a: multiset<(Option<Pvc>, Pvc)>, b: multiset<(Option<Pvc>, Pvc)>, pvcs: set<Pvc>, n: nat, p: Pvc)
    requires OwnRemovals(a, b, pvcs, n) && p !in pvcs
    ensures OwnRemovals(a, Repeated(b, Some(p), p, n), pvcs + {p}, n)
  {
  }

  /** What the ReplicaSets and the pods have to do with each other stays as it was, as long as every stop is seen right. */
  ghost predicate StaysSound(s: State, t: State) {
    Orphans(t) <= Orphans(s) && (Sound(s) ==> Sound(t))
  }

  lemma RemovingFacts(s: State, t: State, own: bool)
    requires Removing(s, t, own)
    ensures t.replicaSets == s.replicaSets && t.name == s.name && StaysSound(s, t)
  {
  }

  function DeleteRequests(items: seq<Pvc>): seq<Request> {
    seq(|items|, i requires 0 <= i < |items| => DeleteReplicaSet(items[i]))
  }

  lemma OneMoreDelete(items: seq<Pvc>, i: nat)
    requires i <= |items|
    ensures i < |items| ==> DeleteRequests(items[..i + 1]) == DeleteRequests(items[..i]) + [DeleteReplicaSet(items[i])]
    ensures DeleteRequests([]) == [] && SetOf<Pvc>([]) == {}
  {
  }

  /** What no deletion touches, whatever its outcome: a is before, b is after. */
  ghost predicate Held(a: Moment, b: Moment) {
    && Onward(a.past, b.past) && b.past.faults.refused == a.past.faults.refused
    && b.commands.issued == a.commands.issued && b.requests.clashes == a.requests.clashes
  }

  /**
   * These replicas of all have been deleted, by the requests sent; own: each one's removals, n of them, have been sent to
   * its own pod, which is so when no fault was met.
   */
  ghost predicate Deleting(a: Moment, b: Moment, gone: set<Pvc>, all: set<Pvc>, n: nat, own: bool, sent: seq<Request>) {
    && Held(a, b) && b.requests.mounts == a.requests.mounts + sent && gone <= all
    && Deleted(a.state, b.state, gone, own) && (CalmPast(b.past) ==> StaysSound(a.state, b.state))
    && (own ==> OwnRemovals(a.commands.removals, b.commands.removals, gone, n))
    && (b.past.faults == a.past.faults && all <= a.state.replicaSets ==> own) && (sent == [] ==> b == a)
  }

  lemma NoneDeleting(a: Moment, all: set<Pvc>, n: nat)
    ensures Deleting(a, a, {}, all, n, true, [])
  {
    OnwardReflexive(a.past);
    NoneDeleted(a.state);
    OwnRemovalsStart(a.commands.removals, n);
  }

  lemma HeldTransitive(a: Moment, b: Moment, c: Moment)
    requires Held(a, b) && Held(b, c)
    ensures Held(a, c) && Onward(a.past, b.past) && Onward(b.past, c.past)
  {
    OnwardTransitive(a.past, b.past, c.past);
  }

  /** One replica more: b is before its removals, m is between them and its deletion, and c is after. */
  lemma OneMoreDeleting(a: Moment, b: Moment, m: Moment, c: Moment, gone: set<Pvc>, all: set<Pvc>, n: nat, own: bool,
                        sent: seq<Request>, pvc: Pvc, pod: Option<Pvc>)
    requires Deleting(a, b, gone, all, n, own, sent) && Held(b, c) && Onward(b.past, m.past) && Onward(m.past, c.past)
    requires pvc in all && pvc !in gone && Removing(b.state, m.state, pod == Some(pvc))
    requires Settled(m.state, c.state, m.state.replicaSets - {pvc}, m.state.services - {pvc})
    requires CalmPast(c.past) ==> StaysSound(m.state, c.state)
    requires m.past.faults == b.past.faults && pvc in b.state.replicaSets ==> pod == Some(pvc)
    requires m.commands.removals == Repeated(b.commands.removals, pod, pvc, n) && c.commands == m.commands
    requires c.requests.mounts == b.requests.mounts + [DeleteReplicaSet(pvc)]
    ensures Deleting(a, c, gone + {pvc}, all, n, own && pod == Some(pvc), sent + [DeleteReplicaSet(pvc)])
  {
    hide Deleted, Removing, Settled, OwnRemovals, Repeated, Onward, Sound, Orphans;
    HeldTransitive(a, b, c);
    OnwardTransitive(a.past, b.past, c.past);
    OnwardTransitive(b.past, m.past, c.past);
    var mine := pod == Some(pvc);
    LessRemoving(a.state, b.state, m.state, gone, own, mine);
    OneMoreDeleted(a.state, b.state, m.state, c.state, gone, pvc, own && mine);
    RemovingFacts(b.state, m.state, mine);
    if pvc in a.state.replicaSets {
      StillThere(a.state, b.state, gone, pvc, own);
    }
    if own && mine {
      OwnRemovalsNext(a.commands.removals, b.commands.removals, gone, n, pvc);
    }
  }

  lemma LessRemoving(s: State, t: State, u: State, gone: set<Pvc>, own: bool, mine: bool)
    requires Deleted(s, t, gone, own) && Removing(t, u, mine)
    ensures Deleted(s, t, gone, own && mine) && Removing(t, u, own && mine)
  {
  }

  lemma StillThere(s: State, t: State, gone: set<Pvc>, p: Pvc, own: bool)
    requires Deleted(s, t, gone, own) && p !in gone && p in s.replicaSets
    ensures p in t.replicaSets
  {
  }

  /** One replica: its removals, and then its service and ReplicaSet; a, gone, own and sent say what has been done so far. */
  method DeleteObsolete(api: Cluster, existing: map<Pvc, string>, toBeDeletedPvcs: set<Pvc>, pvc: Pvc,
                        ghost a: Moment, ghost gone: set<Pvc>, ghost own: bool, ghost sent: seq<Request>)
    returns (r: Outcome, ghost mine: bool)
    requires api.Valid() && pvc !in api.watch.keep && pvc in toBeDeletedPvcs && pvc !in gone
    requires Deleting(a, api.Now(), gone, toBeDeletedPvcs, |existing.Keys - toBeDeletedPvcs|, own, sent)
    modifies api`state, api`trace, api`requests, api`commands, api`faults
    ensures api.Valid() && Held(old(api.Now()), api.Now()) && Told(old(api.SoFar()), api.SoFar(), r, Silent)
    ensures r.Ok? ==> Deleting(a, api.Now(), gone + {pvc}, toBeDeletedPvcs, |existing.Keys - toBeDeletedPvcs|, mine,
                               sent + [DeleteReplicaSet(pvc)])
  {
    hide Cluster.Valid, Onward, Deleting, Removing, Settled, Repeated, Sound, Orphans, Told;
    ghost var b, p0 := api.Now(), api.SoFar();
    ghost var pod;
    r, pod := RemoveAgreements(api, existing, toBeDeletedPvcs, pvc);
    ghost var m, p1 := api.Now(), api.SoFar();
    mine := own && pod == Some(pvc);
    if r.Lost? {
      return;
    }
    r := DeleteReplica(api, pvc);
    OnwardTransitive(p0, p1, api.SoFar());
    if r.Ok? {
      OneMoreDeleting(a, b, m, api.Now(), gone, toBeDeletedPvcs, |existing.Keys - toBeDeletedPvcs|, own, sent, pvc, pod);
    }
  }

  /**
   * Deletes the replicas of toBeDeleted; none which is watched is touched, whatever the outcome. When every request for a
   * pod's name was answered, the agreements of all others stay.
   */
  method DeleteReplicas(api: Cluster, existing: map<Pvc, string>, toBeDeleted: seq<Pvc>) returns (r: Outcome, ghost own: bool)
    requires api.Valid() && Distinct(toBeDeleted) && SetOf(toBeDeleted) !! api.watch.keep
    modifies api`state, api`trace, api`requests, api`commands, api`faults
    ensures api.Valid() && Held(old(api.Now()), api.Now()) && Told(old(api.SoFar()), api.SoFar(), r, Silent)
    ensures toBeDeleted == [] ==> r.Ok? && api.state == old(api.state) && api.requests == old(api.requests)
    ensures r.Ok? ==> Deleting(old(api.Now()), api.Now(), SetOf(toBeDeleted), SetOf(toBeDeleted),
                               |existing.Keys - SetOf(toBeDeleted)|, own, DeleteRequests(toBeDeleted))
  {
    hide Cluster.Valid, Held, Deleting, Distinct, DeleteRequests, SetOf, Told, Onward;
    ghost var a := api.Now();
    OnwardReflexive(a.past);
    var toBeDeletedPvcs := SetOf(toBeDeleted);
    ghost var n, gone: set<Pvc>, sent: seq<Request> := |existing.Keys - toBeDeletedPvcs|, {}, [];
    own := true;
    NoneDeleting(a, toBeDeletedPvcs, n);
    HeldReflexive(a);
    OneMoreDelete(toBeDeleted, 0);
    assert toBeDeleted[..0] == [];
    for i := 0 to |toBeDeleted|
      invariant api.Valid() && Held(a, api.Now()) && Told(a.past, api.SoFar(), Ok, Silent)
      invariant gone == SetOf(toBeDeleted[..i]) && sent == DeleteRequests(toBeDeleted[..i])
      invariant Deleting(a, api.Now(), gone, toBeDeletedPvcs, n, own, sent)
    {
      var pvcName := toBeDeleted[i];
      PrefixGrows(toBeDeleted, i);
      OneMoreDelete(toBeDeleted, i);
      ghost var b := api.Now();
      r, own := DeleteObsolete(api, existing, toBeDeletedPvcs, pvcName, a, gone, own, sent);
      HeldTransitive(a, b, api.Now());
      OnwardTransitive(a.past, b.past, api.SoFar());
      if r != Ok {
        return;
      }
      gone, sent := gone + {pvcName}, sent + [DeleteReplicaSet(pvcName)];
    }
    assert toBeDeleted[..|toBeDeleted|] == toBeDeleted;
    NoneSent(a, api.Now(), toBeDeleted, n, own);
    return Ok, own;
  }

  lemma NoneSent(a: Moment, b: Moment, items: seq<Pvc>, n: nat, own: bool)
    requires Deleting(a, b, SetOf(items), SetOf(items), n, own, DeleteRequests(items))
    ensures items == [] ==> b == a
  {
  }

  lemma HeldReflexive(a: Moment)
    ensures Held(a, a)
  {
    OnwardReflexive(a.past);
  }

  /* ---- what the removals were meant to do ---- */

  /** The removal of q run on the volume of each of the survivors instead. */
  function RemovedFrom(s: State, survivors: seq<Pvc>, q: Pvc): State {
    if survivors == [] then s
    else
      var front, last := survivors[..|survivors| - 1], survivors[|survivors| - 1];
      Apply(RemovedFrom(s, front, q), RunCommand(last, Remove(ReplicaName(s.name, q))))
  }

  /** Then no survivor would keep an agreement with q, and every other agreement would stay. */
  lemma {:induction false} RemovedFromMeetsIntent(s: State, survivors: seq<Pvc>, q: Pvc)
    ensures RemovedFrom(s, survivors, q).name == s.name && RemovedFrom(s, survivors, q).jobs == s.jobs
    ensures forall p: Pvc, x: Pvc :: Edge(RemovedFrom(s, survivors, q), p, x) <==> Edge(s, p, x) && !(p in survivors && x == q)
    decreases |survivors|
  {
    if survivors != [] {
      var front, last := survivors[..|survivors| - 1], survivors[|survivors| - 1];
      RemovedFromMeetsIntent(s, front, q);
      OneRemoval(RemovedFrom(s, front, q), last, q);
      assert survivors == front + [last];
      hide Edge, Apply;
    }
  }

  lemma OneRemoval(s: State, last: Pvc, q: Pvc)
    ensures var t := Apply(s, RunCommand(last, Remove(ReplicaName(s.name, q))));
      && t.name == s.name && t.jobs == s.jobs
      && forall p: Pvc, x: Pvc :: Edge(t, p, x) <==> Edge(s, p, x) && !(p == last && x == q)
  {
    var t := Apply(s, RunCommand(last, Remove(ReplicaName(s.name, q))));
    forall p: Pvc, x: Pvc ensures Edge(t, p, x) <==> Edge(s, p, x) && !(p == last && x == q) {
      NamesAreInjective(s.name, x, q);
    }
  }
}
