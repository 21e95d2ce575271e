/** createReplicas: the whole procedure which brings up new replicas, from the principal's stop to its restart. */
module Create {
  import opened Names
  import opened Documents
  import opened States
  import opened Clusters
  import opened Replicas
  import opened Agreements
  import opened Links
  import opened SeedJobs
  import opened Serve

  /* ---- from the commands of the principal to the end of the seeding ---- */

  /** No active job gets in the way of adding these replicas. */
  ghost predicate SafeToAdd(s: State, principal: Pvc, toBeAdded: seq<Pvc>) {
    && (forall p | p in toBeAdded :: Unmounted(s, p)) && principal !in toBeAdded
    && Untouched(s, principal) && SafeOrder(s, toBeAdded)
  }

  /** The principal is down, and of the rest only volumes and the seed ConfigMap have been changed. */
  ghost predicate Down(s: State, t: State, principal: Pvc) {
    && t.name == s.name && t.replicaSets == s.replicaSets - {principal} && t.services == s.services - {principal}
    && t.strays == s.strays && t.proxy == s.proxy
    && t.configMaps - {SeedConfigMapName(s.name)} == s.configMaps - {SeedConfigMapName(s.name)}
  }

  /**
   * The new volumes have been seeded, and the principal has its agreements with them; nothing is said of volumes which
   * were already being seeded.
   */
  ghost predicate Prepared(s: State, t: State, principal: Pvc, added: set<Pvc>) {
    && Down(s, t, principal) && (Sound(s) ==> Sound(t))
    && (forall p | p in added :: SeededLast(s, t, principal, p))
    && (forall p: Pvc | p !in added && !Seeding(s, p) :: VolumeOf(t, p).seeds == VolumeOf(s, p).seeds)
    && (forall p | Seeding(t, p) :: p !in added && Seeding(s, p) && t.jobs[p].source == s.jobs[p].source)
    && (forall p: Pvc, q: Pvc | p !in added && !Seeding(s, p) ::
      Edge(t, p, q) <==> Edge(s, p, q) || (p == principal && q in added))
  }

  /** From s to t the principal was commanded, from t to u stopped, and from u to v the volumes were seeded. */
  lemma IsDown(s: State, t: State, u: State, v: State, principal: Pvc)
    requires OnlyVolumes(s, t) && Settled(t, u, t.replicaSets - {principal}, t.services - {principal}) && SeedShape(u, v)
    ensures Down(s, v, principal)
    ensures Orphans(v) <= Orphans(u)
    ensures Sound(u) ==> Sound(v)
  {
  }

  lemma IsPrepared(s: State, t: State, u: State, v: State, principal: Pvc, added: set<Pvc>)
    requires OnlyVolumes(s, t) && EdgesAdded(s, t, {principal}, added) && principal !in added
    requires Settled(t, u, t.replicaSets - {principal}, t.services - {principal}) && (Sound(t) ==> Sound(u))
    requires Seeded(u, v, principal, added)
    ensures Prepared(s, v, principal, added)
  {
    hide Sound, Orphans, VolumeOf, Down;
    IsDown(s, t, u, v, principal);
    forall p: Pvc | !Seeding(s, p)
      ensures VolumeOf(u, p) == VolumeOf(t, p)
      ensures p !in added ==> VolumeOf(v, p) == VolumeOf(t, p)
    {
      assert !Seeding(t, p) && !Seeding(u, p);
    }
    forall p | p in added ensures SeededLast(s, v, principal, p) {
      assert SeededLast(u, v, principal, p);
    }
    forall p: Pvc, q: Pvc | p !in added && !Seeding(s, p) ensures Edge(v, p, q) <==> Edge(t, p, q) {
    }
  }

  lemma StillSafe(s: State, t: State, u: State, principal: Pvc, toBeAdded: seq<Pvc>)
    requires SafeToAdd(s, principal, toBeAdded) && OnlyVolumes(s, t) && Orphans(u) <= Orphans(t) - {principal}
    requires Settled(t, u, t.replicaSets - {principal}, t.services - {principal})
    ensures SafeToSeed(u, principal, toBeAdded)
  {
    forall p | p in toBeAdded ensures Unmounted(u, p) {
      assert p !in Orphans(s) && p !in Orphans(t) && p !in Orphans(u);
    }
    assert principal !in Orphans(u);
    NoNewJobsUntouched(s, t, principal);
    NoNewJobsUntouched(t, u, principal);
    OrderStays(s, t, toBeAdded);
    OrderStays(t, u, toBeAdded);
  }

  lemma OrderStays(s: State, t: State, items: seq<Pvc>)
    requires NoNewJobs(s, t) && SafeOrder(s, items)
    ensures SafeOrder(t, items)
  {
  }

  lemma OrphansStay(s: State, t: State)
    requires OnlyVolumes(s, t)
    ensures Orphans(t) <= Orphans(s) && (Sound(s) ==> Sound(t))
    ensures t.name == s.name
  {
  }

  function DownRequests(principal: Pvc, items: seq<Pvc>): seq<Request> {
    [DeleteReplicaSet(principal)] + SeedRequests(principal, items)
  }

  ghost predicate AllClear(s: State, principal: Pvc, items: seq<Pvc>) {
    forall p | p == principal || p in items :: Untouched(s, p)
  }

  /** Commands the principal, stops it, and seeds the new volumes from its volume. */
  method SeedFromPrincipal(api: Cluster, h: RequestHandle, principal: Pvc, toBeAdded: seq<Pvc>) returns (r: Outcome)
    requires api.Valid() && Distinct(toBeAdded) && principal !in toBeAdded && principal !in api.watch.keep
    modifies api`state, api`trace, api`requests, api`commands, api`faults, api`breaches
    ensures api.Valid() && Onward(old(api.SoFar()), api.SoFar()) && api.faults.refused == old(api.faults.refused)
    ensures Told(old(api.SoFar()), api.SoFar(), r, Silent)
    ensures r.Ok? ==> Tidied(old(api.SoFar()), api.SoFar(), api.state)
    ensures SafeToAdd(old(api.state), principal, toBeAdded) && api.Calm() ==> api.breaches == old(api.breaches)
    ensures api.requests.clashes == old(api.requests.clashes)
    ensures r.Ok? ==> api.requests.mounts == old(api.requests.mounts) + DownRequests(principal, toBeAdded)
    ensures r.Ok? ==> Down(old(api.state), api.state, principal)
    ensures r.Ok? && api.Calm() ==> Orphans(api.state) <= Orphans(old(api.state))
    ensures r.Ok? && api.Calm() && SafeToAdd(old(api.state), principal, toBeAdded) ==> AllClear(api.state, principal, toBeAdded)
    ensures r.Ok? && api.Good() && principal in old(api.state.replicaSets) ==>
      && Prepared(old(api.state), api.state, principal, SetOf(toBeAdded))
      && api.commands.issued == old(api.commands.issued)
         + multiset(CommandsFor(Plan(api.directory, h.config, principal), {principal}, SetOf(toBeAdded)))
  {
    hide Cluster.Valid, Onward, OnlyVolumes, EdgesAdded, Settled, Seeded, SeedShape, SafeToAdd, SafeToSeed, Orphans, Sound, Down,
         Prepared, Untouched, CommandsFor, SetOf, Distinct, SeedRequests, Told, Tidied;
    ghost var s, p0 := api.state, api.SoFar();
    r := CommandPrincipal(api, h, principal, toBeAdded);
    ghost var t, p1 := api.state, api.SoFar();
    OrphansStay(s, t);
    if r != Ok {
      return;
    }
    r := DeleteReplica(api, principal);
    ghost var u, p2 := api.state, api.SoFar();
    OnwardTransitive(p0, p1, p2);
    if r != Ok {
      return;
    }
    r := SeedReplicas(api, principal, toBeAdded);
    OnwardTransitive(p0, p2, api.SoFar());
    if r.Ok? {
      OnwardReflexive(api.SoFar());
      TidiedLonger(p0, p2, api.SoFar(), api.SoFar(), api.state, api.state);
    }
    IsDown(s, t, u, api.state, principal);
    if SafeToAdd(s, principal, toBeAdded) && api.Calm() {
      StillSafe(s, t, u, principal, toBeAdded);
    }
    if r.Ok? && api.Good() && principal in s.replicaSets {
      NotInSet(toBeAdded, principal);
      IsPrepared(s, t, u, api.state, principal, SetOf(toBeAdded));
    }
  }

  lemma NotInSet(items: seq<Pvc>, p: Pvc)
    ensures p in SetOf(items) <==> p in items
  {
  }

  /* ---- from the start of the new replicas to the restart of the principal ---- */

  /** At most these ReplicaSets have come, some services and agreements, and no job. */
  ghost predicate Brought(s: State, t: State, pvcs: set<Pvc>) {
    && t.name == s.name && t.replicaSets <= s.replicaSets + pvcs && s.strays <= t.strays
    && t.configMaps == s.configMaps && t.proxy == s.proxy && NoNewJobs(s, t) && Orphans(t) <= Orphans(s)
  }

  /** Exactly these have come, with their pods and services. */
  ghost predicate BroughtUp(s: State, t: State, port: int, pvcs: set<Pvc>) {
    && Brought(s, t, pvcs)
    && t.replicaSets == s.replicaSets + pvcs && (Sound(s) ==> Sound(t))
    && t.services == s.services + ServiceMap(pvcs, port) && t.strays == s.strays
  }

  /** Every one of them has its ReplicaSet, and no service has come but those of replicas. */
  predicate Faithful(s: State, t: State, added: set<Pvc>) {
    added <= t.replicaSets && t.strays == s.strays
  }

  lemma NoNewJobsTransitive(s: State, t: State, u: State)
    requires NoNewJobs(s, t) && NoNewJobs(t, u)
    ensures NoNewJobs(s, u)
  {
  }

  /** From s to t the new replicas were deployed, to u awaited, to v linked. */
  lemma BeforeServing(s: State, t: State, u: State, v: State, names: map<Pvc, string>, f: Faults, g: Faults)
    requires Starting(s, t, f, g, names) && Later(t, u) && OnlyVolumes(u, v)
    ensures v.name == s.name && v.services == s.services && u.replicaSets == t.replicaSets && v.strays == s.strays
    ensures g == f ==> NamesFor(s.name, names) && t.replicaSets == s.replicaSets + names.Keys
  {
  }

  /** And to w served. */
  lemma OthersBrought(s: State, t: State, u: State, v: State, w: State, names: map<Pvc, string>, f: Faults, g: Faults)
    requires Starting(s, t, f, g, names) && Later(t, u) && OnlyVolumes(u, v) && OnlyServes(v, w)
    ensures Brought(s, w, names.Keys)
    ensures names.Keys !! s.replicaSets && g.refused != f.refused ==> !(names.Keys <= w.replicaSets)
    ensures g == f ==> w.replicaSets == s.replicaSets + names.Keys && (Sound(s) ==> Sound(w))
  {
    hide NamesFor, Sound, Orphans;
    NoNewJobsTransitive(s, t, u);
    NoNewJobsTransitive(s, u, v);
    NoNewJobsTransitive(s, v, w);
  }

  /** Agreements are only added between u and v. */
  lemma EdgesThrough(s: State, t: State, u: State, v: State, w: State, names: map<Pvc, string>, f: Faults,
                     sources: set<Pvc>, dests: set<Pvc>)
    requires Starting(s, t, f, f, names) && Later(t, u) && OnlyVolumes(u, v) && OnlyServes(v, w)
    requires EdgesAdded(u, v, sources, dests)
    ensures EdgesAdded(s, w, sources, dests)
  {
    hide NamesFor, Sound, Orphans;
    assert Still(s, t) && Still(t, u) && NoNewJobs(u, v) && Still(v, w);
    forall p: Pvc | !Seeding(s, p)
      ensures !Seeding(u, p) && VolumeOf(u, p) == VolumeOf(s, p) && VolumeOf(w, p) == VolumeOf(v, p)
    {
      assert !Seeding(t, p) && !Seeding(u, p) && !Seeding(v, p);
    }
    forall p: Pvc, q: Pvc | !Seeding(s, p) ensures Edge(u, p, q) == Edge(s, p, q) && Edge(w, p, q) == Edge(v, p, q) {
    }
    hide VolumeOf;
  }

  /** The replica is there, and its pod is ready. */
  predicate Live(s: State, p: Pvc) {
    p in s.replicaSets && Ready(s, p)
  }

  /** In some state from from up to to, p is live, while the principal is down. */
  ghost predicate LiveOnce(trace: seq<Event>, from: int, to: int, principal: Pvc, p: Pvc) {
    exists i | from <= i < to && 0 <= i < |trace| :: Live(trace[i].state, p) && principal !in trace[i].state.replicaSets
  }

  /** Before k each of pvcs has been live and none linked, before l all are linked, and none has got its service. */
  ghost predicate InTurn(trace: seq<Event>, from: nat, to: nat, k: nat, l: nat, principal: Pvc, pvcs: set<Pvc>) {
    && from <= k <= l <= to <= |trace|
    && (forall p | p in pvcs :: LiveOnce(trace, from - 1, k, principal, p))
    && !Any(trace, from, k, Link) && !Any(trace, from, l, Serve) && !Any(trace, l, to, Link)
  }

  /** Each new replica has been seen live, with the principal down, before any is linked, and linked before any is served. */
  ghost predicate Raised(trace: seq<Event>, from: nat, to: nat, principal: Pvc, pvcs: set<Pvc>) {
    exists k: nat, l: nat :: InTurn(trace, from, to, k, l, principal, pvcs)
  }

  lemma AnyPrefix(trace: seq<Event>, more: seq<Event>, from: int, to: int, kind: Kind)
    requires trace <= more && to <= |trace|
    ensures Any(trace, from, to, kind) <==> Any(more, from, to, kind)
  {
    forall i | 0 <= i < |trace| ensures trace[i] == more[i] {
    }
    hide KindOf;
  }

  lemma LiveOnceLonger(trace: seq<Event>, more: seq<Event>, from: int, to: int, principal: Pvc, p: Pvc, from': int)
    requires LiveOnce(trace, from, to, principal, p) && trace <= more && from' <= from
    ensures LiveOnce(more, from', to, principal, p)
  {
    var i :| from <= i < to && 0 <= i < |trace| && Live(trace[i].state, p) && principal !in trace[i].state.replicaSets;
    assert more[i] == trace[i];
  }

  /** From a to b they were deployed, to c awaited, to d linked, and to e served. */
  lemma IsRaised(s: State, a: Past, b: Past, c: Past, d: Past, e: Past, principal: Pvc, pvcs: set<Pvc>)
    requires Onward(a, b) && Onward(b, c) && Onward(c, d) && Onward(d, e)
    requires Told(a, c, Ok, Silent) && Told(a, d, Ok, MayLink) && Told(d, e, Ok, MayServe)
    requires AllSeenReady(s, b, c, pvcs) && pvcs <= s.replicaSets && principal !in s.replicaSets
    ensures Raised(e.trace, |a.trace|, |e.trace|, principal, pvcs)
  {
    hide Any, Ready;
    AnyPrefix(c.trace, e.trace, |a.trace|, |c.trace|, Link);
    AnyPrefix(d.trace, e.trace, |a.trace|, |d.trace|, Serve);
    forall p | p in pvcs ensures LiveOnce(e.trace, |a.trace| - 1, |c.trace|, principal, p) {
      assert SeenReady(s, b, c, p);
      var i :| |b.trace| - 1 <= i < |c.trace| && 0 <= i && Later(s, c.trace[i].state) && Ready(c.trace[i].state, p);
      assert e.trace[i] == c.trace[i];
    }
    assert InTurn(e.trace, |a.trace|, |e.trace|, |c.trace|, |d.trace|, principal, pvcs);
  }

  /** Nothing is linked or served before, and nothing linked after. */
  lemma RaisedLonger(a: Past, b: Past, c: Past, d: Past, principal: Pvc, pvcs: set<Pvc>, x: Scope)
    requires Onward(a, b) && Onward(b, c) && Onward(c, d) && Raised(c.trace, |b.trace|, |c.trace|, principal, pvcs)
    requires Told(a, b, Ok, Silent) && Told(c, d, Ok, x) && x in {Silent, MayServe}
    ensures Raised(d.trace, |a.trace|, |d.trace|, principal, pvcs)
  {
    var k: nat, l: nat :| InTurn(c.trace, |b.trace|, |c.trace|, k, l, principal, pvcs);
    forall p | p in pvcs ensures LiveOnce(d.trace, |a.trace| - 1, k, principal, p) {
      LiveOnceLonger(c.trace, d.trace, |b.trace| - 1, k, principal, p, |a.trace| - 1);
    }
    AnyJoins(d.trace, |a.trace|, |b.trace|, k, Link);
    AnyJoins(d.trace, |a.trace|, |b.trace|, l, Serve);
    AnyJoins(d.trace, l, |c.trace|, |d.trace|, Link);
    AnyPrefix(b.trace, d.trace, |a.trace|, |b.trace|, Link);
    AnyPrefix(b.trace, d.trace, |a.trace|, |b.trace|, Serve);
    AnyPrefix(c.trace, d.trace, |b.trace|, k, Link);
    AnyPrefix(c.trace, d.trace, |b.trace|, l, Serve);
    AnyPrefix(c.trace, d.trace, l, |c.trace|, Link);
    assert InTurn(d.trace, |a.trace|, |d.trace|, k, l, principal, pvcs);
  }

  lemma AnyJoins(more: seq<Event>, from: int, mid: int, to: int, kind: Kind)
    requires from <= mid <= to
    ensures Any(more, from, to, kind) ==> Any(more, from, mid, kind) || Any(more, mid, to, kind)
  {
  }

  /** Starts and links the new replicas, and creates their services. */
  method BringUpOthers(api: Cluster, h: RequestHandle, principal: Pvc, toBeAdded: seq<Pvc>, existing0: map<Pvc, string>)
    returns (r: Outcome, existing: map<Pvc, string>)
    requires api.Valid() && Distinct(toBeAdded)
    modifies api`state, api`trace, api`requests, api`commands, api`faults, api`breaches
    ensures api.Valid() && Onward(old(api.SoFar()), api.SoFar()) && api.Calm() == old(api.Calm())
    ensures Told(old(api.SoFar()), api.SoFar(), r, MayBoth)
    ensures r.Ok? && api.Good() && principal !in old(api.state.replicaSets) && principal !in toBeAdded ==>
      Raised(api.trace, old(|api.trace|), |api.trace|, principal, SetOf(toBeAdded))
    ensures AllUntouched(old(api.state), toBeAdded) ==> api.breaches == old(api.breaches)
    ensures api.Good() && SetOf(toBeAdded) !! old(api.state.replicaSets) && SetOf(toBeAdded) !! old(api.state.services).Keys
            ==> api.requests.clashes == old(api.requests.clashes)
    ensures r.Ok? ==> api.requests.mounts == old(api.requests.mounts) + StartRequests(toBeAdded)
    ensures r.Ok? ==> existing.Keys == existing0.Keys + SetOf(toBeAdded)
    ensures r.Ok? ==> Brought(old(api.state), api.state, SetOf(toBeAdded))
    ensures r.Ok? && api.faults.refused != old(api.faults.refused) && SetOf(toBeAdded) !! old(api.state.replicaSets)
            ==> !(SetOf(toBeAdded) <= api.state.replicaSets)
    ensures r.Ok? && api.Good() ==> BroughtUp(old(api.state), api.state, h.config.port, SetOf(toBeAdded))
    ensures r.Ok? && api.Good() && Peers(existing, principal) <= old(api.state.replicaSets) + SetOf(toBeAdded) ==>
      && EdgesAdded(old(api.state), api.state, Peers(existing, principal), SetOf(toBeAdded))
      && api.commands.issued == old(api.commands.issued)
         + multiset(CommandsFor(Plan(api.directory, h.config, principal), Peers(existing, principal), SetOf(toBeAdded)))
  {
    hide Cluster.Valid, Onward, Starting, Later, OnlyVolumes, EdgesAdded, OnlyServes, Brought, NamesFor, Untouched, CommandsFor,
         SetOf, Distinct, StartRequests, Orphans, Sound, ServiceMap, AllSeenReady, AllUntouched, Peers,
         Told, Raised;
    existing := existing0;
    ghost var s, p0 := api.state, api.SoFar();
    api.NameIsDirectory();
    var replicaPods;
    r, replicaPods := StartReplicas(api, toBeAdded);
    ghost var t, p1 := api.state, api.SoFar();
    ToldWider(p0, p1, r, MayBoth);
    if r != Ok {
      return;
    }
    existing := existing + replicaPods;
    r := AwaitReplicas(api, replicaPods);
    ghost var u, p2 := api.state, api.SoFar();
    OnwardTransitive(p0, p1, p2);
    ToldWider(p0, p2, r, MayBoth);
    if r != Ok {
      return;
    }
    r := LinkReplicas(api, h, principal, toBeAdded, existing);
    ghost var v, p3 := api.state, api.SoFar();
    OnwardTransitive(p0, p2, p3);
    ToldWider(p0, p3, r, MayLink);
    if r != Ok {
      return;
    }
    BeforeServing(s, t, u, v, replicaPods, p0.faults, p1.faults);
    r := ServeReplicas(api, h, replicaPods);
    OnwardTransitive(p0, p3, api.SoFar());
    NotInSet(toBeAdded, principal);
    if r.Ok? {
      OthersAreUp(s, t, u, v, api.state, p0, p1, p2, p3, api.SoFar(), replicaPods, principal, Peers(existing, principal));
    }
  }

  /** From p0 to p1 the new replicas were deployed, to p2 awaited, to p3 linked, and to p4 served. */
  lemma OthersAreUp(s: State, t: State, u: State, v: State, w: State, p0: Past, p1: Past, p2: Past, p3: Past, p4: Past,
                    names: map<Pvc, string>, principal: Pvc, peers: set<Pvc>)
    requires Onward(p0, p1) && Onward(p1, p2) && Onward(p2, p3) && Onward(p3, p4) && Onward(p0, p4)
    requires Starting(s, t, p0.faults, p1.faults, names) && Later(t, u) && OnlyVolumes(u, v) && OnlyServes(v, w)
    requires Told(p0, p2, Ok, Silent) && Told(p0, p3, Ok, MayLink) && Told(p3, p4, Ok, MayServe)
    requires p1.faults == p0.faults ==> t.replicaSets == s.replicaSets + names.Keys
    requires GoodPast(p4) ==> AllSeenReady(t, p1, p2, names.Keys)
    ensures Brought(s, w, names.Keys)
    ensures names.Keys !! s.replicaSets && p1.faults.refused != p0.faults.refused ==> !(names.Keys <= w.replicaSets)
    ensures GoodPast(p4) ==> w.replicaSets == s.replicaSets + names.Keys && (Sound(s) ==> Sound(w))
    ensures GoodPast(p4) && principal !in s.replicaSets && principal !in names ==>
      Raised(p4.trace, |p0.trace|, |p4.trace|, principal, names.Keys)
    ensures GoodPast(p4) && EdgesAdded(u, v, peers, names.Keys) ==> EdgesAdded(s, w, peers, names.Keys)
  {
    hide Onward, Starting, Later, OnlyVolumes, EdgesAdded, OnlyServes, Brought, Sound, AllSeenReady, Told, Raised, Any;
    OnwardTransitive(p0, p1, p4) by {
      OnwardTransitive(p1, p2, p3);
      OnwardTransitive(p1, p3, p4);
    }
    OthersBrought(s, t, u, v, w, names, p0.faults, p1.faults);
    if GoodPast(p4) && principal !in s.replicaSets && principal !in names {
      IsRaised(t, p0, p1, p2, p3, p4, principal, names.Keys);
    }
    if GoodPast(p4) && EdgesAdded(u, v, peers, names.Keys) {
      EdgesThrough(s, t, u, v, w, names, p0.faults, peers, names.Keys);
    }
  }

  /** None of these has a ReplicaSet or a service. */
  ghost predicate Unused(s: State, pvcs: set<Pvc>) {
    pvcs !! s.replicaSets && pvcs !! s.services.Keys
  }

  function UpRequests(principal: Pvc, items: seq<Pvc>): seq<Request> {
    StartRequests(items) + [CreateReplicaSet(principal)]
  }

  lemma PrincipalBrought(s: State, t: State, u: State, principal: Pvc, added: set<Pvc>, refused: bool)
    requires Brought(s, t, added) && Started(t, u, principal, refused) && principal !in added
    ensures Brought(s, u, added + {principal})
    ensures !(added <= t.replicaSets) ==> !Faithful(s, u, added)
  {
    hide Orphans;
    NoNewJobsTransitive(s, t, u);
  }

  lemma PrincipalRefused(s: State, t: State, u: State, port: int, principal: Pvc, added: set<Pvc>)
    requires BroughtUp(s, t, port, added) && Started(t, u, principal, true) && AllServed(s)
    ensures !Faithful(s, u, added)
  {
    hide Orphans, Sound, NoNewJobs;
    assert t.services.Keys == s.services.Keys + added;
  }

  lemma PrincipalUp(s: State, t: State, u: State, port: int, principal: Pvc, added: set<Pvc>)
    requires BroughtUp(s, t, port, added) && Started(t, u, principal, false) && StartedWell(t, u, principal, port)
    ensures BroughtUp(s, u, port, added + {principal}) && Ready(u, principal)
    ensures forall sources | EdgesAdded(s, t, sources, added) :: EdgesAdded(s, u, sources, added)
  {
    hide Orphans, Sound, ReplicaName, Ready;
    NoNewJobsTransitive(s, t, u);
    assert (s.services + ServiceMap(added, port))[principal := Service(port, principal)]
        == s.services + ServiceMap(added + {principal}, port);
    forall sources | EdgesAdded(s, t, sources, added) ensures EdgesAdded(s, u, sources, added) {
      forall p: Pvc, q: Pvc | !Seeding(s, p) ensures Edge(u, p, q) == Edge(t, p, q) && VolumeOf(u, p) == VolumeOf(t, p) {
        assert !Seeding(t, p);
      }
      hide VolumeOf;
    }
  }

  lemma ClearMeansUntouched(s: State, t: State, principal: Pvc, items: seq<Pvc>, pvcs: set<Pvc>)
    ensures AllClear(s, principal, items) ==> AllUntouched(s, items)
    ensures Brought(s, t, pvcs) && AllClear(s, principal, items) ==> Untouched(t, principal)
  {
    if Brought(s, t, pvcs) && AllClear(s, principal, items) {
      NoNewJobsUntouched(s, t, principal);
    }
  }

  /** Brings up the new replicas, and starts the principal again. */
  method BringUp(api: Cluster, h: RequestHandle, principal: Pvc, toBeAdded: seq<Pvc>, existing0: map<Pvc, string>)
    returns (r: Outcome, existing: map<Pvc, string>)
    requires api.Valid() && Distinct(toBeAdded) && principal !in toBeAdded
    modifies api`state, api`trace, api`requests, api`commands, api`faults, api`breaches
    ensures api.Valid() && Onward(old(api.SoFar()), api.SoFar()) && api.Calm() == old(api.Calm())
    ensures Told(old(api.SoFar()), api.SoFar(), r, MayBoth)
    ensures r.Ok? && api.Good() && principal !in old(api.state.replicaSets) ==>
      Raised(api.trace, old(|api.trace|), |api.trace|, principal, SetOf(toBeAdded))
    ensures r.Ok? && api.Good() ==> Ready(api.state, principal)
    ensures AllClear(old(api.state), principal, toBeAdded) ==> api.breaches == old(api.breaches)
    ensures api.Good() && Unused(old(api.state), SetOf(toBeAdded) + {principal})
            ==> api.requests.clashes == old(api.requests.clashes)
    ensures r.Ok? ==> api.requests.mounts == old(api.requests.mounts) + UpRequests(principal, toBeAdded)
    ensures r.Ok? ==> existing.Keys == existing0.Keys + SetOf(toBeAdded)
    ensures r.Ok? ==> Brought(old(api.state), api.state, SetOf(toBeAdded) + {principal})
    ensures && r.Ok? && old(api.Good()) && OnlyRefused(api.faults) && !api.Good()
            && AllServed(old(api.state)) && SetOf(toBeAdded) !! old(api.state).replicaSets
            ==> !Faithful(old(api.state), api.state, SetOf(toBeAdded))
    ensures r.Ok? && api.Good() ==> BroughtUp(old(api.state), api.state, h.config.port, SetOf(toBeAdded) + {principal})
    ensures r.Ok? && api.Good() && Peers(existing, principal) <= old(api.state.replicaSets) + SetOf(toBeAdded) ==>
      && EdgesAdded(old(api.state), api.state, Peers(existing, principal), SetOf(toBeAdded))
      && api.commands.issued == old(api.commands.issued)
         + multiset(CommandsFor(Plan(api.directory, h.config, principal), Peers(existing, principal), SetOf(toBeAdded)))
  {
    hide Cluster.Valid, Onward, EdgesAdded, Started, StartedWell, Brought, BroughtUp, Faithful, Untouched, CommandsFor,
         SetOf, Distinct, StartRequests, Orphans, Ready, AllUntouched, AllClear, Peers, ServiceMap,
         Told, Raised;
    ghost var s, p0, added := api.state, api.SoFar(), SetOf(toBeAdded);
    NotInSet(toBeAdded, principal);
    ClearMeansUntouched(s, s, principal, toBeAdded, {});
    r, existing := BringUpOthers(api, h, principal, toBeAdded, existing0);
    ghost var t, p1 := api.state, api.SoFar();
    if r != Ok {
      return;
    }
    ClearMeansUntouched(s, t, principal, toBeAdded, added);
    NotUsedYet(s, t, h.config.port, principal, added);
    var principalDeployment;
    r, principalDeployment := StartServed(api, h, principal);
    OnwardTransitive(p0, p1, api.SoFar());
    if r.Ok? {
      PrincipalBrought(s, t, api.state, principal, added, api.faults.refused != p1.faults.refused);
      if api.Good() {
        PrincipalUp(s, t, api.state, h.config.port, principal, added);
        if principal !in s.replicaSets {
          OnwardReflexive(p0);
          RaisedLonger(p0, p0, p1, api.SoFar(), principal, added, MayServe);
        }
      } else if GoodPast(p1) && api.faults.refused != 0 && AllServed(s) {
        PrincipalRefused(s, t, api.state, h.config.port, principal, added);
      }
    }
  }

  lemma NotUsedYet(s: State, t: State, port: int, principal: Pvc, added: set<Pvc>)
    requires principal !in added
    ensures BroughtUp(s, t, port, added) && Unused(s, added + {principal}) ==>
      principal !in t.replicaSets && principal !in t.services
  {
  }

  /* ---- the whole procedure ---- */

  /**
   * The outcome for the volumes: those of added have been seeded last from the principal, and only so since, and no other
   * one has; every replica of all has an agreement with every other one of added, and the volumes not seeded have kept the
   * others. Nothing is said of volumes which were already being seeded.
   */
  ghost predicate Joined(s: State, t: State, principal: Pvc, all: set<Pvc>, added: set<Pvc>) {
    && (forall p: Pvc, q: Pvc | p !in added && !Seeding(s, p) :: Edge(t, p, q) <==> Edge(s, p, q) || (p in all && q in added))
    && (forall p: Pvc, q: Pvc | p in added && q in added && p != q :: Edge(t, p, q))
    && (forall p | p in added :: SeededLast(s, t, principal, p) && !Seeding(t, p))
    && (forall p: Pvc | p !in added && !Seeding(s, p) :: VolumeOf(t, p).seeds == VolumeOf(s, p).seeds)
  }

  lemma IsJoined(s: State, t: State, u: State, principal: Pvc, added: set<Pvc>, all: set<Pvc>)
    requires Prepared(s, t, principal, added) && EdgesAdded(t, u, all - {principal}, added) && u.name == t.name && NoNewJobs(t, u)
    requires principal in all && principal !in added && added <= all
    ensures Joined(s, u, principal, all, added)
  {
    hide Sound, VolumeOf;
    forall p: Pvc | !Seeding(s, p) || p in added ensures !Seeding(t, p) && VolumeOf(u, p).seeds == VolumeOf(t, p).seeds {
    }
  }

  /** The set of PVCs which a run of createReplicas seeds: all of the new ones, but for the first of a new directory. */
  ghost function ToBeSeeded(existing: set<Pvc>, toBeAdded: seq<Pvc>): set<Pvc> {
    if existing == {} && toBeAdded != [] then SetOf(toBeAdded[1..]) else SetOf(toBeAdded)
  }

  /** The PVCs whose services it creates: the new ones, and the principal's anew. */
  ghost function Renewed(toBeAdded: seq<Pvc>, principal: Pvc): set<Pvc> {
    if toBeAdded == [] then {} else SetOf(toBeAdded) + {principal}
  }

  ghost predicate SameButSeedConfig(s: State, t: State) {
    && t.name == s.name && t.proxy == s.proxy
    && t.configMaps - {SeedConfigMapName(s.name)} == s.configMaps - {SeedConfigMapName(s.name)}
  }

  /** What a createReplicas which met no fault makes of s. */
  ghost predicate Created(s: State, t: State, principal: Pvc, before: set<Pvc>, toBeAdded: seq<Pvc>, port: int) {
    && t.replicaSets == before + SetOf(toBeAdded) && (Sound(s) ==> Sound(t)) && (toBeAdded != [] ==> Ready(t, principal))
    && t.services == s.services + ServiceMap(Renewed(toBeAdded, principal), port) && t.strays == s.strays
    && SameButSeedConfig(s, t) && NoNewJobs(s, t)
    && Joined(s, t, principal, before + SetOf(toBeAdded), ToBeSeeded(before, toBeAdded))
  }

  /** The commands of a successful createReplicas: exactly one for each pair of a replica and another one which is new. */
  ghost function Commanded(plan: Plan, before: set<Pvc>, toBeAdded: seq<Pvc>): multiset<Issue> {
    multiset(CommandsFor(plan, before + SetOf(toBeAdded), ToBeSeeded(before, toBeAdded)))
  }

  lemma ServicesAnew(services: map<Pvc, Service>, pvcs: set<Pvc>, p: Pvc, port: int)
    requires p in pvcs
    ensures services - {p} + ServiceMap(pvcs, port) == services + ServiceMap(pvcs, port)
  {
  }

  lemma NothingStarts(s: State, t: State, u: State, port: int, principal: Pvc, added: set<Pvc>, pvcs: set<Pvc>)
    requires Prepared(s, t, principal, added) && Brought(t, u, pvcs)
    ensures NoNewJobs(s, u) && SameButSeedConfig(s, u)
  {
    hide Sound, Orphans, Edge, VolumeOf;
    assert NoNewJobs(s, t);
    NoNewJobsTransitive(s, t, u);
  }

  lemma IsCreated(s: State, t: State, u: State, port: int, principal: Pvc, toBeAdded: seq<Pvc>)
    requires principal in s.replicaSets && principal !in toBeAdded && toBeAdded != []
    requires Prepared(s, t, principal, SetOf(toBeAdded)) && BroughtUp(t, u, port, SetOf(toBeAdded) + {principal})
    requires EdgesAdded(t, u, s.replicaSets + SetOf(toBeAdded) - {principal}, SetOf(toBeAdded)) && Ready(u, principal)
    ensures Created(s, u, principal, s.replicaSets, toBeAdded, port)
  {
    hide Sound, Orphans, EdgesAdded, Edge, VolumeOf, Joined, ServiceMap, SetOf, NoNewJobs, SameButSeedConfig;
    NotInSet(toBeAdded, principal);
    IsJoined(s, t, u, principal, SetOf(toBeAdded), s.replicaSets + SetOf(toBeAdded));
    NothingStarts(s, t, u, port, principal, SetOf(toBeAdded), SetOf(toBeAdded) + {principal});
    ServicesAnew(s.services, SetOf(toBeAdded) + {principal}, principal, port);
  }

  /** The commands of the principal and of the others make up one for each pair of a replica and another one which is new. */
  lemma CommandsSplit(plan: Plan, before: set<Pvc>, toBeAdded: seq<Pvc>)
    requires plan.principal in before
    ensures var all, added := before + SetOf(toBeAdded), SetOf(toBeAdded);
      Commanded(plan, before, toBeAdded)
      == multiset(CommandsFor(plan, {plan.principal}, added)) + multiset(CommandsFor(plan, all - {plan.principal}, added))
  {
    var all, added := before + SetOf(toBeAdded), SetOf(toBeAdded);
    var mine, others := CommandsFor(plan, {plan.principal}, added), CommandsFor(plan, all - {plan.principal}, added);
    assert mine !! others;
    assert CommandsFor(plan, all, added) == mine + others;
  }

  /** Behind the state number from there is one with exactly these ReplicaSets, and their pods. */
  ghost predicate Passed(trace: seq<Event>, from: int, pvcs: set<Pvc>) {
    exists i | from <= i < |trace| && 0 <= i :: trace[i].state.replicaSets == trace[i].state.pods.Keys == pvcs
  }

  lemma HasPassed(trace: seq<Event>, more: seq<Event>, from: int, s: State)
    requires 0 < |trace| && trace <= more && from < |trace| && trace[|trace| - 1].state == s && Sound(s)
    ensures Passed(more, from, s.replicaSets)
  {
    assert more[|trace| - 1] == trace[|trace| - 1];
  }

  function AddRequests(principal: Pvc, items: seq<Pvc>): seq<Request> {
    DownRequests(principal, items) + UpRequests(principal, items)
  }

  lemma DownIsUnused(s: State, t: State, principal: Pvc, added: set<Pvc>)
    requires Down(s, t, principal)
    ensures Unused(s, added) ==> Unused(t, added + {principal})
    ensures t.strays == s.strays && t.replicaSets == s.replicaSets - {principal}
    ensures s.replicaSets <= s.services.Keys ==> t.replicaSets <= t.services.Keys
  {
  }

  /** What is claimed of adding replicas to a principal: a is before, b is after. */
  ghost predicate Added(a: Moment, b: Moment, existing: set<Pvc>, toBeAdded: seq<Pvc>, principal: Pvc, config: ServerConfig,
                        ok: bool) {
    var s, t := a.state, b.state;
    && Onward(a.past, b.past)
    && (SafeToAdd(s, principal, toBeAdded) && CalmPast(b.past) ==> b.past.breaches == a.past.breaches)
    && (GoodPast(b.past) && Unused(s, SetOf(toBeAdded)) ==> b.requests.clashes == a.requests.clashes)
    && (ok ==> b.requests.mounts == a.requests.mounts + AddRequests(principal, toBeAdded))
    && (ok ==> s.strays <= t.strays)
    && (ok ==> Tidied(a.past, b.past, t))
    && (ok && GoodPast(a.past) && OnlyRefused(b.past.faults) && AllServed(s) && SetOf(toBeAdded) !! s.replicaSets ==>
        GoodPast(b.past) || !Faithful(s, t, SetOf(toBeAdded)))
    && (ok && GoodPast(b.past) && principal in existing && existing == s.replicaSets ==>
        && Created(s, t, principal, existing, toBeAdded, config.port)
        && b.commands.issued == a.commands.issued + Commanded(Plan(s.name, config, principal), existing, toBeAdded)
        && (Sound(s) ==> Passed(b.past.trace, |a.past.trace| - 1, existing - {principal}))
        && Raised(b.past.trace, |a.past.trace|, |b.past.trace|, principal, SetOf(toBeAdded)))
  }

  /** From an existing principal: lines 123 to 287 of the source. */
  method AddReplicas(api: Cluster, h: RequestHandle, principal: Pvc, existing0: map<Pvc, string>, toBeAdded: seq<Pvc>)
    returns (r: Outcome, existing: map<Pvc, string>)
    requires api.Valid() && Distinct(toBeAdded) && principal !in toBeAdded && principal !in api.watch.keep && toBeAdded != []
    modifies api`state, api`trace, api`requests, api`commands, api`faults, api`breaches
    ensures api.Valid() && Told(old(api.SoFar()), api.SoFar(), r, MayBoth)
    ensures Added(old(api.Now()), api.Now(), existing0.Keys, toBeAdded, principal, h.config, r.Ok?)
    ensures r.Ok? ==> existing.Keys == existing0.Keys + SetOf(toBeAdded)
  {
    hide Cluster.Valid, Onward, EdgesAdded, Brought, BroughtUp, Faithful, Untouched, CommandsFor, Down, Prepared, Created,
         SetOf, Distinct, Orphans, Sound, AllClear, SafeToAdd, DownRequests, UpRequests, Unused, Passed,
         Commanded, Peers, Told, Raised, Tidied, Ready;
    existing := existing0;
    ghost var s, p0, added := api.state, api.SoFar(), SetOf(toBeAdded);
    api.NameIsDirectory();
    r := SeedFromPrincipal(api, h, principal, toBeAdded);
    ghost var t, p1 := api.state, api.SoFar();
    api.LastState();
    ToldWider(p0, p1, r, MayBoth);
    if r != Ok {
      return;
    }
    DownIsUnused(s, t, principal, added);
    r, existing := BringUp(api, h, principal, toBeAdded, existing0);
    OnwardTransitive(p0, p1, api.SoFar());
    if r.Ok? {
      AddedFacts(s, t, api.state, added, principal);
      OnwardReflexive(p0);
      TidiedLonger(p0, p0, p1, api.SoFar(), t, api.state);
      if api.Good() && principal in existing0 && existing0.Keys == s.replicaSets {
        AllButPrincipal(existing0.Keys, added, principal, existing);
        IsCreated(s, t, api.state, h.config.port, principal, toBeAdded);
        CommandsSplit(Plan(api.directory, h.config, principal), existing0.Keys, toBeAdded);
        PreparedFacts(s, t, p0, p1, api.SoFar(), principal, added);
        OnwardReflexive(api.SoFar());
        RaisedLonger(p0, p1, api.SoFar(), api.SoFar(), principal, added, Silent);
      }
    }
  }

  lemma AddedFacts(s: State, t: State, u: State, added: set<Pvc>, principal: Pvc)
    requires Down(s, t, principal) && Brought(t, u, added + {principal})
    ensures s.strays <= u.strays && (Faithful(s, u, added) ==> Faithful(t, u, added))
    ensures u.name == t.name && u.configMaps == t.configMaps
  {
  }

  lemma AllButPrincipal(before: set<Pvc>, added: set<Pvc>, principal: Pvc, existing: map<Pvc, string>)
    requires existing.Keys == before + added
    ensures Peers(existing, principal) == before + added - {principal}
    ensures Peers(existing, principal) <= before - {principal} + added
  {
  }

  lemma PreparedFacts(s: State, t: State, a: Past, b: Past, c: Past, principal: Pvc, added: set<Pvc>)
    requires Prepared(s, t, principal, added) && Onward(a, b) && Onward(b, c)
    requires 0 < |b.trace| && b.trace[|b.trace| - 1].state == t
    ensures Sound(s) ==> Passed(c.trace, |a.trace| - 1, s.replicaSets - {principal})
  {
    if Sound(s) {
      HasPassed(b.trace, c.trace, |a.trace| - 1, t);
    }
  }

  /* ---- from nothing, or from what is there ---- */

  /**
   * What a run which has found these pods is going to mount, and its seed jobs are going to write, is not in use: what will
   * be seeded has no ReplicaSet, no active job copies from it unless its own destination is due before, and none mounts
   * what was found, or else the first new replica.
   */
  ghost predicate SafeStart(s: State, found: set<Pvc>, toBeAdded: seq<Pvc>) {
    toBeAdded != [] ==>
      var seeded := if found == {} then toBeAdded[1..] else toBeAdded;
      && SetOf(seeded) !! s.replicaSets && SafeOrder(s, seeded)
      && (forall p | p in found :: Untouched(s, p)) && (found == {} ==> Untouched(s, toBeAdded[0]))
  }

  /** Every pod without a ReplicaSet has been found, and nothing which was found is to be added. */
  ghost predicate Shown(s: State, found: set<Pvc>, toBeAdded: seq<Pvc>) {
    Orphans(s) <= found && found !! SetOf(toBeAdded)
  }

  /** The requests for ReplicaSets and jobs of a run which does not fail, in their order. */
  function MountRequests(principal: Pvc, existing: set<Pvc>, toBeAdded: seq<Pvc>): seq<Request> {
    if toBeAdded == [] then []
    else if existing != {} then AddRequests(principal, toBeAdded)
    else [CreateReplicaSet(toBeAdded[0])] + if |toBeAdded| == 1 then [] else AddRequests(toBeAdded[0], toBeAdded[1..])
  }

  lemma HeadAndTail(items: seq<Pvc>)
    requires Distinct(items) && items != []
    ensures Distinct(items[1..]) && items[0] !in items[1..] && {items[0]} !! SetOf(items[1..])
    ensures {items[0]} + SetOf(items[1..]) == SetOf(items) && {} + SetOf(items) == SetOf(items)
    ensures |items| == 1 ==> items == [items[0]] && SetOf(items) == {items[0]}
  {
    assert items == [items[0]] + items[1..];
  }

  lemma RestIsSafe(s: State, t: State, toBeAdded: seq<Pvc>, refused: bool)
    requires SafeStart(s, {}, toBeAdded) && Orphans(s) == {} && toBeAdded != [] && Distinct(toBeAdded)
    requires Started(s, t, toBeAdded[0], refused)
    ensures SafeToAdd(t, toBeAdded[0], toBeAdded[1..])
  {
    HeadAndTail(toBeAdded);
    NoNewJobsUntouched(s, t, toBeAdded[0]);
    OrderStays(s, t, toBeAdded[1..]);
    forall p | p in toBeAdded[1..] ensures Unmounted(t, p) {
      assert p in SetOf(toBeAdded[1..]) && p !in Orphans(t);
    }
  }

  lemma FirstOnly(s: State, t: State, port: int, pvc: Pvc, plan: Plan)
    requires s.replicaSets == {} && StartedWell(s, t, pvc, port) && plan.principal == pvc
    ensures Created(s, t, pvc, {}, [pvc], port) && Commanded(plan, {}, [pvc]) == multiset{}
  {
    hide Sound, Ready, ReplicaName;
    assert SetOf([pvc]) == {pvc} && [pvc][1..] == [] && {pvc} + {pvc} == {pvc};
    assert CommandsFor(plan, {} + SetOf([pvc]), {}) == {};
    assert SetOf<Pvc>([]) == {};
    assert s.services[pvc := Service(port, pvc)] == s.services + ServiceMap({pvc}, port);
    StillJoined(s, t, pvc, {pvc});
  }

  lemma StillJoined(s: State, t: State, principal: Pvc, all: set<Pvc>)
    requires Still(s, t) && s.name == t.name
    ensures Joined(s, t, principal, all, {})
  {
  }

  lemma FirstThenRest(s: State, t: State, u: State, port: int, toBeAdded: seq<Pvc>, plan: Plan)
    requires |toBeAdded| > 1 && Distinct(toBeAdded) && s.replicaSets == {} && StartedWell(s, t, toBeAdded[0], port)
    requires Created(t, u, toBeAdded[0], {toBeAdded[0]}, toBeAdded[1..], port)
    ensures Created(s, u, toBeAdded[0], {}, toBeAdded, port)
    ensures Commanded(plan, {toBeAdded[0]}, toBeAdded[1..]) == Commanded(plan, {}, toBeAdded)
  {
    hide SetOf, Distinct, Joined, CommandsFor, Sound, ServiceMap, Still, ReplicaName, Ready, NoNewJobs;
    HeadAndTail(toBeAdded);
    StillIsNoNewJobs(s, t);
    NoNewJobsTransitive(s, t, u);
    JoinedSame(s, t, u, toBeAdded[0], SetOf(toBeAdded), SetOf(toBeAdded[1..]));
    FirstService(s.services, SetOf(toBeAdded[1..]), toBeAdded[0], port);
  }

  lemma StillIsNoNewJobs(s: State, t: State)
    requires Still(s, t)
    ensures NoNewJobs(s, t)
  {
  }

  lemma FirstService(services: map<Pvc, Service>, rest: set<Pvc>, p: Pvc, port: int)
    ensures services[p := Service(port, p)] + ServiceMap(rest + {p}, port) == services + ServiceMap({p} + rest + {p}, port)
  {
  }

  lemma JoinedSame(s: State, t: State, u: State, principal: Pvc, all: set<Pvc>, added: set<Pvc>)
    requires s.name == t.name && Still(s, t) && Joined(t, u, principal, all, added)
    ensures Joined(s, u, principal, all, added)
  {
    forall p: Pvc | !Seeding(s, p) ensures !Seeding(t, p) && VolumeOf(t, p) == VolumeOf(s, p) {
    }
    forall p: Pvc, q: Pvc | !Seeding(s, p) ensures Edge(t, p, q) == Edge(s, p, q) {
    }
    forall p | p in added ensures SeededLast(s, u, principal, p) {
      assert SeededLast(t, u, principal, p);
    }
  }

  lemma FirstIsUnused(s: State, t: State, port: int, toBeAdded: seq<Pvc>)
    requires toBeAdded != [] && Distinct(toBeAdded) && s.replicaSets == {} && StartedWell(s, t, toBeAdded[0], port)
    ensures Unused(s, SetOf(toBeAdded)) ==>
      toBeAdded[0] !in s.services && toBeAdded[0] !in s.replicaSets && Unused(t, SetOf(toBeAdded[1..]))
    ensures t.replicaSets <= t.services.Keys && t.replicaSets == {toBeAdded[0]} && t.strays == s.strays
    ensures forall u | Faithful(s, u, SetOf(toBeAdded)) :: Faithful(t, u, SetOf(toBeAdded[1..]))
  {
    HeadAndTail(toBeAdded);
  }

  lemma NothingCreated(plan: Plan, s: State, principal: Pvc, port: int)
    ensures Created(s, s, principal, s.replicaSets, [], port) && Commanded(plan, s.replicaSets, []) == multiset{}
    ensures SetOf<Pvc>([]) == {}
  {
    assert SetOf<Pvc>([]) == {};
    assert s.replicaSets + {} == s.replicaSets;
    assert CommandsFor(plan, s.replicaSets, {}) == {};
    assert s.services + ServiceMap({}, port) == s.services;
    EnvEffectReflexive(s);
    StillJoined(s, s, principal, s.replicaSets);
  }

  lemma SafeWithPrincipal(s: State, principal: Pvc, found: set<Pvc>, toBeAdded: seq<Pvc>)
    requires SafeStart(s, found, toBeAdded) && Shown(s, found, toBeAdded) && toBeAdded != [] && principal in found
    ensures SafeToAdd(s, principal, toBeAdded)
  {
    NotInSet(toBeAdded, principal);
    forall p | p in toBeAdded ensures Unmounted(s, p) {
      assert p in SetOf(toBeAdded) && p !in Orphans(s);
    }
  }

  lemma CreatedIsFaithful(s: State, t: State, principal: Pvc, before: set<Pvc>, toBeAdded: seq<Pvc>, port: int)
    requires Created(s, t, principal, before, toBeAdded, port)
    ensures Faithful(s, t, SetOf(toBeAdded))
  {
  }

  /** The principal is one of those which are there, and of a new directory the first one. */
  predicate IsPrincipal(principal: Pvc, existing: set<Pvc>, toBeAdded: seq<Pvc>) {
    if existing != {} then principal in existing else toBeAdded != [] && principal == toBeAdded[0]
  }

  /** The listing has shown exactly the replicas, and what is to be added is not among them. */
  ghost predicate Listed(s: State, existing: set<Pvc>, toBeAdded: seq<Pvc>) {
    existing == s.replicaSets && SetOf(toBeAdded) !! s.replicaSets
  }

  /** What is claimed of the creation of replicas: a is before, b is after. */
  ghost predicate Grew(a: Moment, b: Moment, existing: set<Pvc>, toBeAdded: seq<Pvc>, principal: Pvc, config: ServerConfig,
                       ok: bool) {
    var s, t := a.state, b.state;
    && Onward(a.past, b.past)
    && (ok && toBeAdded == [] ==> t == s && b.requests == a.requests && b.past == a.past)
    && (ok && ToBeSeeded(existing, toBeAdded) != {} ==> Tidied(a.past, b.past, t))
    && (ok && toBeAdded != [] ==> IsPrincipal(principal, existing, toBeAdded))
    && (SafeStart(s, existing, toBeAdded) && Shown(s, existing, toBeAdded) && CalmPast(b.past) ==>
        b.past.breaches == a.past.breaches)
    && (GoodPast(b.past) && Unused(s, SetOf(toBeAdded)) && existing == s.replicaSets ==> b.requests.clashes == a.requests.clashes)
    && (ok ==> b.requests.mounts == a.requests.mounts + MountRequests(principal, existing, toBeAdded))
    && (ok && GoodPast(a.past) && OnlyRefused(b.past.faults) && AllServed(s) && Listed(s, existing, toBeAdded) ==>
        (GoodPast(b.past) <==> Faithful(s, t, SetOf(toBeAdded))))
    && (ok && GoodPast(b.past) && existing == s.replicaSets ==>
        && Created(s, t, principal, existing, toBeAdded, config.port)
        && b.commands.issued == a.commands.issued + Commanded(Plan(s.name, config, principal), existing, toBeAdded)
        && (Sound(s) && toBeAdded != [] && existing != {} ==>
            Passed(b.past.trace, |a.past.trace| - 1, existing - {principal}))
        && GrewInTurn(a.past, b.past, existing, toBeAdded, principal))
  }

  /** All that are seeded are raised, from a new directory once the principal is there, and nothing is linked before. */
  ghost predicate GrewInTurn(a: Past, b: Past, existing: set<Pvc>, toBeAdded: seq<Pvc>, principal: Pvc) {
    exists m: Past | Onward(a, m) && Onward(m, b) && (existing != {} ==> m == a) ::
      && !Any(m.trace, |a.trace|, |m.trace|, Link)
      && Raised(b.trace, |m.trace|, |b.trace|, principal, ToBeSeeded(existing, toBeAdded))
  }

  lemma NoneRaised(a: Past, principal: Pvc)
    ensures Raised(a.trace, |a.trace|, |a.trace|, principal, {})
  {
    assert InTurn(a.trace, |a.trace|, |a.trace|, |a.trace|, |a.trace|, principal, {});
  }

  lemma RaisedAtOnce(a: Past, b: Past, existing: set<Pvc>, toBeAdded: seq<Pvc>, principal: Pvc)
    requires Onward(a, b) && Raised(b.trace, |a.trace|, |b.trace|, principal, ToBeSeeded(existing, toBeAdded))
    ensures GrewInTurn(a, b, existing, toBeAdded, principal)
  {
    hide Raised, ToBeSeeded;
    OnwardReflexive(a);
  }

  lemma GrewInTurnLonger(a: Past, b: Past, c: Past, existing: set<Pvc>, toBeAdded: seq<Pvc>, principal: Pvc)
    requires GrewInTurn(a, b, existing, toBeAdded, principal) && Onward(b, c) && Told(b, c, Ok, Silent)
    ensures GrewInTurn(a, c, existing, toBeAdded, principal)
  {
    hide ToBeSeeded, Raised, Any, Told, Onward;
    var m: Past :| Onward(a, m) && Onward(m, b) && (existing != {} ==> m == a) && !Any(m.trace, |a.trace|, |m.trace|, Link)
      && Raised(b.trace, |m.trace|, |b.trace|, principal, ToBeSeeded(existing, toBeAdded));
    OnwardReflexive(m);
    OnwardTransitive(m, b, c);
    RaisedLonger(m, m, b, c, principal, ToBeSeeded(existing, toBeAdded), Silent);
  }

  lemma RaisedThen(a: Past, m: Past, b: Past, toBeAdded: seq<Pvc>, principal: Pvc)
    requires Onward(a, m) && Onward(m, b) && Told(a, m, Ok, MayServe)
    requires Raised(b.trace, |m.trace|, |b.trace|, principal, ToBeSeeded({}, toBeAdded))
    ensures GrewInTurn(a, b, {}, toBeAdded, principal)
  {
    hide Raised, ToBeSeeded;
  }

  lemma NothingGrew(a: Moment, existing: set<Pvc>, principal: Pvc, config: ServerConfig, ok: bool)
    ensures Grew(a, a, existing, [], principal, config, ok)
  {
    hide Created, Passed, Commanded, Faithful, MountRequests, Sound, Orphans;
    OnwardReflexive(a.past);
    NothingCreated(Plan(a.state.name, config, principal), a.state, principal, config.port);
    CreatedIsFaithful(a.state, a.state, principal, a.state.replicaSets, [], config.port);
    NothingMounted(principal, existing);
    NoneRaised(a.past, principal);
    assert ToBeSeeded(existing, []) == {};
    RaisedAtOnce(a.past, a.past, existing, [], principal);
    hide Onward;
  }

  lemma NothingMounted(principal: Pvc, existing: set<Pvc>)
    ensures MountRequests(principal, existing, []) == [] && SetOf<Pvc>([]) == {}
  {
  }

  lemma NotGrown(a: Moment, b: Moment, existing: set<Pvc>, toBeAdded: seq<Pvc>, principal: Pvc, config: ServerConfig)
    requires Onward(a.past, b.past) && b == a.(past := a.past.(trace := b.past.trace))
    ensures Grew(a, b, existing, toBeAdded, principal, config, false)
  {
    hide Created, Passed, Commanded, Faithful, MountRequests, Sound, Orphans, Onward;
  }

  /** With no existing replica, the first of the new ones becomes the principal of the others. */
  method CreateFromNothing(api: Cluster, h: RequestHandle, toBeAdded: seq<Pvc>) returns (r: Outcome, existing: map<Pvc, string>)
    requires api.Valid() && Distinct(toBeAdded) && toBeAdded != [] && api.watch.keep == {}
    modifies api`state, api`trace, api`requests, api`commands, api`faults, api`breaches
    ensures api.Valid() && Told(old(api.SoFar()), api.SoFar(), r, MayBoth)
    ensures Grew(old(api.Now()), api.Now(), {}, toBeAdded, toBeAdded[0], h.config, r.Ok?)
    ensures r.Ok? ==> existing.Keys == SetOf(toBeAdded)
  {
    hide Cluster.Valid, Launched, Added, Grew, SetOf, Distinct, Told;
    ghost var a, config := api.Now(), h.config;
    var principal := toBeAdded[0];
    HeadAndTail(toBeAdded);
    var deployment;
    r, deployment := StartServed(api, h, principal);
    existing := map[principal := deployment];
    assert existing.Keys == {principal};
    ghost var m := api.Now();
    LaunchedFacts(a, m, principal, config.port, r);
    if r != Ok {
      FirstFailed(a, m, toBeAdded, config, r);
      return;
    }
    if |toBeAdded[1..]| == 0 {
      FirstAlone(a, m, toBeAdded, config);
      return;
    }
    api.NameIsDirectory();
    r, existing := AddReplicas(api, h, principal, existing, toBeAdded[1..]);
    FirstThenAdded(a, m, api.Now(), toBeAdded, config, r.Ok?);
    AddedOnward(m, api.Now(), {principal}, toBeAdded[1..], principal, config, r.Ok?);
    OnwardTransitive(a.past, m.past, api.SoFar());
  }

  lemma LaunchedFacts(a: Moment, b: Moment, pvc: Pvc, port: int, r: Outcome)
    requires Launched(a, b, pvc, port, r)
    ensures Onward(a.past, b.past) && Told(a.past, b.past, r, MayServe) && Told(a.past, b.past, r, MayBoth)
  {
    hide Started, StartedWell, Onward, Told, Untouched;
    ToldWider(a.past, b.past, r, MayServe);
  }

  lemma AddedOnward(a: Moment, b: Moment, existing: set<Pvc>, toBeAdded: seq<Pvc>, principal: Pvc, config: ServerConfig, ok: bool)
    requires Added(a, b, existing, toBeAdded, principal, config, ok)
    ensures Onward(a.past, b.past)
  {
  }

  lemma FirstFailed(a: Moment, m: Moment, toBeAdded: seq<Pvc>, config: ServerConfig, r: Outcome)
    requires toBeAdded != [] && Launched(a, m, toBeAdded[0], config.port, r)
    ensures Grew(a, m, {}, toBeAdded, toBeAdded[0], config, false)
  {
    hide Onward, Untouched, SetOf, Sound, Exclusive, SafeOrder;
    UnusedFirst(a.state, toBeAdded);
    SafeFirst(a.state, toBeAdded);
    OnwardFacts(a.past, m.past);
    hide SafeStart, Unused;
  }

  lemma FirstAlone(a: Moment, m: Moment, toBeAdded: seq<Pvc>, config: ServerConfig)
    requires |toBeAdded| == 1 && Launched(a, m, toBeAdded[0], config.port, Ok)
    ensures Grew(a, m, {}, toBeAdded, toBeAdded[0], config, true)
  {
    hide Onward, Untouched, SetOf, Sound, Exclusive, SafeOrder, Started, StartedWell, Created, Faithful, Commanded, Orphans;
    FirstFailed(a, m, toBeAdded, config, Ok);
    OnwardFacts(a.past, m.past);
    var s, t, p := a.state, m.state, toBeAdded[0];
    FirstAloneInTurn(a.past, m.past, toBeAdded);
    assert toBeAdded == [p];
    StartedFacts(s, t, p, m.past.faults.refused != a.past.faults.refused, SetOf(toBeAdded));
    if GoodPast(m.past) && s.replicaSets == {} {
      FirstOnly(s, t, config.port, p, Plan(s.name, config, p));
      CreatedIsFaithful(s, t, p, {}, toBeAdded, config.port);
    }
    hide SafeStart, Unused;
  }

  lemma FirstAloneInTurn(a: Past, m: Past, toBeAdded: seq<Pvc>)
    requires |toBeAdded| == 1 && Onward(a, m) && Told(a, m, Ok, MayServe)
    ensures GrewInTurn(a, m, {}, toBeAdded, toBeAdded[0]) && ToBeSeeded({}, toBeAdded) == {}
  {
    assert toBeAdded[1..] == [];
    NoneRaised(m, toBeAdded[0]);
    OnwardReflexive(m);
    RaisedThen(a, m, m, toBeAdded, toBeAdded[0]);
  }

  lemma FirstThenAdded(a: Moment, m: Moment, b: Moment, toBeAdded: seq<Pvc>, config: ServerConfig, ok: bool)
    requires |toBeAdded| > 1 && Distinct(toBeAdded)
    requires Launched(a, m, toBeAdded[0], config.port, Ok)
    requires Added(m, b, {toBeAdded[0]}, toBeAdded[1..], toBeAdded[0], config, ok)
    ensures Grew(a, b, {}, toBeAdded, toBeAdded[0], config, ok)
  {
    hide Onward, Untouched, SetOf, Sound, Exclusive, SafeOrder, Started, StartedWell, Created, Faithful, Commanded, Orphans,
         AddRequests, SafeStart, SafeToAdd, Unused, Distinct;
    OnwardTransitive(a.past, m.past, b.past);
    OnwardFacts(a.past, m.past);
    HeadAndTail(toBeAdded);
    UnusedFirst(a.state, toBeAdded);
    SafeFirst(a.state, toBeAdded);
    var s, t, u, p := a.state, m.state, b.state, toBeAdded[0];
    var refused := m.past.faults.refused != a.past.faults.refused;
    StartedFacts(s, t, p, refused, SetOf(toBeAdded));
    if SafeStart(s, {}, toBeAdded) && Shown(s, {}, toBeAdded) {
      RestIsSafe(s, t, toBeAdded, refused);
    }
    if GoodPast(m.past) && s.replicaSets == {} {
      FirstIsUnused(s, t, config.port, toBeAdded);
    }
    if ok {
      MoreStrays(s, t, u, SetOf(toBeAdded));
      MoreMounts(a.requests.mounts, toBeAdded);
      hide MountRequests;
      OnwardReflexive(b.past);
      TidiedLonger(a.past, m.past, b.past, b.past, u, u);
      if GoodPast(b.past) && s.replicaSets == {} {
        RaisedThen(a.past, m.past, b.past, toBeAdded, p);
        FirstThenRest(s, t, u, config.port, toBeAdded, Plan(s.name, config, p));
        CreatedIsFaithful(s, u, p, {}, toBeAdded, config.port);
      }
    }
  }

  lemma MoreMounts(log: seq<Request>, items: seq<Pvc>)
    requires |items| > 1
    ensures log + [CreateReplicaSet(items[0])] + AddRequests(items[0], items[1..]) == log + MountRequests(items[0], {}, items)
  {
  }

  lemma SafeFirst(s: State, items: seq<Pvc>)
    requires items != []
    ensures SafeStart(s, {}, items) ==> Untouched(s, items[0])
  {
  }

  lemma UnusedFirst(s: State, items: seq<Pvc>)
    requires items != []
    ensures Unused(s, SetOf(items)) ==> items[0] !in s.replicaSets && items[0] !in s.services
  {
  }

  lemma StartedFacts(s: State, t: State, p: Pvc, refused: bool, added: set<Pvc>)
    requires Started(s, t, p, refused)
    ensures s.strays <= t.strays && t.name == s.name
    ensures refused && AllServed(s) ==> s.strays < t.strays && !Faithful(s, t, added)
    ensures Orphans(t) <= Orphans(s)
  {
  }

  lemma MoreStrays(s: State, t: State, u: State, added: set<Pvc>)
    requires s.strays <= t.strays <= u.strays
    ensures s.strays <= u.strays && (s.strays < t.strays ==> !Faithful(s, u, added))
  {
  }

  /** Any of the existing replicas becomes the principal, and is not watched any more. */
  method CreateFromExisting(api: Cluster, h: RequestHandle, existing0: map<Pvc, string>, toBeAdded: seq<Pvc>)
    returns (r: Outcome, existing: map<Pvc, string>, ghost principal: Pvc)
    requires api.Valid() && Distinct(toBeAdded) && existing0.Keys !! SetOf(toBeAdded) && existing0.Keys != {} && toBeAdded != []
    modifies api`state, api`trace, api`requests, api`commands, api`faults, api`breaches, api`watch, api`windows
    ensures api.Valid() && Told(old(api.SoFar()), api.SoFar(), r, MayBoth)
    ensures Grew(old(api.Now()), api.Now(), existing0.Keys, toBeAdded, principal, h.config, r.Ok?)
    ensures r.Ok? ==> existing.Keys == existing0.Keys + SetOf(toBeAdded)
    ensures api.watch == old(api.watch).(from := old(|api.trace|) - 1, keep := old(api.watch.keep) - {principal})
    ensures api.windows == old(api.windows) + [old(api.Current())]
  {
    hide Cluster.Valid, Added, Grew, Distinct, Kept, SetOf, Told, Onward;
    ghost var a := api.Now();
    var chosen :| chosen in existing0;
    principal := chosen;
    NotInSet(toBeAdded, chosen);
    api.LookAway(chosen);
    r, existing := AddReplicas(api, h, chosen, existing0, toBeAdded);
    AddedIsGrown(a, api.Now(), existing0.Keys, toBeAdded, chosen, h.config, r.Ok?);
  }

  /** Creates the replicas of toBeAdded; while an existing one is the principal, it is not watched any more. */
  method CreateReplicas(api: Cluster, h: RequestHandle, existing0: map<Pvc, string>, toBeAdded: seq<Pvc>)
    returns (r: Outcome, existing: map<Pvc, string>, ghost principal: Pvc)
    requires api.Valid() && Distinct(toBeAdded) && api.watch.keep <= existing0.Keys && existing0.Keys !! SetOf(toBeAdded)
    modifies api`state, api`trace, api`requests, api`commands, api`faults, api`breaches, api`watch, api`windows
    ensures api.Valid() && Told(old(api.SoFar()), api.SoFar(), r, MayBoth)
    ensures Grew(old(api.Now()), api.Now(), existing0.Keys, toBeAdded, principal, h.config, r.Ok?)
    ensures toBeAdded == [] ==> r.Ok?
    ensures r.Ok? ==> existing.Keys == existing0.Keys + SetOf(toBeAdded)
    ensures if toBeAdded != [] && existing0.Keys != {}
            then api.watch == old(api.watch).(from := old(|api.trace|) - 1, keep := old(api.watch.keep) - {principal})
              && api.windows == old(api.windows) + [old(api.Current())]
            else api.watch == old(api.watch) && api.windows == old(api.windows)
  {
    hide Cluster.Valid, Grew, Distinct, SetOf, Told, Onward;
    existing, principal := existing0, "p";
    ghost var a := api.Now();
    OnwardReflexive(a.past);
    if |toBeAdded| == 0 {
      NothingGrew(a, existing0.Keys, principal, h.config, true);
      NothingMounted(principal, existing0.Keys);
      return Ok, existing, principal;
    }
    if |existing| > 0 {
      r, existing, principal := CreateFromExisting(api, h, existing, toBeAdded);
    } else {
      assert existing0.Keys == {};
      principal := toBeAdded[0];
      r, existing := CreateFromNothing(api, h, toBeAdded);
    }
  }

  lemma AddedIsGrown(a: Moment, b: Moment, existing: set<Pvc>, toBeAdded: seq<Pvc>, principal: Pvc, config: ServerConfig, ok: bool)
    requires Added(a, b, existing, toBeAdded, principal, config, ok) && principal in existing && toBeAdded != []
    ensures Grew(a, b, existing, toBeAdded, principal, config, ok)
  {
    hide Onward, Untouched, SetOf, Sound, Exclusive, SafeOrder, Created, Faithful, Commanded, Orphans, AddRequests, SafeStart,
         SafeToAdd, Unused;
    var s := a.state;
    if SafeStart(s, existing, toBeAdded) && Shown(s, existing, toBeAdded) {
      SafeWithPrincipal(s, principal, existing, toBeAdded);
    }
    if ok && GoodPast(b.past) && existing == s.replicaSets {
      CreatedIsFaithful(s, b.state, principal, existing, toBeAdded, config.port);
      RaisedAtOnce(a.past, b.past, existing, toBeAdded, principal);
    }
  }
}
