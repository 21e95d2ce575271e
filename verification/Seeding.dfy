/** Seeding the volumes of the new replicas from the volume of the stopped principal. */
module SeedJobs {
  import opened Names
  import opened Documents
  import opened States
  import opened Clusters
  import opened Replicas

  /* ---- what may be changed meanwhile ---- */

  /** Of the objects only jobs, volumes and the seed ConfigMap have been changed. */
  ghost predicate SeedShape(s: State, t: State) {
    && t.name == s.name && t.replicaSets == s.replicaSets && t.services == s.services && t.strays == s.strays
    && t.proxy == s.proxy && t.configMaps - {SeedConfigMapName(s.name)} == s.configMaps - {SeedConfigMapName(s.name)}
    && Orphans(t) <= Orphans(s) && (Sound(s) ==> Sound(t))
  }

  /** The active jobs are those of this run into mine, from the principal, and those which were active before. */
  ghost predicate SeedPhase(s: State, t: State, principal: Pvc, mine: set<Pvc>) {
    && SeedShape(s, t)
    && (forall p | Seeding(t, p) ::
      if p in mine then t.jobs[p].source == principal else Seeding(s, p) && t.jobs[p].source == s.jobs[p].source)
    && (forall p: Pvc | p !in mine && !Seeding(s, p) :: VolumeOf(t, p) == VolumeOf(s, p))
  }

  /** p has been seeded last from the principal, and if it was not being seeded at s, only so since. */
  ghost predicate SeededLast(s: State, t: State, principal: Pvc, p: Pvc) {
    && VolumeOf(t, p).seeds != [] && VolumeOf(t, p).seeds[|VolumeOf(t, p).seeds| - 1] == principal
    && (!Seeding(s, p) ==> VolumeOf(t, p).seeds == VolumeOf(s, p).seeds + [principal])
  }

  /** The jobs into waiting will seed them from the principal, and the rest of mine has been seeded so. */
  ghost predicate Tracked(s: State, t: State, principal: Pvc, waiting: set<Pvc>, mine: set<Pvc>) {
    && (forall p | p in waiting && p in t.jobs ::
      t.jobs[p].source == principal && (!Seeding(s, p) ==> t.jobs[p].base == VolumeOf(s, p).seeds))
    && (forall p | p in mine && p !in waiting :: SeededLast(s, t, principal, p) && !Seeding(t, p))
  }

  lemma SeedPhaseStarts(s: State, t: State, principal: Pvc)
    requires Later(s, t)
    ensures SeedPhase(s, t, principal, {}) && Tracked(s, t, principal, {}, {})
  {
  }

  lemma SeedPhaseLater(s: State, t: State, u: State, principal: Pvc, mine: set<Pvc>)
    requires SeedPhase(s, t, principal, mine) && Later(t, u)
    ensures SeedPhase(s, u, principal, mine)
  {
    forall p: Pvc | p !in mine && !Seeding(s, p) ensures VolumeOf(u, p) == VolumeOf(s, p) {
      assert !Seeding(t, p);
    }
  }

  lemma TrackedLater(s: State, t: State, u: State, principal: Pvc, waiting: set<Pvc>, mine: set<Pvc>)
    requires Tracked(s, t, principal, waiting, mine) && Later(t, u)
    ensures Tracked(s, u, principal, waiting, mine)
  {
    forall p | p in mine && p !in waiting ensures SeededLast(s, u, principal, p) && !Seeding(u, p) {
      assert VolumeOf(u, p) == VolumeOf(t, p);
    }
  }

  lemma SeedPhaseConfigMap(s: State, t: State, principal: Pvc, mine: set<Pvc>, r: Request)
    requires SeedPhase(s, t, principal, mine)
    requires (r.PutConfigMap? || r.DeleteConfigMap?) && r.name == SeedConfigMapName(s.name)
    ensures SeedPhase(s, Apply(t, r), principal, mine)
    ensures forall waiting | Tracked(s, t, principal, waiting, mine) :: Tracked(s, Apply(t, r), principal, waiting, mine)
  {
    assert Apply(t, r).configMaps - {r.name} == t.configMaps - {r.name};
  }

  lemma SeedPhaseJob(s: State, t: State, principal: Pvc, mine: set<Pvc>, dest: Pvc)
    requires SeedPhase(s, t, principal, mine) && Tracked(s, t, principal, mine, mine)
    requires dest !in mine && dest !in t.jobs
    ensures SeedPhase(s, Apply(t, CreateJob(principal, dest)), principal, mine + {dest})
    ensures Tracked(s, Apply(t, CreateJob(principal, dest)), principal, mine + {dest}, mine + {dest})
  {
  }

  /* ---- when seeding is safe ---- */

  /** No active job copies from a volume which will be seeded, unless its own destination is due for another seed before. */
  ghost predicate SafeOrder(s: State, toBeAdded: seq<Pvc>) {
    forall k, d | 0 <= k < |toBeAdded| && Seeding(s, d) && s.jobs[d].source == toBeAdded[k] :: d in toBeAdded[..k]
  }

  /** Nothing is mounted which the seeding mounts, and no active job gets in the way. */
  ghost predicate SafeToSeed(s: State, principal: Pvc, toBeAdded: seq<Pvc>) {
    && Unmounted(s, principal) && (forall p | p in toBeAdded :: Unmounted(s, p))
    && principal !in toBeAdded && Untouched(s, principal) && SafeOrder(s, toBeAdded)
  }

  /** Then every seed job is safe at its time, if it can be created at all. */
  lemma NextSeedIsSafe(s: State, t: State, principal: Pvc, toBeAdded: seq<Pvc>, i: nat)
    requires SafeToSeed(s, principal, toBeAdded) && i < |toBeAdded|
    requires SeedPhase(s, t, principal, SetOf(toBeAdded[..i])) && toBeAdded[i] !in t.jobs
    ensures Safe(t, CreateJob(principal, toBeAdded[i]))
  {
    var dest, mine := toBeAdded[i], SetOf(toBeAdded[..i]);
    assert principal !in mine && dest in toBeAdded;
    assert dest !in Orphans(s) && principal !in Orphans(s);
    forall q | q in t.jobs && t.jobs[q].active ensures t.jobs[q].source != dest {
      assert Seeding(t, q);
    }
  }

  /** Once all are over, no active job touches what has been seeded, nor the principal. */
  lemma SeedingLeavesUntouched(s: State, t: State, principal: Pvc, toBeAdded: seq<Pvc>, p: Pvc)
    requires SafeToSeed(s, principal, toBeAdded) && SeedPhase(s, t, principal, SetOf(toBeAdded))
    requires Tracked(s, t, principal, {}, SetOf(toBeAdded)) && (p in toBeAdded || p == principal)
    ensures Untouched(t, p)
  {
    forall q | q in t.jobs && t.jobs[q].active ensures t.jobs[q].source != p {
      assert Seeding(t, q) && q !in SetOf(toBeAdded);
      forall k | 0 <= k < |toBeAdded| ensures s.jobs[q].source != toBeAdded[k] {
        assert q !in toBeAdded[..k];
      }
    }
  }

  /* ---- how it is done ---- */

  function SeedRequests(principal: Pvc, toBeAdded: seq<Pvc>): seq<Request> {
    seq(|toBeAdded|, i requires 0 <= i < |toBeAdded| => CreateJob(principal, toBeAdded[i]))
  }

  lemma OneMoreSeed(principal: Pvc, toBeAdded: seq<Pvc>, i: nat, log: seq<Request>)
    requires i < |toBeAdded|
    ensures log + SeedRequests(principal, toBeAdded[..i + 1])
            == log + SeedRequests(principal, toBeAdded[..i]) + [CreateJob(principal, toBeAdded[i])]
    ensures log + SeedRequests(principal, []) == log
  {
    assert SeedRequests(principal, toBeAdded[..i + 1]) == SeedRequests(principal, toBeAdded[..i]) + [CreateJob(principal, toBeAdded[i])];
    assert SeedRequests(principal, []) == [];
  }

  lemma NoSeedYet(principal: Pvc, log: seq<Request>)
    ensures log + SeedRequests(principal, []) == log && SetOf<Pvc>([]) == {}
  {
    assert SeedRequests(principal, []) == [];
  }

  /** Waits until the job is seen to have succeeded; a job which is not found is waited for. */
  method WaitForJob(api: Cluster, name: string, dest: Pvc) returns (r: Outcome)
    requires api.Valid() && name == SeedJobName(api.directory, dest)
    modifies api`state, api`trace
    ensures api.Valid() && Onward(old(api.SoFar()), api.SoFar()) && Later(old(api.state), api.state) && !r.Lost?
    ensures r.Ok? ==> dest in api.state.jobs && api.state.jobs[dest].succeeded > 0 && api.state.jobs[dest].failed == 0
    ensures Told(old(api.SoFar()), api.SoFar(), r, Silent)
  {
    hide Onward, Cluster.Valid, EnvEffect, Later, SeedJobName, Told;
    ghost var start, p0 := api.state, api.SoFar();
    EnvEffectReflexive(start);
    OnwardReflexive(p0);
    AnErrorIs(JobFailed(dest));
    AnErrorIs(TimeOver);
    var polls :| polls >= 0;
    for i := 0 to polls
      invariant api.Valid() && Onward(p0, api.SoFar()) && Later(start, api.state) && Told(p0, api.SoFar(), Ok, Silent)
    {
      ghost var before, p1 := api.state, api.SoFar();
      var job := api.GetJob(name, dest);
      LaterTransitive(start, before, api.state);
      ghost var p2 := api.SoFar();
      OnwardTransitive(p0, p1, p2);
      if job.Some? {
        if job.value.failed > 0 {
          api.GiveUp(JobFailed(dest));
          OnwardTransitive(p0, p2, api.SoFar());
          return Err;
        }
        if job.value.succeeded > 0 {
          return Ok;
        }
      }
    }
    ghost var p3 := api.SoFar();
    api.GiveUp(TimeOver);
    OnwardTransitive(p0, p3, api.SoFar());
    return Err;
  }

  /** The seed ConfigMap has gone, unless its deletion has failed. */
  ghost predicate Tidied(a: Past, b: Past, t: State) {
    SeedConfigMapName(t.name) !in t.configMaps || Erring(a, b, Leftover)
  }

  lemma TidiedLonger(a: Past, b: Past, c: Past, d: Past, t: State, u: State)
    requires Tidied(b, c, t) && Onward(a, b) && Onward(b, c) && Onward(c, d) && u.name == t.name
    requires SeedConfigMapName(t.name) in u.configMaps ==> SeedConfigMapName(t.name) in t.configMaps
    ensures Tidied(a, d, u)
  {
    if Erring(b, c, Leftover) {
      OnwardErring(a, b, c, Leftover);
      ErringLonger(a, c, d, Leftover);
    }
  }

  /** The deletion may fail, which is ignored. */
  method RemoveSeedConfigMap(api: Cluster, ghost s: State, ghost principal: Pvc, ghost mine: set<Pvc>) returns (ok: bool)
    requires api.Valid() && SeedPhase(s, api.state, principal, mine) && s.name == api.directory
    modifies api`state, api`trace
    ensures api.Valid() && Onward(old(api.SoFar()), api.SoFar()) && SeedPhase(s, api.state, principal, mine)
    ensures Told(old(api.SoFar()), api.SoFar(), Ok, Silent)
    ensures ok ==> SeedConfigMapName(api.directory) !in api.state.configMaps
    ensures Tidied(old(api.SoFar()), api.SoFar(), api.state)
    ensures forall waiting | Tracked(s, old(api.state), principal, waiting, mine) ::
      Tracked(s, api.state, principal, waiting, mine)
  {
    hide EnvEffect, SeedPhase, Tracked, Onward, Cluster.Valid, Later, SeedConfigMapName, ProxyName, Told, Erring;
    api.NameIsDirectory();
    ghost var t := api.state;
    ConfigMapNamesDiffer(api.directory);
    ghost var u;
    ok, u := api.DeleteConfigMap(SeedConfigMapName(api.directory));
    api.NameIsDirectory();
    SeedPhaseLater(s, t, u, principal, mine);
    SeedPhaseConfigMap(s, u, principal, mine, DeleteConfigMap(SeedConfigMapName(s.name)));
    forall waiting | Tracked(s, t, principal, waiting, mine) ensures Tracked(s, api.state, principal, waiting, mine) {
      TrackedLater(s, t, u, principal, waiting, mine);
    }
  }

  /** Starts a seed job into each volume of toBeAdded. */
  method StartJobs(api: Cluster, principal: Pvc, toBeAdded: seq<Pvc>, ghost s: State) returns (r: Outcome, ghost mine: set<Pvc>)
    requires api.Valid() && SeedPhase(s, api.state, principal, {}) && Tracked(s, api.state, principal, {}, {})
    requires s.name == api.directory && Distinct(toBeAdded) && SeedsClean(api.state)
    modifies api`state, api`trace, api`requests, api`breaches
    ensures api.Valid() && Onward(old(api.SoFar()), api.SoFar()) && !r.Lost? && Told(old(api.SoFar()), api.SoFar(), r, Silent)
    ensures SeedPhase(s, api.state, principal, mine)
    ensures SafeToSeed(s, principal, toBeAdded) ==> api.breaches == old(api.breaches)
    ensures r.Ok? ==> mine == SetOf(toBeAdded) && Tracked(s, api.state, principal, mine, mine)
    ensures api.requests == old(api.requests).(mounts := api.requests.mounts)
    ensures r.Ok? ==> api.requests.mounts == old(api.requests.mounts) + SeedRequests(principal, toBeAdded)
  {
    hide EnvEffect, SeedPhase, Tracked, Onward, Cluster.Valid, Later, SetOf, Distinct, SafeToSeed, SeedRequests, Safe, SeedsClean,
         Told;
    ghost var p0, log := api.SoFar(), api.requests.mounts;
    mine := {};
    OnwardReflexive(p0);
    NoSeedYet(principal, log);
    assert toBeAdded[..0] == [];
    for i := 0 to |toBeAdded|
      invariant api.Valid() && Onward(p0, api.SoFar()) && SeedsClean(api.state) && Told(p0, api.SoFar(), Ok, Silent)
      invariant SeedPhase(s, api.state, principal, mine) && Tracked(s, api.state, principal, mine, mine)
      invariant mine == SetOf(toBeAdded[..i])
      invariant SafeToSeed(s, principal, toBeAdded) ==> api.breaches == old(api.breaches)
      invariant api.requests == old(api.requests).(mounts := log + SeedRequests(principal, toBeAdded[..i]))
    {
      var pvcName := toBeAdded[i];
      PrefixGrows(toBeAdded, i);
      OneMoreSeed(principal, toBeAdded, i, log);
      ghost var t, p1 := api.state, api.SoFar();
      var ok;
      ghost var u;
      ok, u := api.CreateJob(SeedJobName(api.directory, pvcName), principal, pvcName);
      OnwardTransitive(p0, p1, api.SoFar());
      SeedPhaseLater(s, t, u, principal, mine);
      TrackedLater(s, t, u, principal, mine, mine);
      if pvcName !in u.jobs {
        if SafeToSeed(s, principal, toBeAdded) {
          NextSeedIsSafe(s, u, principal, toBeAdded, i);
        }
        SeedPhaseJob(s, u, principal, mine, pvcName);
      }
      if !ok {
        return Err, if api.state == u then mine else mine + {pvcName};
      }
      CleanLater(t, u, CreateJob(principal, pvcName));
      mine := mine + {pvcName};
    }
    assert toBeAdded[..|toBeAdded|] == toBeAdded;
    return Ok, mine;
  }

  lemma CleanLater(s: State, t: State, r: Request)
    requires SeedsClean(s) && Later(s, t) && r.CreateJob?
    ensures SeedsClean(Apply(t, r))
  {
  }

  /** Waits for the seed jobs, one after the other. */
  method AwaitJobs(api: Cluster, principal: Pvc, toBeAdded: seq<Pvc>, ghost s: State) returns (r: Outcome)
    requires api.Valid() && SeedPhase(s, api.state, principal, SetOf(toBeAdded))
    requires Tracked(s, api.state, principal, SetOf(toBeAdded), SetOf(toBeAdded)) && Distinct(toBeAdded)
    modifies api`state, api`trace
    ensures api.Valid() && Onward(old(api.SoFar()), api.SoFar()) && !r.Lost? && Told(old(api.SoFar()), api.SoFar(), r, Silent)
    ensures SeedPhase(s, api.state, principal, SetOf(toBeAdded))
    ensures r.Ok? ==> Tracked(s, api.state, principal, {}, SetOf(toBeAdded))
  {
    hide EnvEffect, SeedPhase, Tracked, Onward, Cluster.Valid, Later, Distinct, Accounted, Inv, Told;
    ghost var p0, all := api.SoFar(), SetOf(toBeAdded);
    ghost var rest := all;
    OnwardReflexive(p0);
    assert toBeAdded[0..] == toBeAdded;
    for i := 0 to |toBeAdded|
      invariant api.Valid() && Onward(p0, api.SoFar()) && Told(p0, api.SoFar(), Ok, Silent)
      invariant SeedPhase(s, api.state, principal, all) && Tracked(s, api.state, principal, rest, all)
      invariant rest == SetOf(toBeAdded[i..]) && rest <= all
    {
      PrefixGrows(toBeAdded, i);
      ghost var t, p1 := api.state, api.SoFar();
      r := WaitForJob(api, SeedJobName(api.directory, toBeAdded[i]), toBeAdded[i]);
      OnwardTransitive(p0, p1, api.SoFar());
      SeedPhaseLater(s, t, api.state, principal, all);
      TrackedLater(s, t, api.state, principal, rest, all);
      if r != Ok {
        return;
      }
      api.StateIsInv();
      rest := SetOf(toBeAdded[i + 1..]);
      TrackedEnded(s, api.state, principal, rest, all, toBeAdded[i]);
    }
    assert toBeAdded[|toBeAdded|..] == [];
    assert rest == {};
    return Ok;
  }

  /** Seeing the job succeed means that its destination has been seeded. */
  lemma TrackedEnded(s: State, t: State, principal: Pvc, waiting: set<Pvc>, mine: set<Pvc>, a: Pvc)
    requires Tracked(s, t, principal, waiting + {a}, mine) && Inv(t) && a in t.jobs && t.jobs[a].succeeded > 0
    ensures Tracked(s, t, principal, waiting, mine)
  {
    assert Accounts(t.jobs[a], VolumeOf(t, a));
  }

  /**
   * The volumes of dests have been seeded from the principal, and volumes which were not being seeded have not been
   * touched; only those jobs are still active which were before, into other volumes.
   */
  ghost predicate Seeded(s: State, t: State, principal: Pvc, dests: set<Pvc>) {
    && SeedShape(s, t)
    && (forall p | p in dests :: SeededLast(s, t, principal, p))
    && (forall p: Pvc | p !in dests && !Seeding(s, p) :: VolumeOf(t, p) == VolumeOf(s, p))
    && (forall p | Seeding(t, p) :: p !in dests && Seeding(s, p) && t.jobs[p].source == s.jobs[p].source)
  }

  lemma IsSeeded(s: State, t: State, principal: Pvc, dests: set<Pvc>)
    requires Tracked(s, t, principal, {}, dests) && SeedPhase(s, t, principal, dests)
    ensures Seeded(s, t, principal, dests)
  {
  }

  lemma PhasesAreShapes(s: State, principal: Pvc)
    ensures forall t, mine | SeedPhase(s, t, principal, mine) :: SeedShape(s, t)
  {
  }

  /**
   * Seeds the volumes; breaches only if it was not safe to seed. Unless its deletion fails, the seed ConfigMap has gone
   * afterwards, also when a job could not be created or has failed.
   */
  method SeedReplicas(api: Cluster, principal: Pvc, toBeAdded: seq<Pvc>) returns (r: Outcome)
    requires api.Valid() && Distinct(toBeAdded)
    modifies api`state, api`trace, api`requests, api`breaches
    ensures api.Valid() && Onward(old(api.SoFar()), api.SoFar()) && !r.Lost? && Told(old(api.SoFar()), api.SoFar(), r, Silent)
    ensures r.Ok? ==> Tidied(old(api.SoFar()), api.SoFar(), api.state)
    ensures r.Err? ==> Tidied(old(api.SoFar()), api.SoFar(), api.state) || api.requests == old(api.requests)
    ensures SeedShape(old(api.state), api.state)
    ensures SafeToSeed(old(api.state), principal, toBeAdded) ==> api.breaches == old(api.breaches)
    ensures r.Ok? ==> Seeded(old(api.state), api.state, principal, SetOf(toBeAdded))
    ensures r.Ok? && SafeToSeed(old(api.state), principal, toBeAdded) ==>
      forall p | p == principal || p in toBeAdded :: Untouched(api.state, p)
    ensures api.requests == old(api.requests).(mounts := api.requests.mounts)
    ensures r.Ok? ==> api.requests.mounts == old(api.requests.mounts) + SeedRequests(principal, toBeAdded)
  {
    hide EnvEffect, SeedPhase, Tracked, Seeded, Onward, Cluster.Valid, Later, SeedShape, Distinct, SeedRequests, SafeToSeed,
         SeedConfigMapName, ProxyName, Untouched, Told, Tidied;
    ghost var s, p0, dests := api.state, api.SoFar(), SetOf(toBeAdded);
    api.NameIsDirectory();
    ConfigMapNamesDiffer(api.directory);
    PhasesAreShapes(s, principal);
    var seedConfigMapName := SeedConfigMapName(api.directory);
    var ok;
    ghost var t;
    ok, t := CreateConfigMap(api, seedConfigMapName, SEED_CONFIG);
    SeedPhaseStarts(s, t, principal);
    SeedPhaseConfigMap(s, t, principal, {}, PutConfigMap(seedConfigMapName, SEED_CONFIG));
    if !ok {
      return Err;
    }
    CleanNow(s, t);
    ghost var p1, mine := api.SoFar(), {};
    r, mine := StartJobs(api, principal, toBeAdded, s);
    ghost var p2 := api.SoFar();
    OnwardTransitive(p0, p1, p2);
    if r != Ok {
      var _ := RemoveSeedConfigMap(api, s, principal, mine);
      OnwardTransitive(p0, p2, api.SoFar());
      OnwardReflexive(api.SoFar());
      TidiedLonger(p0, p2, api.SoFar(), api.SoFar(), api.state, api.state);
      return;
    }
    r := AwaitJobs(api, principal, toBeAdded, s);
    ghost var p3 := api.SoFar();
    OnwardTransitive(p0, p2, p3);
    var _ := RemoveSeedConfigMap(api, s, principal, dests);
    OnwardTransitive(p0, p3, api.SoFar());
    OnwardReflexive(api.SoFar());
    TidiedLonger(p0, p3, api.SoFar(), api.SoFar(), api.state, api.state);
    if r.Ok? {
      IsSeeded(s, api.state, principal, dests);
      if SafeToSeed(s, principal, toBeAdded) {
        forall p | p == principal || p in toBeAdded ensures Untouched(api.state, p) {
          SeedingLeavesUntouched(s, api.state, principal, toBeAdded, p);
        }
      }
    }
  }

  lemma CleanNow(s: State, t: State)
    requires Later(s, t)
    ensures SeedsClean(Apply(t, PutConfigMap(SeedConfigMapName(s.name), SEED_CONFIG)))
  {
  }
}
