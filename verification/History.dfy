/** Whole histories: any interleaving of runs of the loop with the steps of the other actors, users among them. */
module History {
  import opened Names
  import opened Documents
  import opened States
  import opened Clusters
  import opened Replicas
  import opened Agreements
  import opened Links
  import opened SeedJobs
  import opened Serve
  import opened Create
  import opened Jsons
  import opened ProxyTexts
  import opened Yamls
  import opened ProxyDeployment
  import opened Controller

  /* ---- what recorded histories keep ---- */

  /** Unless the document is failing, the cluster is as a successful run leaves it, and every two replicas are linked. */
  ghost predicate Good(s: State) {
    s.doc.available != False ==>
      Sound(s) && Quiet(s) && Served(s) && Connected(s, s.replicaSets) && (s.proxy.deployment.Some? ==> s.proxy.service.Some?)
  }

  /** No replica yet. */
  ghost predicate Empty(s: State) {
    && s.replicaSets == {} && s.pods == map[] && s.services == map[] && s.jobs == map[] && Distinct(s.doc.pvcs)
    && s.proxy.deployment == None
  }

  lemma EmptyIsGood(s: State)
    requires Empty(s)
    ensures Inv(s) && Exclusive(s) && Good(s)
  {
  }

  lemma LaterIsGood(s: State, t: State)
    requires Good(s) && Later(s, t)
    ensures Good(t)
  {
    if s.doc.available != False {
      forall p: Pvc, q: Pvc ensures Edge(t, p, q) == Edge(s, p, q) {
        assert VolumeOf(t, p) == VolumeOf(s, p);
      }
      hide Edge, VolumeOf;
    }
  }

  /** Of two replicas, both were there before, or one is seeded. */
  lemma OldOrSeeded(before: set<Pvc>, pvcs: seq<Pvc>, p: Pvc, q: Pvc)
    requires p in SetOf(pvcs) && q in SetOf(pvcs) && p != q && Distinct(pvcs)
    ensures var added := ToBeSeeded(before, Missing(pvcs, before));
      (p in before && q in before && p !in added && q !in added) || p in added || q in added
  {
    var missing := Missing(pvcs, before);
    assert p in before || p in missing;
    assert q in before || q in missing;
    if before == {} {
      assert missing == [missing[0]] + missing[1..];
    }
  }

  /** The agreements among the replicas of pvcs, after a run which found those of before. */
  lemma GrownConnects(s: State, t: State, principal: Pvc, before: set<Pvc>, pvcs: seq<Pvc>)
    requires Connected(s, before) && Distinct(pvcs) && Quiet(s)
    requires Grown(s, t, principal, before + SetOf(pvcs), ToBeSeeded(before, Missing(pvcs, before)))
    ensures Connected(t, SetOf(pvcs))
  {
    hide Missing, ToBeSeeded, SetOf, Edge, SeededLast, VolumeOf, Distinct;
    forall p, q | p in SetOf(pvcs) && q in SetOf(pvcs) && p != q ensures Edge(t, p, q) || Edge(t, q, p) {
      OldOrSeeded(before, pvcs, p, q);
    }
  }

  lemma QuietStays(s: State, t: State)
    requires Quiet(s) && NoNewJobs(s, t)
    ensures Quiet(t)
  {
    forall p | p in t.jobs ensures !t.jobs[p].active {
      assert Seeding(t, p) ==> Seeding(s, p);
    }
  }

  lemma ServedStays(s: State, t: State, added: seq<Pvc>, principal: Pvc, pvcs: seq<Pvc>, port: int)
    requires Served(s) && added == Missing(pvcs, s.replicaSets) && t.replicaSets == SetOf(pvcs)
    requires added != [] ==> IsPrincipal(principal, s.replicaSets, added)
    requires t.services == s.services + ServiceMap(Renewed(added, principal), port) - (s.replicaSets - SetOf(pvcs))
    ensures Served(t)
  {
    hide Missing, SetOf;
    NewPvcs(pvcs, s.replicaSets);
    ServedKeys(s.services, s.replicaSets, SetOf(pvcs), Renewed(added, principal), port);
  }

  lemma NewPvcs(pvcs: seq<Pvc>, before: set<Pvc>)
    ensures SetOf(Missing(pvcs, before)) == SetOf(pvcs) - before
    ensures Missing(pvcs, before) == [] ==> SetOf(pvcs) <= before
    ensures Missing(pvcs, before) != [] ==> Missing(pvcs, before)[0] in SetOf(pvcs)
  {
    assert forall p | p in pvcs && p !in before :: p in Missing(pvcs, before);
  }

  lemma ServedKeys(services: map<Pvc, Service>, before: set<Pvc>, pvcs: set<Pvc>, renewed: set<Pvc>, port: int)
    requires services.Keys == before && pvcs - before <= renewed <= before + pvcs
    requires forall p | p in services :: services[p].selects == p
    ensures var after := services + ServiceMap(renewed, port) - (before - pvcs);
      after.Keys == pvcs && forall p | p in after :: after[p].selects == p
  {
  }

  lemma SuccessIsGood(s: State, t: State, user: UserConfig, c: Course)
    requires Good(s) && s.doc.available != False && Reconciled(s, t, user, c) && Distinct(c.pvcs)
    ensures Good(t)
  {
    hide Missing, SetOf, ToBeSeeded, Renewed, Sound, Quiet, Served, Connected, Grown, NoNewJobs, ServiceMap, SavedText, Distinct;
    GrownConnects(s, t, c.principal, s.replicaSets, c.pvcs);
    QuietStays(s, t);
    ServedStays(s, t, Missing(c.pvcs, s.replicaSets), c.principal, c.pvcs, c.config.port);
  }

  /** A step of a history: other actors, or a run whose outcome was recorded or which has changed nothing. */
  datatype Step = Elapsed | Ran(user: UserConfig, course: Course, result: Result, started: bool)

  /** What any step does to the document. */
  ghost predicate Happens(s: State, t: State, step: Step) {
    match step
    case Elapsed => EnvEffect(s, t)
    case Ran(user, c, r, started) => RunEffect(s, t, c, r, started)
  }

  /**
   * What a step does whose outcome was recorded: a success without a fault reconciles (Controller.Reconcile). The user's
   * configuration may be another one in each run.
   */
  ghost predicate StepEffect(s: State, t: State, step: Step) {
    && Happens(s, t, step)
    && (step.Ran? ==> step.result !in {Failed(false), Crashed})
    && (step.Ran? && step.result.Succeeded? ==> Reconciled(s, t, step.user, step.course) && Distinct(step.course.pvcs))
  }

  ghost predicate Unfolds(states: seq<State>, steps: seq<Step>) {
    && |states| == |steps| + 1
    && forall i | 0 <= i < |steps| :: StepEffect(states[i], states[i + 1], steps[i])
  }

  lemma MarkedIsGood(s: State, t: State)
    requires Good(s) && OnlyMarked(s, t)
    ensures Good(t) && Unchanged(s, t) && t.doc.available != False && s.doc.available != False
  {
    var seen :| Later(s, seen) && seen.doc.available != False
      && t == seen.(doc := seen.doc.(inProgress := True, version := seen.doc.version + 1));
    LaterIsUnchanged(s, seen);
    LaterIsGood(s, seen);
    SameEdges(seen, t);
  }

  lemma SameEdges(s: State, t: State)
    requires t == s.(doc := t.doc)
    ensures forall p: Pvc, q: Pvc :: Edge(t, p, q) == Edge(s, p, q)
  {
  }

  lemma StepIsGood(s: State, t: State, step: Step)
    requires Good(s) && StepEffect(s, t, step)
    ensures Good(t)
  {
    hide Reconciled, Later, EnvEffect, Sound, Quiet, Served, Connected, OnlyMarked, OnlyStatus;
    if step == Elapsed {
      EnvIsLater(s, t);
      LaterIsGood(s, t);
    } else if step.result == Idle {
      LaterIsGood(s, t);
    } else if step.result == Abandoned {
      MarkedIsGood(s, t);
    } else if step.result.Succeeded? {
      SuccessIsGood(s, t, step.user, step.course);
    }
  }

  /**
   * Over histories: unless the document is failing, any two replicas have an agreement in at least one direction, each has
   * its pod and its service, no seed job is active, and the proxy has its service if it is deployed.
   */
  lemma {:induction false} HistoryIsGood(states: seq<State>, steps: seq<Step>, i: nat)
    requires Unfolds(states, steps) && Good(states[0]) && i < |states|
    ensures Good(states[i])
  {
    hide Good, StepEffect;
    if i > 0 {
      HistoryIsGood(states, steps, i - 1);
      StepIsGood(states[i - 1], states[i], steps[i - 1]);
    }
  }

  lemma StepHappens(s: State, t: State, step: Step)
    requires StepEffect(s, t, step)
    ensures Happens(s, t, step)
  {
  }

  lemma FailingStep(s: State, t: State, step: Step)
    requires Happens(s, t, step) && s.doc.available == False
    ensures Later(s, t) && t.doc == s.doc
  {
    hide OnlyMarked, OnlyStatus;
    if step == Elapsed {
      EnvIsLater(s, t);
    }
  }

  /**
   * Once the document is failing, no update is admitted, and the operator changes nothing any more, whatever was before and
   * however any run ends.
   */
  lemma {:induction false} FailingIsForever(states: seq<State>, steps: seq<Step>, i: nat, j: nat)
    requires |states| == |steps| + 1 && i <= j < |states| && states[i].doc.available == False
    requires forall k | i <= k < j :: Happens(states[k], states[k + 1], steps[k])
    ensures Later(states[i], states[j]) && states[j].doc == states[i].doc
    ensures forall pvcs, exist, same, pods :: ValidateUpdate(states[j].doc, pvcs, exist, same, pods) != Admitted
    decreases j - i
  {
    hide Happens, Later;
    EnvEffectReflexive(states[i]);
    if i < j {
      FailingIsForever(states, steps, i, j - 1);
      FailingStep(states[j - 1], states[j], steps[j - 1]);
      LaterTransitive(states[i], states[j - 1], states[j]);
    }
  }

  /* ---- any runs at all ---- */

  /** With no active job, a start is safe exactly when nothing which is going to be seeded has a ReplicaSet. */
  lemma QuietIsSafeExactlyWhen(s: State, items: seq<Pvc>)
    requires Quiet(s)
    ensures SafeStart(s, s.pods.Keys, items)
            <==> items == [] || SetOf(if s.pods.Keys == {} then items[1..] else items) !! s.replicaSets
  {
  }

  lemma GoodIsSafe(s: State, pvcs: seq<Pvc>)
    requires Good(s) && s.doc.available != False
    ensures SafeStart(s, s.pods.Keys, Missing(pvcs, s.pods.Keys))
  {
    QuietIsSafeExactlyWhen(s, Missing(pvcs, s.pods.Keys));
    MissingIsNew(pvcs, s.replicaSets);
  }

  /** What one run of a history is to the flags of Operate. */
  ghost predicate RunIsSafe(c: Course, started: bool, calm: bool) {
    started ==> SafeRun(c) && calm
  }

  lemma RunKeepsGood(s: State, a: Moment, b: Moment, user: UserConfig, c: Course, r: Result, ph: Option<Phases>)
    requires a.state == s && RunEffect(s, b.state, c, r, ph.Some?)
    requires ph.Some? ==> Claims(Afresh(a), b, user, c, Sound(s), r.Succeeded?) && Later(s, c.listed)
    requires ph.Some? ==> Throughout(Afresh(a), b, user, c, ph.value, Sound(s), r.Succeeded?)
    requires ph.None? ==> b.past.breaches == a.past.breaches
    ensures RunIsSafe(c, ph.Some?, CalmPast(b.past)) ==> b.past.breaches == a.past.breaches
    ensures Good(s) && r !in {Failed(false), Crashed} && (r.Succeeded? ==> GoodPast(b.past)) ==>
      StepEffect(s, b.state, Ran(user, c, r, ph.Some?))
    ensures Good(s) && r !in {Failed(false), Crashed} && (r.Succeeded? ==> GoodPast(b.past)) ==> Good(b.state)
    ensures Good(s) && CalmPast(b.past) ==> RunIsSafe(c, ph.Some?, CalmPast(b.past))
  {
    hide Later, Steady, Sound, Served, Connected, Quiet, Missing, Reconciled, SafeStart, RunRequests, Planned, Commanded, Distinct,
         Onward, SetOf, OnlyMarked, OnlyStatus;
    if Good(s) && r !in {Failed(false), Crashed} && (r.Succeeded? ==> GoodPast(b.past)) {
      assert StepEffect(s, b.state, Ran(user, c, r, ph.Some?));
      StepIsGood(s, b.state, Ran(user, c, r, ph.Some?));
    }
    if Good(s) && ph.Some? {
      LaterIsGood(s, c.listed);
      ReadDocument(s, c.listed);
      StillAvailable(s, c.listed);
      GoodIsSafe(c.listed, c.pvcs);
    }
  }

  lemma StillAvailable(s: State, t: State)
    requires Later(s, t)
    ensures t.doc.available == s.doc.available
  {
  }

  /** The configurations of the runs, in their order. */
  function UsersOf(steps: seq<Step>): seq<UserConfig> {
    if steps == [] then []
    else
      var last := steps[|steps| - 1];
      UsersOf(steps[..|steps| - 1]) + if last.Ran? then [last.user] else []
  }

  /** States of the trace, and the steps between them, which are runs with these configurations and what the others do. */
  ghost predicate Logged(trace: seq<Event>, states: seq<State>, steps: seq<Step>, users: seq<UserConfig>) {
    && |states| == |steps| + 1 && UsersOf(steps) == users
    && (forall j | 0 <= j < |steps| :: Happens(states[j], states[j + 1], steps[j]))
    && (forall j | 0 <= j < |states| :: Met(trace, states[j]))
  }

  lemma LoggedMore(trace: seq<Event>, more: seq<Event>, states: seq<State>, steps: seq<Step>, users: seq<UserConfig>, t: State,
                   step: Step)
    requires Logged(trace, states, steps, users) && trace <= more && Met(more, t)
    requires Happens(states[|steps|], t, step)
    ensures Logged(more, states + [t], steps + [step], users + if step.Ran? then [step.user] else [])
    ensures Unfolds(states, steps) && StepEffect(states[|steps|], t, step) ==> Unfolds(states + [t], steps + [step])
  {
    hide Happens, StepEffect, Met;
    assert (steps + [step])[..|steps|] == steps;
    forall j | 0 <= j < |states| ensures Met(more, states[j]) {
      MetLater(trace, more, states[j]);
    }
  }

  lemma ElapsedStep(s: State, t: State)
    requires Later(s, t)
    ensures Happens(s, t, Elapsed) && StepEffect(s, t, Elapsed)
  {
  }

  lemma MetLast(trace: seq<Event>, s: State)
    requires 0 < |trace| && trace[|trace| - 1].state == s
    ensures Met(trace, s)
  {
  }

  /** Steps of the others, and one run of the loop; mid is the state between them. For the flags, see Operate. */
  method RunOnce(api: Cluster, user: UserConfig)
    returns (ghost mid: State, ghost step: Step, ghost smooth: bool, ghost calm: bool, ghost safe: bool)
    requires api.Valid() && Parsed(user.server) && Parsed(user.proxy)
    modifies api
    ensures api.Valid() && old(api.trace) <= api.trace && Met(api.trace, mid) && Met(api.trace, api.state)
    ensures step.Ran? && step.user == user && Happens(old(api.state), mid, Elapsed) && Happens(mid, api.state, step)
    ensures smooth <==> step.result !in {Failed(false), Crashed} && (step.result.Succeeded? ==> api.Good())
    ensures calm == api.Calm()
    ensures safe ==> api.breaches == old(api.breaches)
    ensures smooth && Good(old(api.state)) ==>
      StepEffect(old(api.state), mid, Elapsed) && StepEffect(mid, api.state, step) && Good(api.state)
    ensures calm && Good(old(api.state)) ==> safe
  {
    hide Cluster.Valid, Good, Claims, Throughout, RunEffect, RunIsSafe, SafeRun, Reconciled, Sound, Later, Exclusive, Onward,
         StepEffect, Happens, Met, Reasoned, Excused, OrderlyRun, Told;
    ghost var s, p0 := api.state, api.SoFar();
    api.Others();
    OnwardFacts(p0, api.SoFar());
    ghost var a := api.Now();
    mid := api.state;
    api.LastState();
    MetLast(api.trace, mid);
    if Good(s) {
      LaterIsGood(s, mid);
    }
    ElapsedStep(s, mid);
    api.NameIsDirectory();
    var r;
    ghost var c, ph;
    r, c, ph := Reconcile(api, user);
    api.LastState();
    MetLast(api.trace, api.state);
    MetLater(a.past.trace, api.trace, mid);
    RunKeepsGood(mid, a, api.Now(), user, c, r, ph);
    step := Ran(user, c, r, ph.Some?);
    RunHappens(mid, api.state, step);
    smooth := r !in {Failed(false), Crashed} && (r.Succeeded? ==> api.Good());
    calm := api.Calm();
    safe := RunIsSafe(c, ph.Some?, api.Calm());
  }

  /**
   * One run of the loop after the other, each with the configuration it finds, whatever their outcomes, and interleaved with
   * the other actors; states and steps say what happened. smooth: every outcome was recorded, and no success met a fault.
   * calm: every stop of a replica went as the operator believes. safe: every run which changed something was calm and found
   * a safe start.
   */
  method Operate(api: Cluster, users: seq<UserConfig>)
    returns (ghost states: seq<State>, ghost steps: seq<Step>, ghost smooth: bool, ghost calm: bool, ghost safe: bool)
    requires api.Valid() && forall u | u in users :: Parsed(u.server) && Parsed(u.proxy)
    modifies api
    ensures api.Valid() && old(api.trace) <= api.trace
    ensures Logged(api.trace, states, steps, users) && states[0] == old(api.state) && states[|steps|] == api.state
    ensures safe ==> api.breaches == old(api.breaches)
    ensures smooth && Good(old(api.state)) ==> Unfolds(states, steps) && Good(api.state)
    ensures smooth && calm && Good(old(api.state)) ==> safe && api.breaches == old(api.breaches)
  {
    hide Cluster.Valid, Good, Unfolds, StepEffect, Happens, Met, UsersOf;
    smooth, calm, safe := true, true, true;
    states, steps := [api.state], [];
    ghost var done: seq<UserConfig> := [];
    api.LastState();
    NothingLogged(api.trace, api.state);
    for i := 0 to |users|
      invariant api.Valid() && old(api.trace) <= api.trace
      invariant Logged(api.trace, states, steps, done) && done == users[..i]
      invariant states[0] == old(api.state) && states[|steps|] == api.state
      invariant safe ==> api.breaches == old(api.breaches)
      invariant smooth && Good(old(api.state)) ==> Unfolds(states, steps) && Good(api.state)
      invariant smooth && calm && Good(old(api.state)) ==> safe
    {
      ghost var trace, mid, step, smoothly, calmly, safely := api.trace, api.state, Elapsed, true, true, true;
      mid, step, smoothly, calmly, safely := RunOnce(api, users[i]);
      LoggedMore(trace, api.trace, states, steps, done, mid, Elapsed);
      LoggedMore(api.trace, api.trace, states + [mid], steps + [Elapsed], done + [], api.state, step);
      states, steps, done := states + [mid] + [api.state], steps + [Elapsed] + [step], done + [users[i]];
      smooth, calm, safe := smooth && smoothly, calm && calmly, safe && safely;
    }
    assert users[..|users|] == users;
  }

  lemma RunHappens(s: State, t: State, step: Step)
    requires step.Ran? && RunEffect(s, t, step.course, step.result, step.started)
    ensures Happens(s, t, step)
  {
  }

  lemma NothingLogged(trace: seq<Event>, s: State)
    requires 0 < |trace| && trace[|trace| - 1].state == s
    ensures Logged(trace, [s], [], []) && Unfolds([s], [])
  {
    MetLast(trace, s);
  }

  /* ---- one run after another ---- */

  lemma NothingMissing(pvcs: seq<Pvc>, before: set<Pvc>)
    requires SetOf(pvcs) <= before
    ensures Missing(pvcs, before) == []
  {
    assert Missing(pvcs, before) != [] ==> Missing(pvcs, before)[0] in SetOf(pvcs);
  }

  /** A second run of an unchanged document restarts, creates and deletes nothing, and leaves the proxy's configuration. */
  lemma RunningAgainChangesNothing(s: State, t: State, u: State, user: UserConfig, c: Course, d: Course)
    requires Reconciled(s, t, user, c) && Reconciled(t, u, user, d) && d.pvcs == c.pvcs
    ensures u.replicaSets == t.replicaSets && u.services == t.services && u.strays == t.strays && Still(t, u)
    ensures u.configMaps == t.configMaps && u.proxy == t.proxy
  {
    hide Missing, SetOf, Sound, NoNewJobs, Grown, Still, SavedText, ToBeSeeded;
    NothingMissing(d.pvcs, t.replicaSets);
    assert t.replicaSets - SetOf(d.pvcs) == {};
    assert t.services + ServiceMap({}, d.config.port) - {} == t.services;
    assert t.configMaps[ProxyName(s.name) := SavedText(user, s.name, c.pvcs, c.config)] == t.configMaps;
  }

  /** Which pairs are commanded does not depend on the principal; the kind of a command tells whether it is the principal's. */
  lemma CommandsDoNotDependOnPrincipal(plan: Plan, other: Plan, all: set<Pvc>, added: set<Pvc>, x: Pvc, a: Pvc)
    ensures (exists c :: Issue(Some(x), a, c) in CommandsFor(plan, all, added))
            <==> (exists c :: Issue(Some(x), a, c) in CommandsFor(other, all, added))
    ensures (exists c :: Issue(Some(x), a, c) in CommandsFor(plan, all, added)) <==> x in all && a in added && x != a
    ensures forall c | Issue(Some(x), a, c) in CommandsFor(plan, all, added) :: c.AddFromPrincipal? <==> x == plan.principal
  {
    if x in all && a in added && x != a {
      assert IssueFor(plan, x, a) in CommandsFor(plan, all, added);
      assert IssueFor(other, x, a) in CommandsFor(other, all, added);
    }
  }

  /** p's service has the configured port. */
  predicate Fits(s: State, p: Pvc, port: int) {
    p in s.services && s.services[p].port == port
  }

  lemma ServicePort(s: State, t: State, user: UserConfig, c: Course, p: Pvc)
    requires Reconciled(s, t, user, c) && Served(s) && p in c.pvcs
    ensures p in t.services
    ensures var renewed := Renewed(Missing(c.pvcs, s.replicaSets), c.principal);
      t.services[p] == if p in renewed then Service(c.config.port, p) else s.services[p]
    ensures p in Renewed(Missing(c.pvcs, s.replicaSets), c.principal) || p in s.services
  {
    hide Grown, Sound, NoNewJobs, Still, SavedText, ToBeSeeded;
    assert p in SetOf(c.pvcs);
    if p !in s.replicaSets {
      assert p in Missing(c.pvcs, s.replicaSets);
    }
  }

  /**
   * Two successful runs from the same state agree, whatever principal and whatever orders they have chosen - except for the
   * ports of the services, if the configured port has changed: only the principal's service is created anew.
   */
  lemma OutcomeDoesNotDependOnOrder(s: State, t: State, u: State, user: UserConfig, c: Course, d: Course)
    requires Reconciled(s, t, user, c) && Reconciled(s, u, user, d) && c.pvcs == d.pvcs && Quiet(s)
    ensures t.replicaSets == u.replicaSets && t.pods.Keys == u.pods.Keys && t.strays == u.strays && t.proxy == u.proxy
    ensures t.configMaps - {SeedConfigMapName(s.name)} == u.configMaps - {SeedConfigMapName(s.name)}
    ensures var added := ToBeSeeded(s.replicaSets, Missing(c.pvcs, s.replicaSets));
      forall p: Pvc, q: Pvc | p != q && (p !in added || q in added) :: Edge(t, p, q) <==> Edge(u, p, q)
  {
    var seed, proxy := SeedConfigMapName(s.name), ProxyName(s.name);
    var rest := s.configMaps - {seed, proxy};
    ConfigMapNamesDiffer(s.name);
    MapsOfOneKey(t.configMaps, rest, seed, proxy);
    MapsOfOneKey(u.configMaps, rest, seed, proxy);
    hide SavedText, ServiceMap, Edge, Missing, SetOf, NoNewJobs, Still, SeededLast, Renewed, SeedConfigMapName, ProxyName, ToBeSeeded;
  }

  lemma ServicesDependOnPrincipal(s: State, t: State, u: State, user: UserConfig, c: Course, d: Course, p: Pvc)
    requires Reconciled(s, t, user, c) && Reconciled(s, u, user, d) && c.pvcs == d.pvcs && Served(s) && p in c.pvcs
    ensures t.services[p] == u.services[p]
            <==> (p in s.replicaSets && Missing(c.pvcs, s.replicaSets) != [] && !Fits(s, p, c.config.port)
                  ==> (p == c.principal <==> p == d.principal))
  {
    hide Reconciled, Missing, Served;
    ServicePort(s, t, user, c, p);
    ServicePort(s, u, user, d, p);
    NewPvcs(c.pvcs, s.replicaSets);
    SameConfig(s, t, u, user, c, d);
    ServesItself(s, p);
  }

  lemma ServesItself(s: State, p: Pvc)
    requires Served(s)
    ensures (p in s.services <==> p in s.replicaSets) && (p in s.services ==> s.services[p].selects == p)
  {
  }

  lemma SameConfig(s: State, t: State, u: State, user: UserConfig, c: Course, d: Course)
    requires Reconciled(s, t, user, c) && Reconciled(s, u, user, d)
    ensures c.config == d.config
  {
  }

  lemma MapsOfOneKey(m: map<string, string>, rest: map<string, string>, k: string, l: string)
    requires l in m && m - {k, l} == rest
    ensures m - {k} == rest[l := m[l]] - {k}
  {
  }

  /**
   * The target of a replica in the saved configuration has the port of its service exactly when the run has created the
   * service, or it was created under that port before.
   */
  lemma TargetsReachExactlyWhen(s: State, t: State, user: UserConfig, c: Course, p: Pvc)
    requires Reconciled(s, t, user, c) && Served(s) && p in c.pvcs
    ensures p in t.services && ProxyConfig(t) == Some(SavedText(user, t.name, c.pvcs, c.config))
    ensures var target := ReadTarget(Target(ReplicaName(t.name, p), c.config));
      && target.Some? && target.value.host == ReplicaName(t.name, p)
      && (target.value.port == t.services[p].port
          <==> p in Renewed(Missing(c.pvcs, s.replicaSets), c.principal) || Fits(s, p, c.config.port))
  {
    hide Missing, SetOf, Renewed;
    ServicePort(s, t, user, c, p);
    TargetReads(ReplicaName(t.name, p), c.config);
    hide Reconciled, Target, ReadTarget;
  }

  /** A proxy which has been deployed without its service is not given one by a later run. */
  lemma UnservedProxyStays(s: State, t: State, user: UserConfig, c: Course)
    requires Reconciled(s, t, user, c)
    ensures t.proxy.service.Some? <==> s.proxy.service.Some? || s.proxy.deployment.None?
    ensures t.proxy.service == t.proxy.deployment <==> s.proxy.deployment.None? || s.proxy.service == Some(ProxyPort(user))
  {
    hide Missing, SetOf, Grown, NoNewJobs, Still, SavedText, Sound, ToBeSeeded, Renewed, ServiceMap;
    ProxyServiceExactly(s.proxy, ProxyPort(user), ProxyConfig(s) != Some(SavedText(user, s.name, c.pvcs, c.config)));
  }

  /* ---- what deleteReplicas does not do ---- */

  /** p's volume keeps its agreement with q, or its lack of one, in every run which leaves p and does not add q. */
  lemma EdgeStays(s: State, t: State, step: Step, p: Pvc, q: Pvc)
    requires StepEffect(s, t, step) && Good(s) && s.doc.available != False && t.doc.available != False
    requires p != q && p in s.replicaSets && p in t.replicaSets && (q in t.replicaSets ==> q in s.replicaSets)
    ensures Edge(t, p, q) <==> Edge(s, p, q)
  {
    hide Served, Connected, SavedText, ServiceMap, Renewed, VolumeOf, Edge, OnlyMarked, OnlyStatus, Later, EnvEffect, Sound;
    if step == Elapsed {
      EnvIsLater(s, t);
      StillEdge(s, t, p, q);
    } else if step.result == Idle {
      StillEdge(s, t, p, q);
    } else if step.result == Abandoned {
      MarkedEdge(s, t, p, q);
    } else if step.result.Succeeded? {
      var pvcs := step.course.pvcs;
      var missing := Missing(pvcs, s.replicaSets);
      assert forall x | x in ToBeSeeded(s.replicaSets, missing) :: x in missing;
      assert q in missing ==> q in SetOf(pvcs);
    }
  }

  lemma MarkedEdge(s: State, t: State, p: Pvc, q: Pvc)
    requires OnlyMarked(s, t) && Quiet(s)
    ensures Edge(t, p, q) <==> Edge(s, p, q)
  {
    var seen :| Later(s, seen) && t == seen.(doc := t.doc);
    StillEdge(s, seen, p, q);
    SameEdges(seen, t);
  }

  lemma StillEdge(s: State, t: State, p: Pvc, q: Pvc)
    requires Later(s, t) && Quiet(s)
    ensures Edge(t, p, q) <==> Edge(s, p, q)
  {
    assert VolumeOf(t, p) == VolumeOf(s, p);
  }

  /** Replicas p of the document stay, and q is not added again. */
  ghost predicate Stays(states: seq<State>, i: nat, j: nat, p: Pvc, q: Pvc)
    requires i <= j < |states|
  {
    && (forall k | i <= k <= j :: p in states[k].replicaSets)
    && (forall k | i <= k < j :: q in states[k + 1].replicaSets ==> q in states[k].replicaSets)
  }

  /**
   * That no survivor keeps an agreement with a deleted replica is the intent. The removals run on the deleted replica, so
   * over whole histories a replica keeps exactly the agreements it had with q until q is added again, whenever q is taken
   * out of the document.
   */
  lemma {:induction false} StaleAgreementsStay(states: seq<State>, steps: seq<Step>, i: nat, j: nat, p: Pvc, q: Pvc)
    requires Unfolds(states, steps) && Good(states[0]) && i <= j < |states| && states[j].doc.available != False
    requires p != q && Stays(states, i, j, p, q)
    ensures Edge(states[j], p, q) <==> Edge(states[i], p, q)
    decreases j - i
  {
    hide Good, StepEffect, Edge;
    if i < j {
      if states[j - 1].doc.available == False {
        StepHappens(states[j - 1], states[j], steps[j - 1]);
        FailingStep(states[j - 1], states[j], steps[j - 1]);
      }
      StaleAgreementsStay(states, steps, i, j - 1, p, q);
      HistoryIsGood(states, steps, j - 1);
      EdgeStays(states[j - 1], states[j], steps[j - 1], p, q);
    }
  }

  /** It fails in the plainest history: two replicas from nothing, and then the second one taken away. */
  lemma IntentFails(s: State, t: State, u: State, user: UserConfig, c: Course, d: Course, a: Pvc, b: Pvc)
    requires s.replicaSets == {} && Quiet(s) && a != b
    requires Reconciled(s, t, user, c) && c.pvcs == [a, b] && Reconciled(t, u, user, d) && d.pvcs == [a]
    ensures a in u.replicaSets && b !in u.replicaSets && Edge(u, a, b)
  {
    hide Missing, SetOf, Grown, Edge, SavedText, ServiceMap, Renewed, Still, Sound;
    MissingOfTwo(a, b);
    QuietStays(s, t);
    FirstSeedsSecond(s, t, c.principal, a, b);
    NothingSeeded(t, u, d.principal, {a, b} + {a}, {a, b}, a, b);
  }

  lemma NothingSeeded(s: State, t: State, principal: Pvc, all: set<Pvc>, before: set<Pvc>, p: Pvc, q: Pvc)
    requires Grown(s, t, principal, all, ToBeSeeded(before, [])) && p != q && Edge(s, p, q) && Quiet(s)
    ensures Edge(t, p, q)
  {
    hide Edge;
    NoneListed();
  }

  lemma MissingOfTwo(a: Pvc, b: Pvc)
    requires a != b
    ensures Missing([a, b], {}) == [a, b] && Missing([a], {a, b}) == [] && Missing([a], {}) == [a]
    ensures SetOf([a, b]) == {a, b} && SetOf([a]) == {a}
  {
    hide Missing;
    MissingOfOne(a, {});
    MissingOfOne(a, {a, b});
    MissingLast([a], b, {});
    assert [a] + [b] == [a, b];
  }

  lemma MissingOfOne(a: Pvc, existing: set<Pvc>)
    ensures Missing([a], existing) == if a in existing then [] else [a]
  {
    assert [a][..0] == [] && Missing([], existing) == [];
  }

  lemma MissingLast(front: seq<Pvc>, last: Pvc, existing: set<Pvc>)
    ensures Missing(front + [last], existing) == Missing(front, existing) + if last in existing then [] else [last]
  {
    assert (front + [last])[..|front|] == front;
  }

  lemma FirstSeedsSecond(s: State, t: State, principal: Pvc, a: Pvc, b: Pvc)
    requires a != b && Grown(s, t, principal, {} + SetOf([a, b]), ToBeSeeded({}, [a, b])) && Quiet(s)
    ensures Edge(t, a, b)
  {
    hide Edge;
    assert [a, b][1..] == [b];
    assert b in ToBeSeeded({}, [a, b]) && a !in ToBeSeeded({}, [a, b]) && a in SetOf([a, b]);
  }

  /* ---- why a run succeeds, and in which order it goes ---- */

  /**
   * A started run succeeds exactly when the user's configuration can be used, no request on whose answer it depends was
   * answered with an error, no wait ended badly, and no pod was missing.
   */
  lemma RunSucceedsExactlyWhen(trace: seq<Event>, t: State, user: UserConfig, c: Course, ph: Phases, r: Result)
    requires Reasoned(trace, t, user, c, ph, r) && r !in {Idle, Abandoned}
    ensures r.Succeeded? <==>
      Usable(user) && !Any(trace, ph.from + 1, ph.to, Error) && !Any(trace, ph.from + 1, ph.to, Panic)
    ensures r.Failed? ==> !Any(trace, ph.from + 1, ph.to, Panic) && (Any(trace, ph.from + 1, ph.to, Error) || !Usable(user))
    ensures r == Crashed ==> !Any(trace, ph.from + 1, ph.to, Error) && (Any(trace, ph.from + 1, ph.to, Panic) || !Keyed(user))
  {
    var b := Cut(trace, ph.to);
    assert b.trace <= trace;
    AnyPrefix(b.trace, trace, ph.from + 1, ph.to, Error);
    AnyPrefix(b.trace, trace, ph.from + 1, ph.to, Panic);
    hide Any, Usable, Keyed, Tidied, Erring, ToBeSeeded, Missing;
  }

  /** Up to the move number i, two replicas have been linked. */
  ghost predicate LinkedBy(trace: seq<Event>, from: int, i: int) {
    Any(trace, from, i + 1, Link)
  }

  /**
   * After a run which met no fault, each replica which has come was seen ready. One which is seeded was so while the
   * principal was down, before any two replicas other than the principal were linked; the first one of a new directory is
   * so when the proxy is going to be deployed. When there were replicas before, no two are linked any more once a service
   * has been created.
   */
  lemma NewReplicasComeInTurn(s: State, trace: seq<Event>, c: Course, ph: Phases, p: Pvc)
    requires OrderlyRun(s, trace, c, ph) && Planned(s.replicaSets, c) && p in c.pvcs && p !in s.replicaSets
    ensures p != c.principal ==>
      exists i | ph.from <= i < ph.to ::
        Live(trace[i].state, p) && c.principal !in trace[i].state.replicaSets && !LinkedBy(trace, ph.from + 1, i)
    ensures 0 <= ph.published < ph.to && Live(trace[ph.published].state, c.principal)
    ensures s.replicaSets != {} ==>
      forall i, j | ph.from < i < j < ph.to && KindOf(trace[i].move) == Serve :: KindOf(trace[j].move) != Link
  {
    hide Missing, SetOf, Any, Live, KindOf, Onward;
    var a, b, before := Cut(trace, ph.from + 1), Cut(trace, ph.to), s.replicaSets;
    var added := Missing(c.pvcs, before);
    assert p in added;
    assert forall i | 0 <= i < ph.to :: b.trace[i] == trace[i];
    var m: Past :| Onward(a, m) && Onward(m, b) && (before != {} ==> m == a) && !Any(m.trace, |a.trace|, |m.trace|, Link)
      && Raised(b.trace, |m.trace|, |b.trace|, c.principal, ToBeSeeded(before, added));
    var k: nat, l: nat :| InTurn(b.trace, |m.trace|, |b.trace|, k, l, c.principal, ToBeSeeded(before, added));
    PrefixLengths(a, m, b);
    if p != c.principal {
      SeededUnlessFirst(before, added, c.principal, p);
      var i :| |m.trace| - 1 <= i < k && 0 <= i < |b.trace| && Live(b.trace[i].state, p)
        && c.principal !in b.trace[i].state.replicaSets;
      NotLinkedBefore(trace, a, m, b, k, i);
    }
    if before != {} {
      forall i, j | ph.from < i < j < ph.to && KindOf(trace[i].move) == Serve ensures KindOf(trace[j].move) != Link {
        ServedBehind(b.trace, ph.from + 1, ph.to, l, i, j);
      }
    }
  }

  lemma PrefixLengths(a: Past, b: Past, c: Past)
    requires Onward(a, b) && Onward(b, c)
    ensures a.trace <= b.trace <= c.trace
  {
  }

  lemma SeededUnlessFirst(before: set<Pvc>, added: seq<Pvc>, principal: Pvc, p: Pvc)
    requires p in added && p != principal && IsPrincipal(principal, before, added)
    ensures p in ToBeSeeded(before, added)
  {
    if before == {} {
      assert added == [added[0]] + added[1..];
    }
  }

  lemma NotLinkedBefore(trace: seq<Event>, a: Past, m: Past, b: Past, k: int, i: int)
    requires a.trace <= m.trace <= b.trace <= trace && |m.trace| - 1 <= i < k <= |b.trace|
    requires !Any(m.trace, |a.trace|, |m.trace|, Link) && !Any(b.trace, |m.trace|, k, Link)
    ensures !LinkedBy(trace, |a.trace|, i)
  {
    AnyPrefix(m.trace, trace, |a.trace|, |m.trace|, Link);
    AnyPrefix(b.trace, trace, |m.trace|, k, Link);
    hide KindOf;
  }

  lemma ServedBehind(trace: seq<Event>, from: int, to: int, l: int, i: int, j: int)
    requires !Any(trace, from, l, Serve) && !Any(trace, l, to, Link) && 0 <= from <= i < j < to <= |trace|
    requires KindOf(trace[i].move) == Serve
    ensures KindOf(trace[j].move) != Link
  {
    hide KindOf;
  }

  /* ---- the proxy ---- */

  /** A success leaves the proxy on the configured port, and has restarted one which was there exactly when its configuration changed. */
  lemma RestartsExactlyWhen(s: State, t: State, user: UserConfig, c: Course)
    requires Reconciled(s, t, user, c)
    ensures t.proxy.deployment == Some(ProxyPort(user))
    ensures s.proxy.deployment.Some? ==> (t.proxy.restarts > s.proxy.restarts <==> ProxyConfig(t) != ProxyConfig(s))
    ensures s.proxy.restarts <= t.proxy.restarts <= s.proxy.restarts + 1
    ensures s.proxy.deployment.None? ==> t.proxy.restarts == s.proxy.restarts
  {
    hide Missing, SetOf, Grown, NoNewJobs, Still, SavedText, Sound, ToBeSeeded, Renewed, ServiceMap, ProxyConfig;
  }

  /** The two configurations do not list the same servers. */
  ghost predicate ListsOthers(config: Option<string>, directory: string, pvcs: seq<Pvc>) {
    config == None || exists p: Pvc :: ListsServer(config.value, ReplicaName(directory, p)) <==> p !in pvcs
  }

  /** A run which changes the servers of a proxy that is deployed has restarted it since it saved them. */
  lemma ProxyServesItsConfig(s: State, trace: seq<Event>, t: State, user: UserConfig, c: Course, ph: Phases)
    requires Reconciled(s, t, user, c) && OrderlyRun(s, trace, c, ph) && s.proxy.deployment.Some?
    requires Steady(trace, ph, ProxyConfig(s), SavedText(user, s.name, c.pvcs, c.config))
    requires Writable(user, s.name, c.pvcs, c.config) && ListsOthers(ProxyConfig(s), s.name, c.pvcs)
    ensures ph.saved < |trace| && ProxyConfig(trace[ph.saved].state) == ProxyConfig(t)
    ensures t.proxy.restarts > trace[ph.saved].state.proxy.restarts
  {
    hide Writable, ListsServer, SavedText, ReplicaName, GrewInTurn, Live, Missing, ProxyConfig, Up, SetOf, Grown, Redeployed;
    RestartsExactlyWhen(s, t, user, c);
    hide Reconciled;
    assert Cut(trace, ph.to).trace[ph.saved] == trace[ph.saved];
    SavedProxyConfig(s, t, user, c);
    if ProxyConfig(s).Some? {
      var p: Pvc :| ListsServer(ProxyConfig(s).value, ReplicaName(s.name, p)) <==> p !in c.pvcs;
      SavedTextLists(user, s.name, c.pvcs, c.config, p);
    }
  }

  lemma SavedProxyConfig(s: State, t: State, user: UserConfig, c: Course)
    requires Reconciled(s, t, user, c)
    ensures ProxyConfig(t) == Some(SavedText(user, s.name, c.pvcs, c.config))
  {
  }

  /* ---- what is up during a run ---- */

  /** A replica is up. */
  ghost predicate SomeUp(s: State) {
    exists p :: p in s.replicaSets && p in s.pods
  }

  /**
   * A run which adds replicas to existing ones and meets no fault: from its start to the end of the deletions, there is a
   * state in which no replica is up exactly when it found a single one.
   */
  lemma NoneUpExactlyWhen(a: Moment, b: Moment, user: UserConfig, c: Course, ph: Phases)
    requires Throughout(a, b, user, c, ph, true, true) && GoodPast(b.past) && Planned(a.state.replicaSets, c)
    requires a.state.replicaSets != {} && Missing(c.pvcs, a.state.replicaSets) != []
    ensures (exists i | ph.from <= i < ph.to :: !SomeUp(b.past.trace[i].state)) <==> |a.state.replicaSets| == 1
  {
    hide Missing, SavedText, ProxyConfig, Distinct;
    var before, trace := a.state.replicaSets, b.past.trace;
    NewPvcs(c.pvcs, before);
    var first := Missing(c.pvcs, before)[0];
    assert |before - {c.principal}| == |before| - 1;
    if |before| == 1 {
      assert before - {c.principal} == {};
      var i :| ph.from <= i < ph.to && trace[..ph.to][i].state.replicaSets == before - {c.principal};
      assert trace[..ph.to][i] == trace[i];
      assert !SomeUp(trace[i].state);
    } else {
      assert before - {c.principal} != {};
      var x :| x in before - {c.principal};
      forall i | ph.from <= i < ph.to ensures SomeUp(trace[i].state) {
        var s := trace[i].state;
        if i <= ph.published {
          assert x in s.replicaSets && x in s.pods;
        } else {
          assert first in ph.up * SetOf(c.pvcs) && x in ph.up;
          assert i <= ph.saved ==> x in s.replicaSets && x in s.pods;
          assert i > ph.saved ==> first in s.replicaSets && first in s.pods;
        }
      }
    }
  }

  /** The user's base configuration is a JSON object with members, and nothing in the generated part needs escaping. */
  ghost predicate Writable(user: UserConfig, directory: string, pvcs: seq<Pvc>, config: ServerConfig) {
    AllPlain(ReplicaNames(directory, pvcs), config) && exists base :: base != [] && Denotes(user.proxyJson, Obj(base))
  }

  /** The replicas which a configuration lists are among these. */
  ghost predicate ListsOnly(config: Option<string>, directory: string, pvcs: set<Pvc>) {
    config.Some? ==> forall p: Pvc | ListsServer(config.value, ReplicaName(directory, p)) :: p in pvcs
  }

  /** The saved configuration lists exactly the replicas of the document. */
  lemma SavedTextLists(user: UserConfig, directory: string, pvcs: seq<Pvc>, config: ServerConfig, p: Pvc)
    requires Writable(user, directory, pvcs, config)
    ensures ListsServer(SavedText(user, directory, pvcs, config), ReplicaName(directory, p)) <==> p in pvcs
  {
    hide AllPlain, Denotes, ReplicaName, ProxyText, ProxyMember, ListsServer;
    var base :| base != [] && Denotes(user.proxyJson, Obj(base));
    var names := ReplicaNames(directory, pvcs);
    SurgeryIsInsertion(user.proxyJson, base, names, config);
    ListsExactly(SavedText(user, directory, pvcs, config), base, names, config, ReplicaName(directory, p));
    if p in pvcs {
      var k :| 0 <= k < |pvcs| && pvcs[k] == p;
      assert names[k] == ReplicaName(directory, p);
    }
    if ReplicaName(directory, p) in names {
      var k :| 0 <= k < |names| && names[k] == ReplicaName(directory, p);
      NamesAreInjective(directory, pvcs[k], p);
    }
  }

  /**
   * In every state of a run, whatever its result, every replica which the proxy's configuration lists there is up, but the
   * principal before the proxy is deployed, if replicas are added: as long as no fault is met, and the configuration found
   * listed no replica which was not there. A successful run leaves such a configuration.
   */
  lemma ListedAreUp(a: Moment, b: Moment, user: UserConfig, c: Course, ph: Phases, ok: bool, i: nat, p: Pvc)
    requires Throughout(a, b, user, c, ph, true, ok) && GoodPast(b.past) && ph.from <= i < ph.to
    requires Writable(user, a.state.name, c.pvcs, c.config) && ListsOnly(ProxyConfig(a.state), a.state.name, a.state.replicaSets)
    requires var config := ProxyConfig(b.past.trace[i].state);
      config.Some? && ListsServer(config.value, ReplicaName(a.state.name, p))
    ensures Up(b.past.trace[i].state, {p})
            || (p == c.principal && i <= ph.published && Missing(c.pvcs, a.state.replicaSets) != [])
    ensures i >= ph.saved ==> p in c.pvcs
  {
    hide Missing, SavedText, ProxyConfig, Distinct, Writable, ListsServer, ReplicaName, Passed;
    SavedTextLists(user, a.state.name, c.pvcs, c.config, p);
    assert p in c.pvcs ==> p in SetOf(c.pvcs);
  }

  lemma SuccessListsOnly(s: State, t: State, user: UserConfig, c: Course)
    requires Reconciled(s, t, user, c) && Writable(user, s.name, c.pvcs, c.config)
    ensures ListsOnly(ProxyConfig(t), t.name, t.replicaSets)
  {
    hide Missing, SavedText, ProxyConfig, Distinct, Writable, ListsServer, ReplicaName, Grown, Sound, NoNewJobs, Still, ServiceMap,
         Redeployed;
    forall p: Pvc | ListsServer(ProxyConfig(t).value, ReplicaName(t.name, p)) ensures p in t.replicaSets {
      SavedTextLists(user, s.name, c.pvcs, c.config, p);
      assert p in SetOf(c.pvcs);
    }
  }

  lemma SameConfigLists(s: State, t: State)
    requires ListsOnly(ProxyConfig(s), s.name, s.replicaSets) && Unchanged(s, t)
    ensures ListsOnly(ProxyConfig(t), t.name, t.replicaSets)
  {
    hide ListsOnly, Still, Orphans, Sound, Exclusive;
  }

  lemma StepListsOnly(s: State, t: State, step: Step)
    requires StepEffect(s, t, step) && t.doc.available != False && ListsOnly(ProxyConfig(s), s.name, s.replicaSets)
    requires step.Ran? && step.result.Succeeded? ==> Writable(step.user, s.name, step.course.pvcs, step.course.config)
    ensures ListsOnly(ProxyConfig(t), t.name, t.replicaSets)
  {
    hide ListsOnly, Reconciled, Later, EnvEffect, Unchanged, Writable, OnlyMarked, OnlyStatus;
    if step == Elapsed {
      EnvIsLater(s, t);
      LaterIsUnchanged(s, t);
      SameConfigLists(s, t);
    } else if step.result == Idle {
      LaterIsUnchanged(s, t);
      SameConfigLists(s, t);
    } else if step.result == Abandoned {
      MarkedIsUnchanged(s, t);
      SameConfigLists(s, t);
    } else if step.result.Succeeded? {
      SuccessListsOnly(s, t, step.user, step.course);
    }
  }

  lemma MarkedIsUnchanged(s: State, t: State)
    requires OnlyMarked(s, t)
    ensures Unchanged(s, t)
  {
    var seen :| Later(s, seen) && t == seen.(doc := t.doc);
    LaterIsUnchanged(s, seen);
  }

  /** Over histories: unless the document is failing, the proxy's configuration lists only replicas which are there. */
  lemma {:induction false} HistoryListsOnly(states: seq<State>, steps: seq<Step>, i: nat)
    requires Unfolds(states, steps) && i < |states| && states[i].doc.available != False
    requires ListsOnly(ProxyConfig(states[0]), states[0].name, states[0].replicaSets)
    requires forall k | 0 <= k < |steps| && steps[k].Ran? && steps[k].result.Succeeded? ::
      Writable(steps[k].user, states[k].name, steps[k].course.pvcs, steps[k].course.config)
    ensures ListsOnly(ProxyConfig(states[i]), states[i].name, states[i].replicaSets)
  {
    hide StepEffect, ListsOnly, ProxyConfig, Writable;
    if i > 0 {
      if states[i - 1].doc.available == False {
        StepHappens(states[i - 1], states[i], steps[i - 1]);
        FailingStep(states[i - 1], states[i], steps[i - 1]);
      }
      HistoryListsOnly(states, steps, i - 1);
      StepListsOnly(states[i - 1], states[i], steps[i - 1]);
    }
  }
}
