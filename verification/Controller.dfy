/** The reconcile loop: what one run makes of the cluster and of the document. */
module Controller {
  import opened Names
  import opened Documents
  import opened States
  import opened Clusters
  import opened Replicas
  import opened Agreements
  import opened SeedJobs
  import opened Serve
  import opened Create
  import opened Delete
  import opened Yamls
  import opened Configs
  import opened ProxyDeployment

  /** The replica pods, by PVC, with the name of each one's container. */
  method GetExistingPods(api: Cluster) returns (ok: bool, pods: map<Pvc, string>)
    requires api.Valid()
    modifies api`state, api`trace
    ensures api.Valid() && Onward(old(api.SoFar()), api.SoFar()) && Later(old(api.state), api.state)
    ensures ok ==> pods.Keys == api.state.pods.Keys && NamesFor(api.directory, pods)
    ensures !ok ==> Erring(old(api.SoFar()), api.SoFar(), NoListing)
  {
    hide Cluster.Valid, Onward, Later, Erring;
    var items;
    ok, items := api.ListPods();
    pods := map[];
    if ok {
      for i := 0 to |items|
        invariant forall p :: p in pods <==> exists j | 0 <= j < i :: items[j].pvcLabel == p
        invariant NamesFor(api.directory, pods)
      {
        assert items[i] in items;
        pods := pods[items[i].pvcLabel := items[i].containerName];
      }
      forall p ensures p in pods <==> p in api.state.pods.Keys {
        assert p in (set i | i in items :: i.pvcLabel) <==> exists j | 0 <= j < |items| :: items[j].pvcLabel == p;
      }
    }
  }

  /** The listed PVCs which have no replica, in the order of the document. */
  function Missing(pvcs: seq<Pvc>, existing: set<Pvc>): (r: seq<Pvc>)
    ensures forall p :: p in r <==> p in pvcs && p !in existing
    ensures Distinct(pvcs) ==> Distinct(r)
  {
    if pvcs == [] then []
    else
      var k := |pvcs| - 1;
      var rest := Missing(pvcs[..k], existing);
      assert pvcs == pvcs[..k] + [pvcs[k]];
      assert Distinct(pvcs) ==> pvcs[k] !in pvcs[..k];
      if pvcs[k] in existing then rest else rest + [pvcs[k]]
  }

  /** a stands before b in items. */
  predicate Before<T(==)>(items: seq<T>, a: T, b: T) {
    exists i, j | 0 <= i < j < |items| :: items[i] == a && items[j] == b
  }

  lemma {:induction false} MissingInOrder(pvcs: seq<Pvc>, existing: set<Pvc>, i: nat, j: nat)
    requires i < j < |Missing(pvcs, existing)|
    ensures Before(pvcs, Missing(pvcs, existing)[i], Missing(pvcs, existing)[j])
    decreases |pvcs|
  {
    var k := |pvcs| - 1;
    var rest := Missing(pvcs[..k], existing);
    if j < |rest| {
      MissingInOrder(pvcs[..k], existing, i, j);
      var a, b :| 0 <= a < b < k && pvcs[..k][a] == rest[i] && pvcs[..k][b] == rest[j];
      assert pvcs[a] == rest[i] && pvcs[b] == rest[j];
    } else {
      assert rest[i] in rest && rest[i] in pvcs[..k];
      var a :| 0 <= a < k && pvcs[a] == rest[i];
      assert pvcs[k] == Missing(pvcs, existing)[j];
    }
  }

  /** The keys of existing which are not listed, in any order. */
  method NotListed(listed: seq<Pvc>, existing: map<Pvc, string>) returns (toBeDeleted: seq<Pvc>)
    ensures Distinct(toBeDeleted) && SetOf(toBeDeleted) == existing.Keys - SetOf(listed)
  {
    toBeDeleted := [];
    var pvcs: set<Pvc> := {};
    for i := 0 to |listed|
      invariant forall p :: p in pvcs <==> p in listed[..i]
    {
      pvcs := pvcs + {listed[i]};
    }
    assert pvcs == SetOf(listed);
    var rest := existing.Keys;
    while rest != {}
      invariant rest <= existing.Keys && Distinct(toBeDeleted)
      invariant forall p :: p in toBeDeleted <==> p in existing && p !in rest && p !in pvcs
    {
      var key :| key in rest;
      rest := rest - {key};
      if key !in pvcs {
        toBeDeleted := toBeDeleted + [key];
      }
    }
  }

  lemma OneMoreMissing(listed: seq<Pvc>, i: nat, existing: set<Pvc>)
    requires i < |listed|
    ensures Missing(listed[..i + 1], existing)
            == Missing(listed[..i], existing) + if listed[i] in existing then [] else [listed[i]]
  {
    assert listed[..i + 1][..i] == listed[..i];
  }

  /** Which replicas have to go, in any order, and which have to come, in the order of the document. */
  method AnalyseExistingPods(h: RequestHandle, existing: map<Pvc, string>) returns (toBeDeleted: seq<Pvc>, toBeAdded: seq<Pvc>)
    ensures Distinct(toBeDeleted) && SetOf(toBeDeleted) == existing.Keys - SetOf(h.directory.pvcs)
    ensures toBeAdded == Missing(h.directory.pvcs, existing.Keys)
  {
    var listed := h.directory.pvcs;
    toBeDeleted := NotListed(listed, existing);
    toBeAdded := [];
    for i := 0 to |listed|
      invariant toBeAdded == Missing(listed[..i], existing.Keys)
    {
      OneMoreMissing(listed, i, existing.Keys);
      if listed[i] !in existing {
        toBeAdded := toBeAdded + [listed[i]];
      }
    }
    assert listed[..|listed|] == listed;
  }

  /** The document once the outcome has been recorded in its conditions. */
  function Recorded(d: Document, failed: bool): Document {
    d.(inProgress := False, available := if failed then False else True, version := d.version + 1)
  }

  /**
   * Records the outcome in the conditions, if the status can be written; recorded says whether it has been, which the
   * operator does not learn when the request fails. seen is the state just before.
   */
  method SetCondition(api: Cluster, h: RequestHandle, failed: bool) returns (recorded: bool, ghost seen: State)
    requires api.Valid() && api.watch.pinned == None
    modifies api`state, api`trace, h`directory
    ensures api.Valid() && Onward(old(api.SoFar()), api.SoFar()) && Later(old(api.state), seen)
    ensures api.state == if recorded then seen.(doc := Recorded(seen.doc, failed)) else seen
    ensures recorded ==> seen.doc.version == old(h.directory.version)
    ensures !recorded ==> Erring(old(api.SoFar()), api.SoFar(), NoStatus)
  {
    hide Cluster.Valid, Onward, Later, Erring;
    h.directory := h.directory.(inProgress := False, available := if failed then False else True);
    var ok, version;
    ok, recorded, version, seen := api.UpdateStatus(h.directory);
    if ok {
      h.directory := h.directory.(version := version);
    }
  }

  /* ---- what one run does ---- */

  /**
   * What a run has gone by: the document's list, the configuration, the principal, the replicas to be deleted in order, and
   * the state in which it has listed the pods.
   */
  datatype Course = Course(pvcs: seq<Pvc>, config: ServerConfig, principal: Pvc, obsolete: seq<Pvc>, listed: State)

  /**
   * The volumes of added have been seeded last from the principal, and only so since, and no other one has. The agreements
   * between different replicas: those with the seeded ones have been added, from every replica of all, and the volumes which
   * were not seeded have kept the others - also those with replicas which have been deleted. Nothing is said of volumes
   * which were already being seeded.
   */
  ghost predicate Grown(s: State, t: State, principal: Pvc, all: set<Pvc>, added: set<Pvc>) {
    && (forall p: Pvc, q: Pvc | p !in added && p != q && !Seeding(s, p) ::
      Edge(t, p, q) <==> Edge(s, p, q) || (p in all && q in added))
    && (forall p: Pvc, q: Pvc | p in added && q in added && p != q :: Edge(t, p, q))
    && (forall p | p in added :: SeededLast(s, t, principal, p) && !Seeding(t, p))
    && (forall p: Pvc | p !in added && !Seeding(s, p) :: VolumeOf(t, p).seeds == VolumeOf(s, p).seeds)
  }

  lemma JoinedIsGrown(s: State, t: State, u: State, v: State, principal: Pvc, all: set<Pvc>, added: set<Pvc>)
    requires Joined(s, t, principal, all, added) && NoNewJobs(s, t) && Still(t, u) && t.name == u.name
    requires EdgesKept(u, v) && NoNewJobs(u, v)
    ensures Grown(s, v, principal, all, added)
  {
    hide VolumeOf;
    forall p: Pvc | !Seeding(s, p) || p in added
      ensures !Seeding(t, p) && !Seeding(u, p) && !Seeding(v, p) && VolumeOf(v, p).seeds == VolumeOf(t, p).seeds
    {
      assert !Seeding(t, p);
      assert !Seeding(u, p);
    }
    forall p: Pvc, q: Pvc | (!Seeding(s, p) || p in added) && p != q ensures Edge(v, p, q) == Edge(t, p, q) {
      assert !Seeding(u, p);
    }
  }

  /** What a run which met no fault makes of s. */
  ghost predicate Reconciled(s: State, t: State, user: UserConfig, c: Course) {
    var before, added := s.replicaSets, Missing(c.pvcs, s.replicaSets);
    var text := SavedText(user, s.name, c.pvcs, c.config);
    && t.name == s.name && t.replicaSets == SetOf(c.pvcs) && Sound(t) && NoNewJobs(s, t)
    && t.services == s.services + ServiceMap(Renewed(added, c.principal), c.config.port) - (before - SetOf(c.pvcs))
    && t.strays == s.strays
    && Grown(s, t, c.principal, before + SetOf(c.pvcs), ToBeSeeded(before, added))
    && (added != [] ==> IsPrincipal(c.principal, before, added))
    && t.configMaps - {SeedConfigMapName(s.name), ProxyName(s.name)} == s.configMaps - {SeedConfigMapName(s.name), ProxyName(s.name)}
    && ProxyConfig(t) == Some(text)
    && (SetOf(c.pvcs) == before ==> Still(s, t) && t.configMaps == s.configMaps[ProxyName(s.name) := text])
    && t.proxy == Redeployed(s.proxy, ProxyPort(user), ProxyConfig(s) != Some(text))
    && (s.proxy.deployment.None? ==> s.proxy.service.None?)
    && ServerConfigOf(user.server, user.secrets) == Some(c.config)
  }

  lemma MissingSet(pvcs: seq<Pvc>, before: set<Pvc>, toBeDeleted: seq<Pvc>)
    requires SetOf(toBeDeleted) == before - SetOf(pvcs)
    ensures SetOf(Missing(pvcs, before)) == SetOf(pvcs) - before && SetOf(Missing(pvcs, before)) !! before
    ensures before + SetOf(Missing(pvcs, before)) - SetOf(toBeDeleted) == SetOf(pvcs)
    ensures before + SetOf(Missing(pvcs, before)) == before + SetOf(pvcs)
    ensures SetOf(toBeDeleted) <= before + SetOf(Missing(pvcs, before))
    ensures SetOf(toBeDeleted) !! SetOf(pvcs)
    ensures SetOf(pvcs) == before <==> Missing(pvcs, before) == [] && toBeDeleted == []
  {
    assert forall p | p in SetOf(pvcs) - before :: p in Missing(pvcs, before);
    if Missing(pvcs, before) != [] {
      assert Missing(pvcs, before)[0] in SetOf(pvcs) - before;
    }
    if toBeDeleted != [] {
      assert toBeDeleted[0] in SetOf(toBeDeleted);
    }
  }

  lemma MapsChanged(a: map<string, string>, b: map<string, string>, k: string, l: string, text: string)
    requires b - {k} == a - {k} && k != l
    ensures b[l := text] - {k, l} == a - {k, l}
    ensures (l in b <==> l in a) && (l in a ==> b[l] == a[l])
  {
    assert b[l := text] - {k, l} == (b - {k}) - {l} && a - {k, l} == (a - {k}) - {l};
    assert l in b <==> l in b - {k};
    assert l in a <==> l in a - {k};
    assert l in a ==> a[l] == (a - {k})[l] && b[l] == (b - {k})[l];
  }

  lemma NoSeedings(s: State, t: State, u: State, v: State)
    requires NoNewJobs(s, t) && Aside(t, u) && NoNewJobs(u, v)
    ensures NoNewJobs(s, v)
  {
  }

  /** From s to t the replicas were created, to u the proxy deployed, and to v the other replicas deleted. */
  lemma IsReconciled(s: State, t: State, u: State, v: State, user: UserConfig, c: Course)
    requires var before, added := s.replicaSets, Missing(c.pvcs, s.replicaSets);
      && SetOf(c.obsolete) == before - SetOf(c.pvcs)
      && Created(s, t, c.principal, before, added, c.config.port)
      && (added == [] ==> s == t)
      && (added != [] ==> IsPrincipal(c.principal, before, added))
      && ProxyDeployed(t, u, SavedText(user, s.name, c.pvcs, c.config), ProxyPort(user))
      && Deleted(u, v, SetOf(c.obsolete), true) && (c.obsolete == [] ==> v == u)
    requires Sound(s) && StaysSound(u, v) && ServerConfigOf(user.server, user.secrets) == Some(c.config)
    ensures Reconciled(s, v, user, c)
  {
    hide Joined, Grown, Still, NoNewJobs, EdgesKept, ReplicaName, SavedText, ToBeSeeded, SetOf, ServiceMap, Sound, Orphans,
         Redeployed,
         SeedConfigMapName, ProxyName, Missing, Renewed, ProxyPort;
    var before, added := s.replicaSets, Missing(c.pvcs, s.replicaSets);
    var text := SavedText(user, s.name, c.pvcs, c.config);
    MissingSet(c.pvcs, before, c.obsolete);
    StillIsNoNewJobs(t, u);
    JoinedIsGrown(s, t, u, v, c.principal, before + SetOf(c.pvcs), ToBeSeeded(before, added));
    NoSeedings(s, t, u, v);
    ConfigMapNamesDiffer(s.name);
    MapsChanged(s.configMaps, t.configMaps, SeedConfigMapName(s.name), ProxyName(s.name), text);
  }


  /* ---- new replicas ---- */

  /** The windows of the creation of replicas: what was watched, and, when a principal was chosen, what is watched then. */
  ghost predicate Moved(ws: seq<Window>, was: Window, now: Window, before: seq<Window>, after: seq<Window>, principal: Pvc) {
    || (now.watch == was.watch && after == before && ws == [now])
    || (was.to > 0 && now.watch == was.watch.(from := was.to - 1, keep := was.watch.keep - {principal})
        && after == before + [was] && ws == [was, now])
  }

  /** The user's configuration of the server can be used. */
  predicate ServerUsable(user: UserConfig) {
    StringKeys(user.server) && ServerConfigOf(user.server, user.secrets).Some?
  }

  /** Nothing in it makes the source panic. */
  predicate ServerKeyed(user: UserConfig) {
    StringKeys(user.server) && !Misfit(user.server)
  }

  /** The server's configuration, from the user's ConfigMap. */
  method FetchConfig(api: Cluster, h: RequestHandle, user: UserConfig) returns (r: Outcome)
    requires api.Valid() && Parsed(user.server)
    modifies api`trace, h`config
    ensures api.Valid() && Onward(old(api.SoFar()), api.SoFar())
    ensures Explained(old(api.SoFar()), api.SoFar(), r, ServerUsable(user), ServerKeyed(user), Silent)
    ensures r.Ok? ==> api.trace == old(api.trace) && ServerUsable(user) && ServerConfigOf(user.server, user.secrets) == Some(h.config)
  {
    hide Cluster.Valid, Onward, Told, Misfit, ServerConfigOf;
    var fetched := api.Fetch();
    if !fetched {
      return Err;
    }
    r := GetServerConfig(h, user.server, user.secrets);
  }

  /** The server's configuration, and the new replicas. */
  method Grow(api: Cluster, h: RequestHandle, user: UserConfig, existing0: map<Pvc, string>,
              toBeDeleted: seq<Pvc>, toBeAdded: seq<Pvc>)
    returns (r: Outcome, existing: map<Pvc, string>, ghost principal: Pvc, ghost ws: seq<Window>)
    requires api.Valid() && Parsed(user.server) && Distinct(toBeAdded) && existing0.Keys !! SetOf(toBeAdded)
    requires api.watch.keep <= existing0.Keys
    modifies api`state, api`trace, api`requests, api`commands, api`faults, api`breaches, api`watch, api`windows, h`config
    ensures api.Valid()
    ensures Explained(old(api.SoFar()), api.SoFar(), r, ServerUsable(user), ServerKeyed(user), MayBoth)
    ensures Grew(old(api.Now()), api.Now(), existing0.Keys, toBeAdded, principal, h.config, r.Ok?)
    ensures r.Ok? ==> ServerConfigOf(user.server, user.secrets) == Some(h.config)
    ensures r.Ok? ==> existing.Keys == existing0.Keys + SetOf(toBeAdded)
    ensures Moved(ws, old(api.Current()), api.Current(), old(api.windows), api.windows, principal)
    ensures toBeAdded == [] || existing0.Keys == {} ==> api.watch == old(api.watch)
  {
    hide Cluster.Valid, Onward, Grew, SafeStart, Listed, Unused, MountRequests, Orphans, Faithful, Created, Sound, Passed, SetOf,
         Distinct, Commanded, Told, GrewInTurn, Tidied, Misfit, ServerConfigOf, Explained;
    existing, principal := existing0, "p";
    ghost var a := api.Now();
    r := FetchConfig(api, h, user);
    ws := [api.Current()];
    if r != Ok {
      NotGrown(a, api.Now(), existing0.Keys, toBeAdded, principal, h.config);
      ExplainedWider(a.past, api.SoFar(), r, ServerUsable(user), ServerKeyed(user), MayBoth);
      return;
    }
    if |toBeDeleted| != 0 || |toBeAdded| != 0 {
      api.NameIsDirectory();
      r, existing, principal := CreateReplicas(api, h, existing, toBeAdded);
      ws := if toBeAdded != [] && existing0.Keys != {} then ws + [api.Current()] else [api.Current()];
      ExplainedTold(a.past, api.SoFar(), r, ServerKeyed(user), MayBoth);
    } else {
      NothingGrew(a, existing0.Keys, principal, h.config, true);
      NothingMounted(principal, existing0.Keys);
      OnwardReflexive(a.past);
      ExplainedTold(a.past, a.past, Ok, ServerKeyed(user), MayBoth);
    }
  }

  lemma ExplainedTold(a: Past, b: Past, r: Outcome, keyed: bool, x: Scope)
    requires Told(a, b, r, x)
    ensures Explained(a, b, r, true, keyed, x)
  {
  }

  lemma ExplainedWider(a: Past, b: Past, r: Outcome, usable: bool, keyed: bool, x: Scope)
    requires Explained(a, b, r, usable, keyed, Silent)
    ensures Explained(a, b, r, usable, keyed, x)
    ensures r.Ok? ==> usable
  {
    if Told(a, b, r, Silent) {
      ToldWider(a, b, r, x);
    } else {
      ToldWider(a, b, Ok, x);
    }
    hide Told;
  }

  /* ---- the proxy, and the replicas which go ---- */

  /** What is claimed of publishing: a is before, b is after, published is when the proxy had been deployed. */
  ghost predicate Published(a: Moment, published: State, b: Moment, user: UserConfig, c: Course, ok: bool) {
    && Onward(a.past, b.past) && b.past.breaches == a.past.breaches && b.past.faults.refused == a.past.faults.refused
    && b.requests.clashes == a.requests.clashes && b.commands.issued == a.commands.issued
    && (ok ==>
      && ProxyDeployed(a.state, published, SavedText(user, a.state.name, c.pvcs, c.config), ProxyPort(user))
      && Deleted(published, b.state, SetOf(c.obsolete), false) && (CalmPast(b.past) ==> StaysSound(published, b.state))
      && b.requests.mounts == a.requests.mounts + DeleteRequests(c.obsolete)
      && (b.past.faults == a.past.faults && SetOf(c.obsolete) <= a.state.replicaSets ==>
          Deleted(published, b.state, SetOf(c.obsolete), true))
      && (c.obsolete == [] ==> b.state == published && b.requests == a.requests))
  }

  lemma WereDeleted(a: Moment, b: Moment, items: seq<Pvc>, n: nat, own: bool)
    requires Deleting(a, b, SetOf(items), SetOf(items), n, own, DeleteRequests(items))
    ensures b.requests.mounts == a.requests.mounts + DeleteRequests(items)
    ensures Deleted(a.state, b.state, SetOf(items), false) && (CalmPast(b.past) ==> StaysSound(a.state, b.state))
    ensures b.past.faults == a.past.faults && SetOf(items) <= a.state.replicaSets ==> Deleted(a.state, b.state, SetOf(items), true)
  {
  }

  /** m is when the proxy has been deployed, or its deployment has failed. */
  lemma IsPublished(a: Moment, m: Moment, b: Moment, user: UserConfig, c: Course, n: nat, own: bool, ok: bool)
    requires Held(m, b) && b.past.breaches == m.past.breaches
    requires exists done :: Deployment(a, m, user, c.pvcs, c.config, done) && (ok ==> done)
    requires ok ==>
      && Deleting(m, b, SetOf(c.obsolete), SetOf(c.obsolete), n, own, DeleteRequests(c.obsolete))
      && (c.obsolete == [] ==> b.state == m.state && b.requests == m.requests)
    ensures Published(a, m.state, b, user, c, ok)
  {
    hide ProxyDeployed, Deleting, DeleteRequests, SetOf, SavedText, ProxyPort, Deleted, StaysSound, Onward;
    OnwardTransitive(a.past, m.past, b.past);
    if ok {
      WereDeleted(m, b, c.obsolete, n, own);
    }
  }

  lemma AsideSets(s: State, t: State)
    requires Aside(s, t)
    ensures t.replicaSets == s.replicaSets && t.name == s.name
  {
  }

  lemma NoneListed()
    ensures SetOf<Pvc>([]) == {}
  {
  }

  /** What is watched while the configuration is saved. */
  ghost function Saving(from: nat, up: set<Pvc>, doc: Document, config: Option<string>, text: string): Watch {
    Watch(from, up, Some(doc), Some({config, Some(text)}))
  }

  /** The windows of publishing: what was watched, what is watched while the configuration is saved, and, once it is, from then on. */
  ghost predicate Switched(was: Window, now: Window, before: seq<Window>, after: seq<Window>, doc: Document, config: Option<string>,
                           text: string, up: set<Pvc>, saved: bool) {
    && 0 < was.to <= now.watch.from + 1
    && var saving := Saving(was.to - 1, up, doc, config, text);
      if saved
      then && now.watch == Watch(now.watch.from, up * SetOf(doc.pvcs), Some(doc), Some({Some(text)}))
           && after == before + [was] + [Window(saving, now.watch.from + 1)]
      else now.watch == saving && after == before + [was]
  }

  lemma IsSwitched(was: Window, saving: Watch, now: Window, before: seq<Window>, windows: seq<Window>, after: seq<Window>,
                   doc: Document, config: Option<string>, text: string, up: set<Pvc>, saved: bool)
    requires 0 < was.to && saving == Watch(was.to - 1, up, Some(doc), Some({config, Some(text)})) && windows == before + [was]
    requires if saved
             then && now.watch == Watch(now.watch.from, saving.keep * SetOf(doc.pvcs), saving.pinned, Some({Some(text)}))
                  && saving.from <= now.watch.from && after == windows + [Window(saving, now.watch.from + 1)]
             else now.watch == saving && after == windows
    ensures forall to :: Switched(was, now.(to := to), before, after, doc, config, text, up, saved)
  {
    hide SetOf;
  }

  lemma AreUp(s: State, existing: set<Pvc>)
    ensures Up(s, existing * s.replicaSets * s.pods.Keys)
  {
  }

  /** What deploying the proxy leaves alone, and, when it succeeds, what it has done. */
  ghost predicate Deployment(a: Moment, m: Moment, user: UserConfig, pvcs: seq<Pvc>, config: ServerConfig, ok: bool) {
    && Onward(a.past, m.past) && m.past == a.past.(trace := m.past.trace)
    && m.requests == a.requests && m.commands == a.commands && m.state.replicaSets == a.state.replicaSets
    && (ok ==> ProxyDeployed(a.state, m.state, SavedText(user, a.state.name, pvcs, config), ProxyPort(user)))
  }

  /** Deploys the proxy, watching everything which is up, and both configurations, until the new one is saved. */
  method DeployWatched(api: Cluster, h: RequestHandle, user: UserConfig, existing: map<Pvc, string>)
    returns (r: Outcome, ghost saved: bool, ghost up: set<Pvc>)
    requires api.Valid() && Parsed(user.proxy) && api.watch.pinned == Some(h.directory)
    modifies api`state, api`trace, api`watch, api`windows
    ensures api.Valid() && Deployment(old(api.Now()), api.Now(), user, h.directory.pvcs, h.config, r.Ok?)
    ensures Explained(old(api.SoFar()), api.SoFar(), r, ProxyUsable(user), StringKeys(user.proxy), Silent)
    ensures saved ==> api.watch.from < |api.trace| && api.trace[api.watch.from].state.proxy == old(api.state.proxy)
    ensures r.Ok? ==> saved
    ensures up == existing.Keys * old(api.state.replicaSets) * old(api.state.pods).Keys
    ensures 0 < old(|api.trace|) && old(|api.trace|) - 1 <= api.watch.from && api.watch.pinned == Some(h.directory)
    ensures api.watch.keep <= up && (saved ==> api.watch.keep == up * SetOf(h.directory.pvcs))
    ensures Switched(old(api.Current()), api.Current(), old(api.windows), api.windows, h.directory, ProxyConfig(old(api.state)),
                     SavedText(user, api.directory, h.directory.pvcs, h.config), up, saved)
  {
    hide Cluster.Valid, Onward, Aside, ProxyDeployed, SetOf, Up, ProxyConfig, SavedText, ProxyPort, Switched, Told, ProxyUsable,
         Explained;
    ghost var s, text := api.state, SavedText(user, api.directory, h.directory.pvcs, h.config);
    api.NameIsDirectory();
    api.LastState();
    up := existing.Keys * s.replicaSets * s.pods.Keys;
    AreUp(s, existing.Keys);
    ghost var was, before := api.Current(), api.windows;
    api.Widen(up, {ProxyConfig(s), Some(text)});
    ghost var saving, windows := api.watch, api.windows;
    r, saved := DeployProxy(api, h, user);
    IsSwitched(was, saving, api.Current(), before, windows, api.windows, h.directory, ProxyConfig(s), text, up, saved);
    AsideSets(s, api.state);
  }

  /** The proxy, and then the replicas which are not listed any more. */
  method Publish(api: Cluster, h: RequestHandle, user: UserConfig, existing: map<Pvc, string>, toBeDeleted: seq<Pvc>,
                 ghost principal: Pvc, ghost listed: State)
    returns (r: Outcome, ghost published: State, ghost saved: bool, ghost up: set<Pvc>)
    requires api.Valid() && Parsed(user.proxy) && Distinct(toBeDeleted) && SetOf(toBeDeleted) !! SetOf(h.directory.pvcs)
    requires api.watch.pinned == Some(h.directory)
    modifies api`state, api`trace, api`requests, api`commands, api`faults, api`watch, api`windows
    ensures api.Valid()
    ensures Explained(old(api.SoFar()), api.SoFar(), r, ProxyUsable(user), StringKeys(user.proxy), Silent)
    ensures saved ==> api.watch.from < |api.trace| && api.trace[api.watch.from].state.proxy == old(api.state.proxy)
    ensures r.Ok? ==> saved
    ensures Published(old(api.Now()), published, api.Now(), user,
                      Course(h.directory.pvcs, h.config, principal, toBeDeleted, listed), r.Ok?)
    ensures up == existing.Keys * old(api.state.replicaSets) * old(api.state.pods).Keys
    ensures 0 < old(|api.trace|) && old(|api.trace|) - 1 <= api.watch.from && api.watch.pinned == Some(h.directory)
    ensures Switched(old(api.Current()), api.Current(), old(api.windows), api.windows, h.directory, ProxyConfig(old(api.state)),
                     SavedText(user, api.directory, h.directory.pvcs, h.config), up, saved)
  {
    hide Cluster.Valid, Onward, ProxyDeployed, SetOf, Distinct, ProxyConfig, SavedText, ProxyPort, Switched, Told, ProxyUsable,
         Published, Deleting, Held, Explained, Deployment, DeleteRequests;
    ghost var a, c := api.Now(), Course(h.directory.pvcs, h.config, principal, toBeDeleted, listed);
    ghost var was, before, config := api.Current(), api.windows, ProxyConfig(api.state);
    r, saved, up := DeployWatched(api, h, user, existing);
    ghost var m, own, n := api.Now(), false, |existing.Keys - SetOf(toBeDeleted)|;
    published := api.state;
    HeldReflexive(m);
    if r != Ok {
      IsPublished(a, m, m, user, c, n, own, false);
      return;
    }
    NotWatched(api.watch.keep, up, toBeDeleted, h.directory.pvcs);
    ghost var now, text := api.Current(), SavedText(user, api.directory, h.directory.pvcs, h.config);
    r, own := DeleteReplicas(api, existing, toBeDeleted);
    SwitchedLater(was, now, before, api.windows, h.directory, config, text, up, saved, |api.trace|);
    HeldOnward(m, api.Now());
    DeploymentOnward(a, m, user, h.directory.pvcs, h.config, true);
    ExplainedThen(a.past, m.past, api.SoFar(), r, ProxyUsable(user), StringKeys(user.proxy));
    IsPublished(a, m, api.Now(), user, c, n, own, r.Ok?);
  }

  lemma SwitchedLater(was: Window, now: Window, before: seq<Window>, after: seq<Window>, doc: Document, config: Option<string>,
                      text: string, up: set<Pvc>, saved: bool, to: nat)
    requires Switched(was, now, before, after, doc, config, text, up, saved)
    ensures Switched(was, now.(to := to), before, after, doc, config, text, up, saved)
  {
    hide SetOf, Saving;
  }

  lemma NotWatched(keep: set<Pvc>, up: set<Pvc>, toBeDeleted: seq<Pvc>, pvcs: seq<Pvc>)
    requires keep == up * SetOf(pvcs) && SetOf(toBeDeleted) !! SetOf(pvcs)
    ensures SetOf(toBeDeleted) !! keep && SetOf<Pvc>([]) == {}
  {
  }

  lemma DeploymentOnward(a: Moment, m: Moment, user: UserConfig, pvcs: seq<Pvc>, config: ServerConfig, ok: bool)
    requires Deployment(a, m, user, pvcs, config, ok)
    ensures Onward(a.past, m.past)
  {
  }

  lemma HeldOnward(a: Moment, b: Moment)
    requires Held(a, b)
    ensures Onward(a.past, b.past) && a.past.trace <= b.past.trace
  {
  }

  lemma ExplainedThen(a: Past, b: Past, c: Past, r: Outcome, usable: bool, keyed: bool)
    requires Onward(a, b) && Onward(b, c) && Explained(a, b, Ok, usable, keyed, Silent) && Told(b, c, r, Silent)
    ensures Explained(a, c, r, usable, keyed, Silent)
  {
    hide Told, Onward;
    OnwardTransitive(a, b, c);
  }

  /* ---- what the windows say ---- */

  /** The windows follow each other without a gap, for this document, this configuration and at least these replicas. */
  ghost predicate Tiles(ws: seq<Window>, from: nat, to: nat, doc: Document, config: Option<string>, keep: set<Pvc>) {
    && ws != [] && ws[0].watch.from <= from && to <= ws[|ws| - 1].to
    && (forall j | 0 <= j < |ws| - 1 :: ws[j + 1].watch.from <= ws[j].to)
    && (forall j | 0 <= j < |ws| ::
      ws[j].watch.pinned == Some(doc) && ws[j].watch.configs == Some({config}) && keep <= ws[j].watch.keep)
  }

  lemma {:induction false} TilesHold(trace: seq<Event>, ws: seq<Window>, from: nat, to: nat, doc: Document, config: Option<string>,
                                     keep: set<Pvc>)
    requires Tiles(ws, from, to, doc, config, keep) && forall w | w in ws :: Covers(trace, w)
    ensures to <= |trace|
    ensures forall i | from <= i < to ::
      trace[i].state.doc == doc && Up(trace[i].state, keep) && ProxyConfig(trace[i].state) == config
    decreases |ws|
  {
    hide ProxyConfig;
    var last := ws[|ws| - 1];
    assert last in ws;
    if |ws| > 1 {
      var front := ws[..|ws| - 1];
      TilesHold(trace, front, from, front[|front| - 1].to, doc, config, keep);
    }
  }

  /** The replicas which a run may not take down before it deploys the proxy. */
  function Spared(existing: set<Pvc>, toBeAdded: seq<Pvc>, principal: Pvc): set<Pvc> {
    existing - if toBeAdded == [] then {} else {principal}
  }

  lemma MovedTiles(ws: seq<Window>, was: Window, now: Window, before: seq<Window>, after: seq<Window>, principal: Pvc,
                   toBeAdded: seq<Pvc>, doc: Document, config: Option<string>)
    requires Moved(ws, was, now, before, after, principal) && (toBeAdded == [] ==> now.watch == was.watch)
    requires was.watch.pinned == Some(doc) && was.watch.configs == Some({config})
    ensures Tiles(ws, was.watch.from, now.to, doc, config, Spared(was.watch.keep, toBeAdded, principal))
    ensures forall w | w in ws :: w == now || w in after
    ensures now.watch.pinned == was.watch.pinned && now.watch.configs == was.watch.configs
  {
  }

  /** The states of a run: from is the first, published when the proxy is going to be deployed, saved when its configuration
      has been saved; spared and up are the replicas which are up until and from published. */
  datatype Phases = Phases(doc: Document, from: nat, published: nat, saved: nat, to: nat, spared: set<Pvc>, up: set<Pvc>)

  /**
   * In every state of the run the document is the one which was read. Until published, the spared replicas are up, and the
   * proxy's configuration is the one from before; until saved, all replicas which were there and have come are up, and it
   * is that one or the new one; from then on it is the new one, and of these replicas those of the document are up.
   */
  ghost predicate Steady(trace: seq<Event>, ph: Phases, config: Option<string>, text: string) {
    && ph.to <= |trace|
    && (forall i | ph.from <= i < ph.to :: trace[i].state.doc == ph.doc)
    && (forall i | ph.from <= i < ph.to && i <= ph.published ::
      Up(trace[i].state, ph.spared) && ProxyConfig(trace[i].state) == config)
    && (forall i | ph.published <= i < ph.to && i <= ph.saved ::
      Up(trace[i].state, ph.up) && ProxyConfig(trace[i].state) in {config, Some(text)})
    && (forall i | ph.saved <= i < ph.to ::
      Up(trace[i].state, ph.up * SetOf(ph.doc.pvcs)) && ProxyConfig(trace[i].state) == Some(text))
  }

  lemma SteadyMore(trace: seq<Event>, more: seq<Event>, ph: Phases, config: Option<string>, text: string)
    requires Steady(trace, ph, config, text) && trace <= more
    ensures Steady(more, ph, config, text)
  {
    hide Up, ProxyConfig, SetOf;
    forall i | 0 <= i < ph.to ensures more[i] == trace[i] {
    }
  }

  /** Before the proxy is deployed: ws are the windows of the run. */
  lemma SteadyBefore(trace: seq<Event>, ws: seq<Window>, ph: Phases, config: Option<string>, text: string)
    requires Tiles(ws, ph.from, |trace|, ph.doc, config, ph.spared) && forall w | w in ws :: Covers(trace, w)
    requires ph.published == ph.saved == ph.to == |trace|
    ensures Steady(trace, ph, config, text)
  {
    hide Up, ProxyConfig;
    TilesHold(trace, ws, ph.from, |trace|, ph.doc, config, ph.spared);
  }

  /** While its configuration is saved: w is the current window. */
  lemma SteadyWhile(trace: seq<Event>, ws: seq<Window>, w: Window, ph: Phases, config: Option<string>, text: string)
    requires Tiles(ws, ph.from, ph.published + 1, ph.doc, config, ph.spared) && forall w | w in ws :: Covers(trace, w)
    requires Covers(trace, w) && w == Window(Saving(ph.published, ph.up, ph.doc, config, text), |trace|)
    requires ph.saved == ph.to == |trace|
    ensures Steady(trace, ph, config, text)
  {
    TilesHold(trace, ws, ph.from, ph.published + 1, ph.doc, config, ph.spared);
    hide Up, ProxyConfig, Covers, Tiles;
    WindowHolds(trace, w);
  }

  lemma WindowHolds(trace: seq<Event>, w: Window)
    requires Covers(trace, w) && w.watch.pinned.Some? && w.watch.configs.Some?
    ensures w.to <= |trace|
    ensures forall i | w.watch.from <= i < w.to ::
      && trace[i].state.doc == w.watch.pinned.value && Up(trace[i].state, w.watch.keep)
      && ProxyConfig(trace[i].state) in w.watch.configs.value
  {
    hide Up, ProxyConfig;
  }

  /** From then on: last is the current window. */
  lemma SteadyAfter(trace: seq<Event>, ws: seq<Window>, w: Window, last: Window, ph: Phases, config: Option<string>,
                    text: string)
    requires Tiles(ws, ph.from, ph.published + 1, ph.doc, config, ph.spared) && forall w | w in ws :: Covers(trace, w)
    requires Covers(trace, w) && w == Window(Saving(ph.published, ph.up, ph.doc, config, text), ph.saved + 1)
    requires Covers(trace, last)
      && last == Window(Watch(ph.saved, ph.up * SetOf(ph.doc.pvcs), Some(ph.doc), Some({Some(text)})), |trace|)
    requires ph.to == |trace| && ph.published <= ph.saved
    ensures Steady(trace, ph, config, text)
  {
    TilesHold(trace, ws, ph.from, ph.published + 1, ph.doc, config, ph.spared);
    hide Up, ProxyConfig, Covers, Tiles;
    WindowHolds(trace, w);
    WindowHolds(trace, last);
  }

  lemma WindowsHold(api: Cluster)
    requires api.Valid()
    ensures Covers(api.trace, api.Current()) && api.watch.from < |api.trace|
    ensures api.watch.pinned.Some? ==> api.state.doc == api.watch.pinned.value
    ensures api.watch.configs.Some? ==> ProxyConfig(api.state) in api.watch.configs.value
    ensures forall w | w in api.windows :: Covers(api.trace, w)
  {
  }

  /* ---- the part of a run in which it changes the cluster ---- */

  /** The requests for ReplicaSets and jobs of a run which does not fail, in their order. */
  function RunRequests(before: set<Pvc>, c: Course): seq<Request> {
    MountRequests(c.principal, before, Missing(c.pvcs, before)) + DeleteRequests(c.obsolete)
  }

  /** The run has chosen its principal, and the order in which it deletes, as the source lets it. */
  ghost predicate Planned(before: set<Pvc>, c: Course) {
    && Distinct(c.obsolete) && SetOf(c.obsolete) == before - SetOf(c.pvcs)
    && (Missing(c.pvcs, before) != [] ==> IsPrincipal(c.principal, before, Missing(c.pvcs, before)))
  }

  /** The run has found a safe start when it listed the pods. */
  ghost predicate SafeRun(c: Course) {
    SafeStart(c.listed, c.listed.pods.Keys, Missing(c.pvcs, c.listed.pods.Keys))
  }

  /**
   * What is claimed of a run, or a part of it; a is before, b is after. sound: every ReplicaSet had its pod and every pod its
   * ReplicaSet.
   */
  ghost predicate Claims(a: Moment, b: Moment, user: UserConfig, c: Course, sound: bool, ok: bool) {
    var s, t, before := a.state, b.state, a.state.replicaSets;
    && Onward(a.past, b.past)
    && (SafeRun(c) && CalmPast(b.past) ==> b.past.breaches == a.past.breaches)
    && (sound && GoodPast(b.past) && s.services.Keys <= before ==> b.requests.clashes == a.requests.clashes)
    && (sound && ok ==>
      && Planned(before, c)
      && b.requests.mounts == a.requests.mounts + RunRequests(before, c)
      && (SetOf(c.pvcs) == before ==> b.requests == a.requests)
      && (GoodPast(b.past) ==> Reconciled(s, t, user, c))
      && (GoodPast(b.past) ==>
          b.commands.issued == a.commands.issued + Commanded(Plan(s.name, c.config, c.principal), before, Missing(c.pvcs, before)))
      && (GoodPast(b.past) && Missing(c.pvcs, before) != [] && before != {} ==>
          Passed(b.past.trace, |a.past.trace| - 1, before - {c.principal}))
      && (GoodPast(a.past) && OnlyRefused(b.past.faults) && before <= s.services.Keys ==>
          (GoodPast(b.past) <==> Faithful(s, t, SetOf(Missing(c.pvcs, before))))))
  }

  lemma UnusedAdded(s: State, pvcs: seq<Pvc>)
    ensures s.services.Keys <= s.replicaSets ==> Unused(s, SetOf(Missing(pvcs, s.replicaSets)))
    ensures Listed(s, s.replicaSets, Missing(pvcs, s.replicaSets))
  {
    hide Missing;
    MissingIsNew(pvcs, s.replicaSets);
  }

  lemma MissingIsNew(pvcs: seq<Pvc>, before: set<Pvc>)
    ensures SetOf(Missing(pvcs, before)) !! before
  {
  }

  /** Apart from the document, only the other actors have moved. */
  ghost predicate Unchanged(s: State, t: State) {
    SameShape(s, t) && Still(s, t) && Orphans(t) <= Orphans(s) && (Sound(s) ==> Sound(t)) && (Exclusive(s) ==> Exclusive(t))
  }

  lemma LaterIsUnchanged(s: State, t: State)
    requires Later(s, t)
    ensures forall d :: Unchanged(s, t.(doc := d))
    ensures Unchanged(s, t)
  {
    if Exclusive(s) {
      LaterIsExclusive(s, t);
    }
    hide Later, Still, EnvEffect;
    LaterFacts(s, t);
  }

  lemma LaterFacts(s: State, t: State)
    requires Later(s, t)
    ensures SameShape(s, t) && Orphans(t) <= Orphans(s) && (Sound(s) ==> Sound(t))
    ensures forall d :: Still(s, t.(doc := d))
  {
  }

  lemma LaterIsExclusive(s: State, t: State)
    requires Later(s, t) && Exclusive(s)
    ensures Exclusive(t)
  {
    forall p | p in t.jobs && t.jobs[p].active
      ensures Unmounted(t, p) && Unmounted(t, t.jobs[p].source) && !Seeding(t, t.jobs[p].source)
    {
      assert Seeding(s, p) && s.jobs[p].source == t.jobs[p].source;
    }
  }

  lemma SafeStartLater(s: State, t: State, items: seq<Pvc>)
    requires Unchanged(s, t) && SafeStart(s, s.pods.Keys, items) && s.pods.Keys !! SetOf(items)
    ensures SafeStart(t, s.pods.Keys, items) && Shown(t, s.pods.Keys, items)
  {
    if items != [] {
      forall p | Untouched(s, p) ensures Untouched(t, p) {
        NoNewJobsUntouched(s, t, p);
      }
      OrderStays(s, t, if s.pods.Keys == {} then items[1..] else items);
      hide Untouched, SafeOrder;
    }
  }

  /** The run is at the end of what it does to the cluster since the listing; a is when it has marked the document. */
  lemma SafeSoFar(a: Moment, b: Moment, c: Course, principal: Pvc, config: ServerConfig, ok: bool)
    requires var found := c.listed.pods.Keys; Grew(a, b, found, Missing(c.pvcs, found), principal, config, ok)
    requires Unchanged(c.listed, a.state)
    ensures Onward(a.past, b.past) && (SafeRun(c) && CalmPast(b.past) ==> b.past.breaches == a.past.breaches)
  {
    hide Unchanged, SafeStart, Shown, Created, Onward;
    MissingIsNew(c.pvcs, c.listed.pods.Keys);
    if SafeRun(c) {
      SafeStartLater(c.listed, a.state, Missing(c.pvcs, c.listed.pods.Keys));
    }
  }

  /** The replicas could not be created. */
  lemma ClaimsBefore(a: Moment, b: Moment, user: UserConfig, c: Course, existing: set<Pvc>, sound: bool)
    requires Grew(a, b, existing, Missing(c.pvcs, existing), c.principal, c.config, false)
    requires sound ==> Sound(a.state) && existing == a.state.replicaSets
    requires Unchanged(c.listed, a.state) && existing == c.listed.pods.Keys
    ensures Claims(a, b, user, c, sound, false)
  {
    hide SetOf, Missing, Unused, Listed, Onward, Exclusive, Sound, Untouched, SafeOrder, Unchanged, SafeRun, Created;
    SafeSoFar(a, b, c, c.principal, c.config, false);
    UnusedAdded(a.state, c.pvcs);
  }

  /** Publishing changes nothing about what the creation has or has not left there. */
  lemma StillUnfaithful(s: State, t: State, u: State, v: State, c: Course)
    requires Aside(t, u) && Deleted(u, v, SetOf(c.obsolete), false) && SetOf(c.obsolete) == s.replicaSets - SetOf(c.pvcs)
    ensures var added := SetOf(Missing(c.pvcs, s.replicaSets)); Faithful(s, t, added) <==> Faithful(s, v, added)
  {
    MissingIsNew(c.pvcs, s.replicaSets);
    hide Missing, Still, Sound, Orphans, EdgesKept;
  }

  lemma MoreRequests(log: seq<Request>, before: set<Pvc>, c: Course)
    ensures log + MountRequests(c.principal, before, Missing(c.pvcs, before)) + DeleteRequests(c.obsolete)
            == log + RunRequests(before, c)
  {
    hide MountRequests, DeleteRequests, Missing;
  }

  /** m is between the creation and the publishing. */
  lemma ClaimsAfter(a: Moment, m: Moment, published: State, b: Moment, user: UserConfig, c: Course, existing: set<Pvc>,
                    sound: bool, ok: bool)
    requires Grew(a, m, existing, Missing(c.pvcs, existing), c.principal, c.config, true)
    requires Published(m, published, b, user, c, ok) && m.state.name == a.state.name
    requires sound ==> Sound(a.state) && existing == a.state.replicaSets
    requires Unchanged(c.listed, a.state) && existing == c.listed.pods.Keys
    requires Distinct(c.obsolete) && SetOf(c.obsolete) == existing - SetOf(c.pvcs)
    requires ServerConfigOf(user.server, user.secrets) == Some(c.config)
    ensures Claims(a, b, user, c, sound, ok)
  {
    hide SetOf, Missing, Unused, Listed, Onward, Exclusive, Sound, Untouched, SafeOrder, Created, Reconciled, Faithful, Deleted,
         ProxyDeployed, Commanded, MountRequests, DeleteRequests, RunRequests, Distinct, Passed, SavedText, StaysSound,
         Unchanged, SafeRun;
    SafeSoFar(a, m, c, c.principal, c.config, true);
    UnusedAdded(a.state, c.pvcs);
    OnwardTransitive(a.past, m.past, b.past);
    var s, t, u, v := a.state, m.state, published, b.state;
    var before, added := s.replicaSets, Missing(c.pvcs, s.replicaSets);
    if sound && ok {
      MissingSet(c.pvcs, before, c.obsolete);
      MoreRequests(a.requests.mounts, before, c);
      PublishedAside(t, u, user, c, s.name);
      StillUnfaithful(s, t, u, v, c);
      SoundIsServed(s);
      if GoodPast(b.past) {
        GrownSet(s, t, c.principal, before, added, c.config.port);
        IsReconciled(s, t, u, v, user, c);
        if added != [] && before != {} {
          PassedMore(m.past, b.past, |a.past.trace| - 1, before - {c.principal});
        }
      }
    }
  }

  lemma GrownSet(s: State, t: State, principal: Pvc, before: set<Pvc>, added: seq<Pvc>, port: int)
    requires Created(s, t, principal, before, added, port)
    ensures t.replicaSets == before + SetOf(added)
  {
  }

  lemma PassedMore(a: Past, b: Past, from: int, pvcs: set<Pvc>)
    requires Passed(a.trace, from, pvcs) && Onward(a, b)
    ensures Passed(b.trace, from, pvcs)
  {
    var i :| from <= i < |a.trace| && 0 <= i && a.trace[i].state.replicaSets == a.trace[i].state.pods.Keys == pvcs;
    assert b.trace[i] == a.trace[i];
  }

  lemma SoundIsServed(s: State)
    ensures Sound(s) && s.replicaSets <= s.services.Keys ==> AllServed(s)
  {
  }

  lemma PublishedAside(t: State, u: State, user: UserConfig, c: Course, name: string)
    requires ProxyDeployed(t, u, SavedText(user, name, c.pvcs, c.config), ProxyPort(user))
    ensures Aside(t, u)
  {
  }

  /** Everything which was found or has been added is up, when no fault is met. */
  lemma AllUp(a: Moment, m: Moment, published: State, b: Moment, user: UserConfig, c: Course, existing: set<Pvc>, found: set<Pvc>,
              up: set<Pvc>, sound: bool, ok: bool)
    requires Grew(a, m, existing, Missing(c.pvcs, existing), c.principal, c.config, true) && Published(m, published, b, user, c, ok)
    requires sound ==> Sound(a.state) && existing == a.state.replicaSets
    requires found == existing + SetOf(Missing(c.pvcs, existing)) && up == found * m.state.replicaSets * m.state.pods.Keys
    ensures Onward(m.past, b.past)
    ensures GoodPast(b.past) && sound ==> up == a.state.replicaSets + SetOf(c.pvcs)
  {
    hide Missing;
    MissingAll(c.pvcs, existing);
  }

  lemma MissingAll(pvcs: seq<Pvc>, before: set<Pvc>)
    ensures before + SetOf(Missing(pvcs, before)) == before + SetOf(pvcs)
  {
  }

  lemma MissingFacts(pvcs: seq<Pvc>, existing: set<Pvc>, toBeDeleted: seq<Pvc>)
    requires Distinct(pvcs) && SetOf(toBeDeleted) == existing - SetOf(pvcs)
    ensures Distinct(Missing(pvcs, existing)) && existing !! SetOf(Missing(pvcs, existing)) && SetOf(toBeDeleted) !! SetOf(pvcs)
  {
  }

  /** The user's configuration can be used. */
  predicate Usable(user: UserConfig) {
    ServerUsable(user) && ProxyUsable(user)
  }

  predicate Keyed(user: UserConfig) {
    ServerKeyed(user) && StringKeys(user.proxy)
  }

  lemma ExplainedBefore(a: Past, b: Past, r: Outcome, user: UserConfig)
    requires Explained(a, b, r, ServerUsable(user), ServerKeyed(user), MayBoth) && !r.Ok?
    ensures Explained(a, b, r, Usable(user), Keyed(user), MayBoth)
  {
    hide Told, ServerUsable, ServerKeyed, ProxyUsable;
  }

  lemma ExplainedThrough(a: Past, b: Past, c: Past, r: Outcome, user: UserConfig)
    requires Onward(a, b) && Onward(b, c) && Explained(a, b, Ok, ServerUsable(user), ServerKeyed(user), MayBoth)
    requires Explained(b, c, r, ProxyUsable(user), StringKeys(user.proxy), Silent)
    ensures Explained(a, c, r, Usable(user), Keyed(user), MayBoth)
  {
    hide Told, ServerUsable, ServerKeyed, ProxyUsable, Onward;
    OnwardTransitive(a, b, c);
  }

  /**
   * A run which met no fault, from a to b, s being the state before: the replicas which have come were seen ready in turn, the
   * principal is back when the proxy is going to be deployed, and the proxy is as before until its configuration is saved.
   */
  ghost predicate Orderly(a: Past, b: Past, s: State, c: Course, ph: Phases) {
    var added := Missing(c.pvcs, s.replicaSets);
    && ph.published < |b.trace| && ph.saved < |b.trace| && b.trace[ph.saved].state.proxy == s.proxy
    && (added != [] ==>
        GrewInTurn(a, b, s.replicaSets, added, c.principal) && Live(b.trace[ph.published].state, c.principal))
  }

  lemma IsOrderly(a: Moment, m: Moment, published: State, b: Moment, user: UserConfig, c: Course, ph: Phases)
    requires var before := a.state.replicaSets; Grew(a, m, before, Missing(c.pvcs, before), c.principal, c.config, true)
    requires Published(m, published, b, user, c, true) && Told(m.past, b.past, Ok, Silent) && GoodPast(b.past)
    requires 0 < |m.past.trace| && m.past.trace[|m.past.trace| - 1].state == m.state && ph.published == |m.past.trace| - 1
    requires ph.saved < |b.past.trace| && b.past.trace[ph.saved].state.proxy == m.state.proxy
    ensures Orderly(a.past, b.past, a.state, c, ph)
  {
    hide Told, Onward, Passed, Commanded, SafeStart, Shown, Unused, ProxyDeployed, Deleted, MountRequests, DeleteRequests, Faithful,
         GrewInTurn, Tidied, Joined, ServiceMap, NoNewJobs, Sound, Missing;
    OnwardFacts(m.past, b.past);
    var before := a.state.replicaSets;
    var added := Missing(c.pvcs, before);
    if added != [] {
      GrewInTurnLonger(a.past, m.past, b.past, before, added, c.principal);
      PrincipalLives(a.state, m.state, c.principal, before, added, c.config.port);
    }
  }

  lemma PrincipalLives(s: State, t: State, principal: Pvc, before: set<Pvc>, added: seq<Pvc>, port: int)
    requires Created(s, t, principal, before, added, port) && IsPrincipal(principal, before, added) && added != []
    ensures Live(t, principal)
  {
  }

  lemma StillTidied(a: Moment, m: Moment, published: State, b: Moment, user: UserConfig, c: Course, existing: set<Pvc>)
    requires Grew(a, m, existing, Missing(c.pvcs, existing), c.principal, c.config, true)
    requires Published(m, published, b, user, c, true) && ToBeSeeded(existing, Missing(c.pvcs, existing)) != {}
    ensures Tidied(a.past, b.past, b.state)
  {
    hide Told, Onward, Passed, Commanded, SafeStart, Shown, Unused, MountRequests, DeleteRequests, Faithful, Tidied,
         GrewInTurn, Created, NoNewJobs, Sound, Missing, ToBeSeeded, SeedConfigMapName, ProxyName, SavedText, Still, Orphans;
    ConfigMapNamesDiffer(m.state.name);
    OnwardReflexive(a.past);
    TidiedLonger(a.past, a.past, m.past, b.past, m.state, b.state);
  }

  /** From the InProgress write to the end of the deletions. */
  method Process(api: Cluster, h: RequestHandle, user: UserConfig, existing0: map<Pvc, string>,
                 toBeDeleted: seq<Pvc>, toBeAdded: seq<Pvc>, ghost sound: bool, ghost listed: State)
    returns (r: Outcome, ghost c: Course, ghost ph: Phases)
    requires api.Valid() && Parsed(user.server) && Parsed(user.proxy)
    requires toBeAdded == Missing(h.directory.pvcs, existing0.Keys) && Distinct(h.directory.pvcs)
    requires Distinct(toBeDeleted) && SetOf(toBeDeleted) == existing0.Keys - SetOf(h.directory.pvcs)
    requires sound ==> Sound(api.state) && existing0.Keys == api.state.replicaSets
    requires Unchanged(listed, api.state) && existing0.Keys == listed.pods.Keys
    requires api.watch.keep <= existing0.Keys && api.watch.pinned == Some(h.directory)
    requires api.watch.configs == Some({ProxyConfig(api.state)})
    modifies api`state, api`trace, api`requests, api`commands, api`faults, api`breaches, api`watch, api`windows, h`config
    ensures api.Valid() && api.watch.pinned == Some(h.directory) && c.pvcs == h.directory.pvcs && c.listed == listed
    ensures Claims(old(api.Now()), api.Now(), user, c, sound, r.Ok?)
    ensures Explained(old(api.SoFar()), api.SoFar(), r, Usable(user), Keyed(user), MayBoth)
    ensures r.Ok? && ToBeSeeded(existing0.Keys, toBeAdded) != {} ==> Tidied(old(api.SoFar()), api.SoFar(), api.state)
    ensures sound && r.Ok? && api.Good() ==> Orderly(old(api.SoFar()), api.SoFar(), old(api.state), c, ph)
    ensures ph.from == old(api.watch.from) && ph.from <= ph.published <= ph.saved && ph.to == |api.trace|
    ensures ph.spared == Spared(old(api.watch.keep), toBeAdded, c.principal)
    ensures && ph.doc == h.directory
            && Steady(api.trace, ph, ProxyConfig(old(api.state)), SavedText(user, api.directory, c.pvcs, c.config))
    ensures sound && api.Good() && ph.published < ph.to ==>
      ph.up == old(api.state.replicaSets) + SetOf(c.pvcs)
  {
    hide Cluster.Valid, Claims, Grew, Published, Steady, Tiles, Moved, Sound, SavedText, Covers, ProxyConfig, Missing, SetOf,
         Distinct, Spared, Onward, Switched, Unchanged, Told, ToBeSeeded, Tidied, Orderly, Usable, Keyed, ServerUsable, ServerKeyed,
         ProxyUsable, Explained, ServerConfigOf, StringKeys, Parsed, Orphans, Kept, SameShape, Still;
    ghost var a, s, from, keep, config := api.Now(), api.state, api.watch.from, api.watch.keep, ProxyConfig(api.state);
    ghost var was, before, spared := api.Current(), api.windows, {};
    MissingFacts(h.directory.pvcs, existing0.Keys, toBeDeleted);
    api.NameIsDirectory();
    WindowsHold(api);
    var existing;
    ghost var principal, ws;
    r, existing, principal, ws := Grow(api, h, user, existing0, toBeDeleted, toBeAdded);
    c := Course(h.directory.pvcs, h.config, principal, toBeDeleted, listed);
    ghost var m, t := api.Now(), api.state;
    api.NameIsDirectory();
    WindowsHold(api);
    MovedTiles(ws, was, api.Current(), before, api.windows, principal, toBeAdded, h.directory, config);
    spared := Spared(keep, toBeAdded, principal);
    ghost var text := SavedText(user, api.directory, c.pvcs, c.config);
    GrewFacts(a, m, existing0.Keys, toBeAdded, principal, h.config, r.Ok?);
    if r != Ok {
      ph := Phases(h.directory, from, |api.trace|, |api.trace|, |api.trace|, spared, {});
      ClaimsBefore(a, m, user, c, existing0.Keys, sound);
      ExplainedBefore(a.past, m.past, r, user);
      SteadyBefore(api.trace, ws, ph, config, text);
      return;
    }
    api.LastState();
    ghost var windows, current := api.windows, api.Current();
    ghost var published, saved, up;
    r, published, saved, up := Publish(api, h, user, existing, toBeDeleted, principal, listed);
    WindowsHold(api);
    ph := Phases(h.directory, from, |m.past.trace| - 1, if saved then api.watch.from else |api.trace|, |api.trace|, spared, up);
    IsSteady(api.trace, ws, windows, api.windows, current, api.Current(), saved, ph, config, text);
    IsProcessed(a, m, published, api.Now(), user, c, ph, existing0.Keys, existing.Keys, sound, r);
  }

  /** m is between the creation and the publishing, which has ended with r. */
  lemma IsProcessed(a: Moment, m: Moment, published: State, b: Moment, user: UserConfig, c: Course, ph: Phases, existing: set<Pvc>,
                    found: set<Pvc>, sound: bool, r: Outcome)
    requires Grew(a, m, existing, Missing(c.pvcs, existing), c.principal, c.config, true)
    requires Published(m, published, b, user, c, r.Ok?) && m.state.name == a.state.name
    requires sound ==> Sound(a.state) && existing == a.state.replicaSets
    requires Unchanged(c.listed, a.state) && existing == c.listed.pods.Keys
    requires Distinct(c.obsolete) && SetOf(c.obsolete) == existing - SetOf(c.pvcs)
    requires ServerConfigOf(user.server, user.secrets) == Some(c.config)
    requires Onward(a.past, m.past) && Explained(a.past, m.past, Ok, ServerUsable(user), ServerKeyed(user), MayBoth)
    requires Explained(m.past, b.past, r, ProxyUsable(user), StringKeys(user.proxy), Silent)
    requires found == existing + SetOf(Missing(c.pvcs, existing)) && ph.up == found * m.state.replicaSets * m.state.pods.Keys
    requires 0 < |m.past.trace| && m.past.trace[|m.past.trace| - 1].state == m.state && ph.published == |m.past.trace| - 1
    requires r.Ok? ==> ph.saved < |b.past.trace| && b.past.trace[ph.saved].state.proxy == m.state.proxy
    ensures Claims(a, b, user, c, sound, r.Ok?) && Explained(a.past, b.past, r, Usable(user), Keyed(user), MayBoth)
    ensures r.Ok? && ToBeSeeded(existing, Missing(c.pvcs, existing)) != {} ==> Tidied(a.past, b.past, b.state)
    ensures sound && r.Ok? && GoodPast(b.past) ==> Orderly(a.past, b.past, a.state, c, ph)
    ensures sound && GoodPast(b.past) ==> ph.up == a.state.replicaSets + SetOf(c.pvcs)
  {
    hide Claims, Grew, Published, Sound, Missing, SetOf, Distinct, Onward, Unchanged, Told, ToBeSeeded, Tidied, Orderly, Usable, Keyed,
         ServerUsable, ServerKeyed, ProxyUsable, Explained;
    AllUp(a, m, published, b, user, c, existing, found, ph.up, sound, r.Ok?);
    ClaimsAfter(a, m, published, b, user, c, existing, sound, r.Ok?);
    PublishedFacts(m, published, b, user, c, r.Ok?);
    ExplainedThrough(a.past, m.past, b.past, r, user);
    if r.Ok? {
      IsInOrder(a, m, published, b, user, c, ph, existing, sound);
    }
  }

  lemma PublishedFacts(m: Moment, published: State, b: Moment, user: UserConfig, c: Course, ok: bool)
    requires Published(m, published, b, user, c, ok)
    ensures Onward(m.past, b.past)
  {
  }

  lemma IsInOrder(a: Moment, m: Moment, published: State, b: Moment, user: UserConfig, c: Course, ph: Phases, existing: set<Pvc>,
                  sound: bool)
    requires Grew(a, m, existing, Missing(c.pvcs, existing), c.principal, c.config, true)
    requires Published(m, published, b, user, c, true) && Explained(m.past, b.past, Ok, ProxyUsable(user), StringKeys(user.proxy), Silent)
    requires 0 < |m.past.trace| && m.past.trace[|m.past.trace| - 1].state == m.state && ph.published == |m.past.trace| - 1
    requires ph.saved < |b.past.trace| && b.past.trace[ph.saved].state.proxy == m.state.proxy
    requires sound ==> existing == a.state.replicaSets
    ensures ToBeSeeded(existing, Missing(c.pvcs, existing)) != {} ==> Tidied(a.past, b.past, b.state)
    ensures sound && GoodPast(b.past) ==> Orderly(a.past, b.past, a.state, c, ph)
  {
    hide Grew, Published, Tidied, Orderly, ToBeSeeded, Missing, Told;
    if ToBeSeeded(existing, Missing(c.pvcs, existing)) != {} {
      StillTidied(a, m, published, b, user, c, existing);
    }
    if sound && GoodPast(b.past) {
      IsOrderly(a, m, published, b, user, c, ph);
    }
  }

  lemma IsSteady(trace: seq<Event>, ws: seq<Window>, before: seq<Window>, after: seq<Window>, was: Window, now: Window, saved: bool,
                 ph: Phases, config: Option<string>, text: string)
    requires Tiles(ws, ph.from, ph.published + 1, ph.doc, config, ph.spared) && forall w | w in ws :: w == was || w in before
    requires Covers(trace, now) && forall w | w in after :: Covers(trace, w)
    requires ph.to == |trace| == now.to && ph.published <= ph.saved
    requires Switched(was, now, before, after, ph.doc, config, text, ph.up, saved) && was.to == ph.published + 1
    requires ph.saved == if saved then now.watch.from else |trace|
    ensures Steady(trace, ph, config, text)
  {
    hide Tiles, Covers, Steady, SetOf, Saving;
    assert was in after;
    assert forall w | w in before :: w in after;
    if saved {
      var w := Window(Saving(ph.published, ph.up, ph.doc, config, text), ph.saved + 1);
      assert w in after;
      SteadyAfter(trace, ws, w, now, ph, config, text);
    } else {
      SteadyWhile(trace, ws, now, ph, config, text);
    }
  }

  lemma GrewFacts(a: Moment, b: Moment, existing: set<Pvc>, toBeAdded: seq<Pvc>, principal: Pvc, config: ServerConfig, ok: bool)
    requires Grew(a, b, existing, toBeAdded, principal, config, ok)
    ensures Onward(a.past, b.past) && a.past.trace <= b.past.trace
  {
  }

  /* ---- the whole run ---- */

  /**
   * Idle: nothing was done, and the conditions are as they were. Abandoned: the same, but that the document has been marked
   * as being processed by a request which failed. Succeeded and Failed: whether the outcome was recorded in the
   * conditions. Crashed: the process ended (Lost).
   */
  datatype Result = Idle | Abandoned | Succeeded(recorded: bool) | Failed(recorded: bool) | Crashed

  /** Between a and b, the document has been failing. */
  ghost predicate FailingSeen(a: Past, b: Past) {
    exists i | |a.trace| - 1 <= i < |b.trace| && 0 <= i :: b.trace[i].state.doc.available == False
  }

  /** Why a run does not start. */
  ghost predicate Excused(a: Past, b: Past, r: Result) {
    match r
    case Idle => FailingSeen(a, b) || Erring(a, b, NoDocument) || Erring(a, b, NoStatus)
    case Abandoned => Erring(a, b, NoStatus)
    case Failed(recorded) => recorded && Erring(a, b, NoListing)
    case _ => false
  }

  lemma ExcusedLonger(a: Past, b: Past, c: Past, r: Result)
    requires Onward(a, b) && Onward(b, c) && (Excused(a, b, r) || Excused(b, c, r))
    ensures Excused(a, c, r)
  {
    forall cause | Erring(a, b, cause) || Erring(b, c, cause) ensures Erring(a, c, cause) {
      OnwardErring(a, b, c, cause);
    }
    hide Erring;
    if FailingSeen(a, b) {
      var i :| |a.trace| - 1 <= i < |b.trace| && 0 <= i && b.trace[i].state.doc.available == False;
      assert c.trace[i] == b.trace[i];
    }
  }

  /** Nothing but the conditions of the document has been changed by the operator. */
  ghost predicate OnlyStatus(s: State, t: State, failed: bool) {
    exists seen :: Later(s, seen) && t == seen.(doc := Recorded(seen.doc, failed))
  }

  /** Nothing has been changed by the operator but that the document is marked. */
  ghost predicate OnlyMarked(s: State, t: State) {
    exists seen :: Later(s, seen) && seen.doc.available != False
      && t == seen.(doc := seen.doc.(inProgress := True, version := seen.doc.version + 1))
  }

  /** s is among the states of the trace. */
  ghost predicate Met(trace: seq<Event>, s: State) {
    exists i | 0 <= i < |trace| :: trace[i].state == s
  }

  lemma MetLater(trace: seq<Event>, more: seq<Event>, s: State)
    requires Met(trace, s) && trace <= more
    ensures Met(more, s)
  {
    var i :| 0 <= i < |trace| && trace[i].state == s;
    assert more[i] == trace[i];
  }

  lemma IsOnlyStatus(s: State, t: State, u: State, v: State, failed: bool)
    requires Later(s, t) && Later(t, u) && v == u.(doc := Recorded(u.doc, failed))
    ensures OnlyStatus(s, v, failed)
  {
    LaterTransitive(s, t, u);
  }

  lemma ReadDocument(s: State, t: State)
    requires Later(s, t)
    ensures DocEffect(s.doc, t.doc)
    ensures s.doc.available == False ==> t.doc.available == False
  {
  }

  lemma ErringAtLast(a: Past, b: Past, c: Past, d: Past)
    requires Onward(a, b) && Onward(b, c) && Onward(c, d) && Erring(b, c, NoListing)
    ensures Erring(a, d, NoListing)
    ensures Erring(c, d, NoStatus) ==> Erring(a, d, NoStatus)
  {
    hide Erring, Told;
    OnwardTransitive(a, b, c);
    OnwardErring(a, b, c, NoListing);
    OnwardErring(a, c, d, NoListing);
    if Erring(c, d, NoStatus) {
      OnwardErring(a, c, d, NoStatus);
    }
  }

  /** Reads the document, and lists the pods unless it is failing; listed is the state at the listing. */
  method Examine(api: Cluster, h: RequestHandle) returns (r: Option<Result>, existing: map<Pvc, string>, ghost listed: State)
    requires api.Valid() && api.watch.pinned == None
    modifies api`state, api`trace, h`directory
    ensures api.Valid() && Onward(old(api.SoFar()), api.SoFar())
    ensures old(api.state.doc.available) == False ==> r == Some(Idle)
    ensures r.Some? ==> Excused(old(api.SoFar()), api.SoFar(), r.value)
    ensures r == Some(Failed(true)) ==> OnlyStatus(old(api.state), api.state, true)
    ensures r != Some(Failed(true)) ==> r in {None, Some(Idle)} && Later(old(api.state), api.state)
    ensures r == None ==> Later(old(api.state), listed) && Met(api.trace, listed)
    ensures r == None ==> api.state == listed && existing.Keys == listed.pods.Keys && DocEffect(h.directory, listed.doc)
    ensures r == None ==> h.directory.available != False && Distinct(h.directory.pvcs)
  {
    hide Cluster.Valid, Onward, Later, OnlyStatus, DocEffect, Distinct, Told, Erring;
    ghost var s, p0 := api.state, api.SoFar();
    existing := map[];
    var fetched;
    var d;
    fetched, d := api.GetDocument();
    ghost var t, p1 := api.state, api.SoFar();
    listed := t;
    ReadDocument(s, t);
    if !fetched {
      return Some(Idle), existing, listed;
    }
    h.directory := d;
    api.LastState();
    OnwardFacts(p0, p1);
    if h.directory.available == False {
      return Some(Idle), existing, listed;
    }
    var ok;
    ok, existing := GetExistingPods(api);
    ghost var u, p2 := api.state, api.SoFar();
    OnwardTransitive(p0, p1, p2);
    LaterTransitive(s, t, u);
    ReadDocument(t, u);
    listed := u;
    api.LastState();
    if !ok {
      ghost var seen;
      ok, seen := SetCondition(api, h, true);
      OnwardTransitive(p0, p2, api.SoFar());
      ErringAtLast(p0, p1, p2, api.SoFar());
      LaterTransitive(s, u, seen);
      if ok {
        EnvEffectReflexive(u);
        IsOnlyStatus(s, u, seen, api.state, true);
      }
      return if ok then Some(Failed(true)) else Some(Idle), existing, listed;
    }
    r := None;
  }

  /** The document which has been read, marked, is the one which is stored. */
  predicate Marked(d: Document) {
    d.available != False && d.inProgress == True && Distinct(d.pvcs)
  }

  /** t is the state at the listing, u the one before the status is written, and v the one after. */
  lemma BeginFacts(s: State, t: State, u: State, v: State, d: Document, existing: set<Pvc>)
    requires Later(s, t) && Later(t, u) && existing == t.pods.Keys && DocEffect(d, t.doc)
    requires d.version == u.doc.version && d.available != False && Distinct(d.pvcs)
    requires v == Apply(u, WriteStatus(True, d.available))
    ensures Later(s, u) && v == u.(doc := d.(inProgress := True, version := d.version + 1)) && Marked(v.doc)
    ensures Kept(v, Watch(0, existing * v.replicaSets, Some(v.doc), Some({ProxyConfig(v)})))
    ensures Sound(s) ==> existing == v.replicaSets
    ensures OnlyMarked(s, v)
  {
    LaterTransitive(s, t, u);
    assert u.doc == d;
  }

  /** Examines the cluster, decides what to do, and marks the document as being processed. */
  method Begin(api: Cluster, h: RequestHandle)
    returns (r: Option<Result>, existing: map<Pvc, string>, toBeDeleted: seq<Pvc>, toBeAdded: seq<Pvc>,
            ghost seen: State, ghost listed: State)
    requires api.Valid() && api.watch.pinned == None
    modifies api`state, api`trace, api`watch, api`windows, h`directory
    ensures api.Valid() && Onward(old(api.SoFar()), api.SoFar())
    ensures old(api.state.doc.available) == False ==> r == Some(Idle)
    ensures r.Some? ==> api.watch.pinned == None && Excused(old(api.SoFar()), api.SoFar(), r.value)
    ensures r == Some(Failed(true)) ==> OnlyStatus(old(api.state), api.state, true)
    ensures r == Some(Abandoned) ==> OnlyMarked(old(api.state), api.state)
    ensures r !in {None, Some(Failed(true)), Some(Abandoned)} ==> r == Some(Idle) && Later(old(api.state), api.state)
    ensures r == None ==>
      && Later(old(api.state), listed) && Met(api.trace, listed) && Later(listed, seen) && existing.Keys == listed.pods.Keys
      && Later(old(api.state), seen) && api.state == seen.(doc := h.directory) && Marked(h.directory)
      && api.watch == Watch(|api.trace| - 1, existing.Keys * api.state.replicaSets, Some(h.directory), Some({ProxyConfig(api.state)}))
      && toBeAdded == Missing(h.directory.pvcs, existing.Keys)
      && Distinct(toBeDeleted) && SetOf(toBeDeleted) == existing.Keys - SetOf(h.directory.pvcs)
      && (Sound(old(api.state)) ==> existing.Keys == api.state.replicaSets)
  {
    hide Cluster.Valid, Onward, Later, OnlyStatus, OnlyMarked, Met, DocEffect, Distinct, Missing, SetOf, Sound, Kept,
         ProxyConfig, Apply, Told, Erring, FailingSeen;
    ghost var s, p0 := api.state, api.SoFar();
    toBeDeleted, toBeAdded := [], [];
    r, existing, listed := Examine(api, h);
    seen := listed;
    if r.Some? {
      return;
    }
    ghost var p1, d := api.SoFar(), h.directory;
    toBeDeleted, toBeAdded := AnalyseExistingPods(h, existing);
    h.directory := h.directory.(inProgress := True);
    var ok, stored, version;
    ok, stored, version, seen := api.UpdateStatus(h.directory);
    OnwardTransitive(p0, p1, api.SoFar());
    OnwardFacts(p1, api.SoFar());
    MetLater(p1.trace, api.trace, listed);
    LaterTransitive(s, listed, seen);
    if stored {
      BeginFacts(s, listed, seen, api.state, d, existing.Keys);
    }
    if !ok {
      OnwardErring(p0, p1, api.SoFar(), NoStatus);
      return Some(if stored then Abandoned else Idle), existing, toBeDeleted, toBeAdded, seen, listed;
    }
    h.directory := h.directory.(version := version);
    api.Look(existing.Keys * api.state.replicaSets, Some(h.directory), Some({ProxyConfig(api.state)}));
  }

  /** Records the outcome; from here on, the document may change again. */
  method Conclude(api: Cluster, h: RequestHandle, failed: bool) returns (recorded: bool, ghost seen: State)
    requires api.Valid()
    modifies api`state, api`trace, api`watch, api`windows, h`directory
    ensures api.Valid() && Onward(old(api.SoFar()), api.SoFar()) && api.watch.pinned == None && Later(old(api.state), seen)
    ensures api.state == if recorded then seen.(doc := Recorded(seen.doc, failed)) else seen
    ensures !recorded ==> Erring(old(api.SoFar()), api.SoFar(), NoStatus)
  {
    hide Cluster.Valid, Onward, Later, Erring;
    api.Look({}, None, None);
    recorded, seen := SetCondition(api, h, failed);
  }

  /* ---- the claims about the whole ---- */

  /** A volume which no job writes from s to t, nor from u to v. */
  lemma VolumesSame(s: State, t: State, u: State, v: State, p: Pvc)
    requires Unchanged(s, t) && NoNewJobs(t, u) && Unchanged(u, v) && u.name == t.name
    ensures !Seeding(s, p) ==> VolumeOf(t, p) == VolumeOf(s, p) && !Seeding(t, p)
    ensures !Seeding(s, p) || !Seeding(u, p) ==> VolumeOf(v, p) == VolumeOf(u, p) && !Seeding(v, p)
    ensures t.name == s.name && v.name == u.name
  {
    hide VolumeOf, Orphans, Sound, Exclusive;
    assert !Seeding(s, p) ==> !Seeding(t, p);
    assert !Seeding(t, p) ==> !Seeding(u, p);
  }

  lemma GrownSame(s: State, t: State, u: State, v: State, principal: Pvc, all: set<Pvc>, added: set<Pvc>)
    requires Unchanged(s, t) && Grown(t, u, principal, all, added) && NoNewJobs(t, u) && Unchanged(u, v)
    requires u.name == t.name
    ensures Grown(s, v, principal, all, added)
  {
    hide VolumeOf, Unchanged, NoNewJobs;
    forall p: Pvc, q: Pvc | p != q && (!Seeding(s, p) || p in added)
      ensures !Seeding(s, p) ==> Edge(t, p, q) == Edge(s, p, q)
      ensures Edge(v, p, q) == Edge(u, p, q)
    {
      VolumesSame(s, t, u, v, p);
    }
    forall p: Pvc
      ensures !Seeding(s, p) ==> !Seeding(t, p) && VolumeOf(t, p) == VolumeOf(s, p)
      ensures !Seeding(s, p) || p in added ==> VolumeOf(v, p) == VolumeOf(u, p) && !Seeding(v, p)
    {
      VolumesSame(s, t, u, v, p);
    }
    forall p | p in added ensures SeededLast(s, v, principal, p) {
      assert SeededLast(t, u, principal, p);
    }
    hide Edge;
  }

  lemma NoNewJobsSame(s: State, t: State, u: State, v: State)
    requires Unchanged(s, t) && NoNewJobs(t, u) && Unchanged(u, v)
    ensures NoNewJobs(s, v)
  {
    hide VolumeOf, Orphans, Sound, Exclusive;
    NoNewJobsTransitive(s, t, u);
    NoNewJobsTransitive(s, u, v);
  }

  lemma ReconciledSame(s: State, t: State, u: State, v: State, user: UserConfig, c: Course)
    requires Unchanged(s, t) && Reconciled(t, u, user, c) && Unchanged(u, v)
    ensures Reconciled(s, v, user, c)
  {
    hide Still, Orphans, Sound, Exclusive, Grown, NoNewJobs, ServiceMap, Renewed, SavedText, Missing, SetOf, ToBeSeeded, Redeployed;
    NoNewJobsSame(s, t, u, v);
    GrownSame(s, t, u, v, c.principal, t.replicaSets + SetOf(c.pvcs), ToBeSeeded(t.replicaSets, Missing(c.pvcs, t.replicaSets)));
    if SetOf(c.pvcs) == s.replicaSets {
      StillTransitive(s, t, u);
      StillTransitive(s, u, v);
    }
  }

  /** Nothing has been counted or requested. */
  ghost predicate Meanwhile(a: Moment, b: Moment) {
    && Unchanged(a.state, b.state) && Onward(a.past, b.past)
    && b.past == a.past.(trace := b.past.trace) && b.requests == a.requests && b.commands == a.commands
  }

  /** The claims about the part in which the cluster is changed are those about the whole. */
  lemma ClaimsThrough(a: Moment, b: Moment, c: Moment, d: Moment, user: UserConfig, x: Course, sound: bool, ok: bool)
    requires Meanwhile(a, b) && Claims(b, c, user, x, sound, ok) && Meanwhile(c, d)
    requires sound ==> Sound(a.state)
    ensures Claims(a, d, user, x, sound, ok)
  {
    hide Onward, Planned, SafeRun, Reconciled, Commanded, RunRequests, Missing, SetOf, Sound, Orphans, Exclusive, Still, Passed;
    OnwardTransitive(a.past, b.past, c.past);
    OnwardTransitive(a.past, c.past, d.past);
    var items := Missing(x.pvcs, a.state.replicaSets);
    if sound && ok && GoodPast(d.past) {
      ReconciledSame(a.state, b.state, c.state, d.state, user, x);
      if items != [] && a.state.replicaSets != {} {
        PassedLonger(a.past, b.past, c.past, d.past, a.state.replicaSets - {x.principal});
      }
    }
  }

  lemma PassedLonger(a: Past, b: Past, c: Past, d: Past, pvcs: set<Pvc>)
    requires Passed(c.trace, |b.trace| - 1, pvcs) && Onward(a, b) && Onward(c, d)
    ensures Passed(d.trace, |a.trace| - 1, pvcs)
  {
    var i :| |b.trace| - 1 <= i < |c.trace| && 0 <= i && c.trace[i].state.replicaSets == c.trace[i].state.pods.Keys == pvcs;
    assert d.trace[i] == c.trace[i];
  }

  /** What a run leaves of the document, by its result; started: it has marked the document as being processed. */
  ghost predicate RunEffect(s: State, t: State, c: Course, r: Result, started: bool) {
    && (s.doc.available == False ==> r == Idle)
    && (r == Idle ==> !started && Later(s, t))
    && (r == Abandoned ==> !started && OnlyMarked(s, t))
    && (!started ==> r in {Idle, Abandoned} || (r == Failed(true) && OnlyStatus(s, t, true)))
    && (r == Failed(true) ==> t.doc.inProgress == False && t.doc.available == False)
    && (r.Succeeded? ==>
      && t.doc.pvcs == c.pvcs && t.doc.inProgress == (if r.recorded then False else True)
      && if r.recorded then t.doc.available == True else t.doc.available != False)
    && (r in {Failed(false), Crashed} ==> t.doc.pvcs == c.pvcs && t.doc.inProgress == True && t.doc.available != False)
  }

  /** The past, up to the first n events of the trace. */
  function Cut(trace: seq<Event>, n: nat): Past
    requires n <= |trace|
  {
    Past(trace[..n], NO_FAULTS, 0)
  }

  /** How the part of a started run in which it changes the cluster has ended. */
  function OutcomeOf(r: Result): Outcome {
    match r
    case Succeeded(_) => Ok
    case Failed(_) => Err
    case _ => Lost
  }

  /**
   * Why a started run has its result, t being the state after: it succeeds exactly when nothing went wrong and the user's
   * configuration can be used, and it is recorded unless the status could not be written. A success leaves no seed
   * ConfigMap, unless its deletion failed.
   */
  ghost predicate Reasoned(trace: seq<Event>, t: State, user: UserConfig, c: Course, ph: Phases, r: Result) {
    && ph.from < ph.to <= |trace|
    && var a, b, found := Cut(trace, ph.from + 1), Cut(trace, ph.to), c.listed.pods.Keys;
      && Explained(a, b, OutcomeOf(r), Usable(user), Keyed(user), MayBoth)
      && (r in {Succeeded(false), Failed(false)} ==> Erring(b, Cut(trace, |trace|), NoStatus))
      && (r.Succeeded? && ToBeSeeded(found, Missing(c.pvcs, found)) != {} ==> Tidied(a, b, t))
  }

  /** Only the trace matters. */
  lemma CutSame(a: Past, b: Past, trace: seq<Event>)
    requires a.trace <= b.trace <= trace
    ensures var x, y := Cut(trace, |a.trace|), Cut(trace, |b.trace|);
      && (forall r, k :: Told(x, y, r, k) <==> Told(a, b, r, k)) && (forall cause :: Erring(x, y, cause) <==> Erring(a, b, cause))
      && x.trace == a.trace && y.trace == b.trace
  {
  }

  /** a is when the document has been marked, b at the end of the deletions, d after the record, in the state t. */
  lemma IsReasoned(a: Past, b: Past, d: Past, u: State, t: State, user: UserConfig, c: Course, ph: Phases, r: Result)
    requires 0 < |a.trace| && Onward(a, b) && Onward(b, d) && |a.trace| - 1 == ph.from && ph.to == |b.trace|
    requires Explained(a, b, OutcomeOf(r), Usable(user), Keyed(user), MayBoth)
    requires r in {Succeeded(false), Failed(false)} ==> Erring(b, d, NoStatus)
    requires var found := c.listed.pods.Keys;
      r.Succeeded? && ToBeSeeded(found, Missing(c.pvcs, found)) != {} ==> Tidied(a, b, u)
    requires t.name == u.name && t.configMaps == u.configMaps
    ensures Reasoned(d.trace, t, user, c, ph, r)
  {
    hide Told, Erring, ToBeSeeded, Missing, Usable, Keyed;
    CutSame(a, b, d.trace);
    CutSame(b, d, d.trace);
  }

  lemma OrderlyCut(a: Past, b: Past, d: Past, s: State, u: State, c: Course, ph: Phases)
    requires Onward(a, b) && Onward(b, d) && Orderly(a, b, u, c, ph)
    requires s.proxy == u.proxy && s.replicaSets == u.replicaSets
    ensures Orderly(Cut(d.trace, |a.trace|), Cut(d.trace, |b.trace|), s, c, ph)
  {
    var x, y, added := Cut(d.trace, |a.trace|), Cut(d.trace, |b.trace|), Missing(c.pvcs, s.replicaSets);
    assert x.trace == a.trace && y.trace == b.trace;
    if added != [] {
      GrewInTurnCut(a, b, x, y, s.replicaSets, added, c.principal);
    }
  }

  lemma GrewInTurnCut(a: Past, b: Past, x: Past, y: Past, existing: set<Pvc>, added: seq<Pvc>, principal: Pvc)
    requires GrewInTurn(a, b, existing, added, principal) && x.trace == a.trace && y.trace == b.trace
    requires x == Past(x.trace, NO_FAULTS, 0) && y == Past(y.trace, NO_FAULTS, 0)
    ensures GrewInTurn(x, y, existing, added, principal)
  {
    hide ToBeSeeded, Raised, Any;
    var m: Past :| Onward(a, m) && Onward(m, b) && (existing != {} ==> m == a) && !Any(m.trace, |a.trace|, |m.trace|, Link)
      && Raised(b.trace, |m.trace|, |b.trace|, principal, ToBeSeeded(existing, added));
    var n := Past(m.trace, NO_FAULTS, 0);
    assert Onward(x, n) && Onward(n, y);
  }

  /** What holds in every state of a run, whatever its result. */
  ghost predicate Throughout(a: Moment, b: Moment, user: UserConfig, c: Course, ph: Phases, sound: bool, ok: bool) {
    && ph.doc.pvcs == c.pvcs && Distinct(c.pvcs)
    && |a.past.trace| - 1 <= ph.from <= ph.published <= ph.saved
    && Steady(b.past.trace, ph, ProxyConfig(a.state), SavedText(user, a.state.name, c.pvcs, c.config))
    && (sound ==> ph.spared == Spared(a.state.replicaSets, Missing(c.pvcs, a.state.replicaSets), c.principal))
    && (sound && GoodPast(b.past) && ph.published < ph.to ==> ph.up == a.state.replicaSets + SetOf(c.pvcs))
    && (sound && ok && GoodPast(b.past) && Missing(c.pvcs, a.state.replicaSets) != [] && a.state.replicaSets != {} ==>
        Passed(b.past.trace[..ph.to], ph.from, a.state.replicaSets - {c.principal}))
  }

  /** After the part in which the cluster is changed: u, last and t are the states at its end, before and after the last write. */
  lemma IsRunEffect(s: State, u: State, last: State, t: State, c: Course, r: Result)
    requires s.doc.available != False && Marked(u.doc) && u.doc.pvcs == c.pvcs && r !in {Idle, Abandoned}
    requires if r == Crashed then t == u else Later(u, last)
    requires r == Failed(true) ==> t == last.(doc := Recorded(last.doc, true))
    requires r == Succeeded(true) ==> t == last.(doc := Recorded(last.doc, false))
    requires r in {Failed(false), Succeeded(false)} ==> t == last
    ensures RunEffect(s, t, c, r, true)
  {
  }

  lemma BecomesThroughout(a: Moment, b: Moment, m: Moment, d: Moment, user: UserConfig, c: Course, ph: Phases, sound: bool,
                          ok: bool)
    requires Meanwhile(a, b) && Onward(m.past, d.past) && Claims(b, m, user, c, sound, ok)
    requires ph.doc.pvcs == c.pvcs && Distinct(c.pvcs) && |b.past.trace| - 1 == ph.from <= ph.published <= ph.saved
    requires ph.to == |m.past.trace|
    requires Steady(m.past.trace, ph, ProxyConfig(b.state), SavedText(user, a.state.name, c.pvcs, c.config))
    requires sound ==> ph.spared == Spared(a.state.replicaSets, Missing(c.pvcs, a.state.replicaSets), c.principal)
    requires sound && GoodPast(m.past) && ph.published < ph.to ==> ph.up == a.state.replicaSets + SetOf(c.pvcs)
    ensures Throughout(a, d, user, c, ph, sound, ok)
  {
    hide Steady, SavedText, Missing, SetOf, Spared, Still, Sound, Orphans, Exclusive, Passed, Planned, RunRequests, Commanded,
         Reconciled, SafeStart, Onward;
    MeanwhileFacts(a, b);
    GoodBefore(m.past, d.past);
    assert d.past.trace[..ph.to] == m.past.trace;
    SteadyMore(m.past.trace, d.past.trace, ph, ProxyConfig(b.state), SavedText(user, a.state.name, c.pvcs, c.config));
  }

  lemma GoodBefore(a: Past, b: Past)
    requires Onward(a, b)
    ensures a.trace <= b.trace && (GoodPast(b) ==> GoodPast(a))
  {
  }

  /** The part of a run in which it changes the cluster was orderly; s is the state before. */
  ghost predicate OrderlyRun(s: State, trace: seq<Event>, c: Course, ph: Phases) {
    ph.from < ph.to <= |trace| && Orderly(Cut(trace, ph.from + 1), Cut(trace, ph.to), s, c, ph)
  }

  /** Records the outcome, unless the process has ended. */
  method Finish(api: Cluster, h: RequestHandle, outcome: Outcome) returns (r: Result, ghost last: State)
    requires api.Valid()
    modifies api`state, api`trace, api`watch, api`windows, h`directory
    ensures api.Valid() && Meanwhile(old(api.Now()), api.Now())
    ensures OutcomeOf(r) == outcome && r !in {Idle, Abandoned}
    ensures if r == Crashed then api.state == old(api.state) else Later(old(api.state), last)
    ensures r == Failed(true) ==> api.state == last.(doc := Recorded(last.doc, true))
    ensures r == Succeeded(true) ==> api.state == last.(doc := Recorded(last.doc, false))
    ensures r in {Failed(false), Succeeded(false)} ==>
      api.state == last && Erring(old(api.SoFar()), api.SoFar(), NoStatus)
  {
    hide Cluster.Valid, Meanwhile, Later, Onward, Erring;
    ghost var m := api.Now();
    MeanwhileReflexive(m);
    r, last := Crashed, api.state;
    if !outcome.Lost? {
      var recorded;
      recorded, last := Conclude(api, h, outcome.Err?);
      r := if outcome.Err? then Failed(recorded) else Succeeded(recorded);
      IsMeanwhile(m, api.Now(), last);
    }
  }

  /** Processes the document which Begin has marked, and records the outcome; a is before the run. */
  method Execute(api: Cluster, h: RequestHandle, user: UserConfig, existing: map<Pvc, string>,
                 toBeDeleted: seq<Pvc>, toBeAdded: seq<Pvc>, ghost a: Moment, ghost listed: State)
    returns (r: Result, ghost c: Course, ghost ph: Phases)
    requires api.Valid() && Parsed(user.server) && Parsed(user.proxy)
    requires Meanwhile(a, api.Now()) && a.state.doc.available != False && (Sound(a.state) ==> existing.Keys == a.state.replicaSets)
    requires Unchanged(listed, api.state) && existing.Keys == listed.pods.Keys
    requires toBeAdded == Missing(h.directory.pvcs, existing.Keys) && Marked(h.directory)
    requires Distinct(toBeDeleted) && SetOf(toBeDeleted) == existing.Keys - SetOf(h.directory.pvcs)
    requires api.watch.pinned == Some(h.directory) && api.watch.keep == existing.Keys * api.state.replicaSets
    requires api.watch.from == |api.trace| - 1 && api.watch.configs == Some({ProxyConfig(api.state)})
    modifies api, h
    ensures api.Valid() && RunEffect(a.state, api.state, c, r, true) && c.listed == listed
    ensures old(api.trace) <= api.trace && ph.from == old(|api.trace|) - 1
    ensures Reasoned(api.trace, api.state, user, c, ph, r)
    ensures Sound(a.state) && r.Succeeded? && api.Good() ==> OrderlyRun(a.state, api.trace, c, ph)
    ensures Claims(a, api.Now(), user, c, Sound(a.state), r.Succeeded?)
    ensures Throughout(a, api.Now(), user, c, ph, Sound(a.state), r.Succeeded?)
  {
    hide Cluster.Valid, Claims, Throughout, Steady, Meanwhile, Sound, SavedText, Missing, SetOf, Distinct, Spared, RunEffect, Later,
         ProxyConfig, Onward, Unchanged, Told, Erring, Tidied, Orderly, Usable, Keyed, Explained, Reasoned, ToBeSeeded;
    ghost var b, sound := api.Now(), Sound(a.state);
    MeanwhileFacts(a, b);
    api.NameIsDirectory();
    assert sound ==> existing.Keys * api.state.replicaSets == existing.Keys;
    var outcome;
    outcome, c, ph := Process(api, h, user, existing, toBeDeleted, toBeAdded, sound, listed);
    ghost var m, u := api.Now(), api.state;
    WindowsHold(api);
    ghost var last;
    r, last := Finish(api, h, outcome);
    MeanwhileFacts(m, api.Now());
    ClaimsFacts(b, m, user, c, sound, r.Succeeded?);
    IsReasoned(b.past, m.past, api.SoFar(), u, api.state, user, c, ph, r);
    if sound && r.Succeeded? && api.Good() {
      OnwardFacts(m.past, api.SoFar());
      OrderlyCut(b.past, m.past, api.SoFar(), a.state, b.state, c, ph);
    }
    IsRunEffect(a.state, u, last, api.state, c, r);
    ClaimsThrough(a, b, m, api.Now(), user, c, sound, r.Succeeded?);
    BecomesThroughout(a, b, m, api.Now(), user, c, ph, sound, r.Succeeded?);
  }

  lemma MeanwhileReflexive(a: Moment)
    ensures Meanwhile(a, a)
  {
    EnvEffectReflexive(a.state);
    OnwardReflexive(a.past);
    LaterIsUnchanged(a.state, a.state);
  }

  lemma IsMeanwhile(a: Moment, b: Moment, seen: State)
    requires Later(a.state, seen) && b.state == seen.(doc := b.state.doc)
    requires Onward(a.past, b.past) && b.past == a.past.(trace := b.past.trace)
    requires b.requests == a.requests && b.commands == a.commands
    ensures Meanwhile(a, b)
  {
    LaterIsUnchanged(a.state, seen);
  }

  lemma MeanwhileFacts(a: Moment, b: Moment)
    requires Meanwhile(a, b)
    ensures Onward(a.past, b.past) && b.state.name == a.state.name && b.state.replicaSets == a.state.replicaSets
    ensures a.past.trace <= b.past.trace && b.state.proxy == a.state.proxy && b.state.configMaps == a.state.configMaps
    ensures (Sound(a.state) ==> Sound(b.state)) && ProxyConfig(b.state) == ProxyConfig(a.state)
  {
  }

  /** The faults of one run are counted from its start. */
  function Afresh(a: Moment): Moment {
    a.(past := a.past.(faults := NO_FAULTS))
  }

  /** A success makes the cluster what the document says exactly when no ReplicaSet was refused, if nothing else went wrong. */
  lemma SucceedsExactlyWhen(a: Moment, b: Moment, user: UserConfig, c: Course)
    requires Claims(Afresh(a), b, user, c, true, true) && OnlyRefused(b.past.faults) && a.state.replicaSets <= a.state.services.Keys
    ensures Reconciled(a.state, b.state, user, c) <==> b.past.faults.refused == 0
  {
    var s, t := a.state, b.state;
    if Reconciled(s, t, user, c) {
      assert SetOf(Missing(c.pvcs, s.replicaSets)) <= SetOf(c.pvcs);
      assert Faithful(s, t, SetOf(Missing(c.pvcs, s.replicaSets)));
    }
  }

  /** One run of the reconcile loop, whatever state it finds. */
  method Reconcile(api: Cluster, user: UserConfig) returns (r: Result, ghost c: Course, ghost ph: Option<Phases>)
    requires api.Valid() && Parsed(user.server) && Parsed(user.proxy)
    modifies api
    ensures api.Valid() && old(api.trace) <= api.trace && old(api.breaches) <= api.breaches
    ensures RunEffect(old(api.state), api.state, c, r, ph.Some?)
    ensures if ph.None? then Excused(old(api.SoFar()), api.SoFar(), r) else Reasoned(api.trace, api.state, user, c, ph.value, r)
    ensures ph.Some? && r.Succeeded? && Sound(old(api.state)) && api.Good() ==>
      OrderlyRun(old(api.state), api.trace, c, ph.value)
    ensures ph.None? ==> api.requests == old(api.requests) && api.commands == old(api.commands) && api.breaches == old(api.breaches)
    ensures ph.Some? ==> Later(old(api.state), c.listed) && Met(api.trace, c.listed)
    ensures ph.Some? ==>
      && Claims(Afresh(old(api.Now())), api.Now(), user, c, Sound(old(api.state)), r.Succeeded?)
      && Throughout(Afresh(old(api.Now())), api.Now(), user, c, ph.value, Sound(old(api.state)), r.Succeeded?)
    ensures && r.Succeeded? && OnlyRefused(api.faults)
            && Sound(old(api.state)) && old(api.state.replicaSets) <= old(api.state.services).Keys
            ==> (Reconciled(old(api.state), api.state, user, c) <==> api.faults.refused == 0)
  {
    hide Cluster.Valid, Claims, Throughout, Meanwhile, Sound, RunEffect, Later, ProxyConfig, Onward, SetOf, Distinct, Missing,
         OnlyStatus, OnlyMarked, Met, Unchanged, Reconciled, Excused, Reasoned, OrderlyRun, Told;
    ghost var was, s := api.Now(), api.state;
    ph := None;
    var h := new RequestHandle();
    c := Course([], h.config, "p", [], s);
    api.Forget();
    api.Look({}, None, None);
    ghost var a := api.Now();
    ghost var seen, listed;
    var begun, existing, toBeDeleted, toBeAdded;
    begun, existing, toBeDeleted, toBeAdded, seen, listed := Begin(api, h);
    OnwardFacts(a.past, api.SoFar());
    if begun.Some? {
      EndedEarly(s, api.state, c, begun.value);
      ExcusedSame(a.past, was.past, api.SoFar(), begun.value);
      return begun.value, c, ph;
    }
    IsMeanwhile(a, api.Now(), seen);
    MeanwhileFacts(a, api.Now());
    LaterIsUnchanged(listed, seen);
    ghost var phases;
    ghost var marked := api.trace;
    r, c, phases := Execute(api, h, user, existing, toBeDeleted, toBeAdded, a, listed);
    ph := Some(phases);
    MetLater(marked, api.trace, listed);
    ClaimsFacts(a, api.Now(), user, c, Sound(s), r.Succeeded?);
    if r.Succeeded? && OnlyRefused(api.faults) && Sound(s) && s.replicaSets <= s.services.Keys {
      SucceedsExactlyWhen(was, api.Now(), user, c);
    }
  }

  lemma ExcusedSame(a: Past, b: Past, c: Past, r: Result)
    requires a.trace == b.trace && Excused(a, c, r)
    ensures Excused(b, c, r)
  {
    forall cause ensures Erring(a, c, cause) <==> Erring(b, c, cause) {
    }
    hide Erring;
  }

  lemma EndedEarly(s: State, t: State, c: Course, r: Result)
    requires s.doc.available == False ==> r == Idle
    requires match r {
      case Failed(true) => OnlyStatus(s, t, true)
      case Abandoned => OnlyMarked(s, t)
      case _ => r == Idle && Later(s, t)
    }
    ensures RunEffect(s, t, c, r, false)
  {
  }

  lemma ClaimsFacts(a: Moment, b: Moment, user: UserConfig, c: Course, sound: bool, ok: bool)
    requires Claims(a, b, user, c, sound, ok)
    ensures a.past.trace <= b.past.trace && a.past.breaches <= b.past.breaches && Onward(a.past, b.past)
  {
  }
}
