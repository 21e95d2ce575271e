/** Concrete runs, each from a new directory on, in which what is claimed under a condition fails without it. */
module Witnesses {
  import opened Names
  import opened Documents
  import opened States
  import opened Clusters
  import opened Replicas
  import opened Agreements
  import opened SeedJobs
  import opened Serve
  import opened Create
  import opened ProxyTexts
  import opened Configs
  import opened ProxyDeployment
  import opened Controller
  import opened History
  import opened Courses

  /** A document has been created, and nothing else yet. */
  function Fresh(name: string, pvcs: seq<Pvc>): State {
    State(name, Document(pvcs, 1, 1, Unset, Unset), {}, map[], map[], {}, map[], map[], Proxy(None, None, 0), map[])
  }

  /** One more move. */
  lemma Go(s: State, moves: seq<Move>, t: State, m: Move) returns (more: seq<Move>, u: State)
    requires Playable(s, moves) && t == Play(s, moves) && Possible(t, m)
    ensures more == moves + [m] && u == Next(t, m) && Playable(s, more) && u == Play(s, more)
    ensures Mounts(more) == Mounts(moves) + if IsMount(m) then [m.request] else []
  {
    hide *;
    OneMore(s, moves, m);
    more, u := moves + [m], Next(t, m);
  }

  /** More moves. */
  lemma Then(s: State, moves: seq<Move>, more: seq<Move>)
    requires Playable(s, moves) && Playable(Play(s, moves), more)
    ensures Playable(s, moves + more) && Play(s, moves + more) == Play(Play(s, moves), more)
    ensures Mounts(moves + more) == Mounts(moves) + Mounts(more)
  {
    hide *;
    MoreMoves(s, moves, more);
    MountsAppend(moves, more);
  }

  /* ---- the parts of runs ---- */

  /** The document is marked as being processed. */
  function Begin(available: Flag): seq<Move> {
    [Asked(WriteStatus(True, available))]
  }

  lemma Begins(s: State, available: Flag)
    ensures Playable(s, Begin(available)) && Mounts(Begin(available)) == []
    ensures Play(s, Begin(available))
            == s.(doc := s.doc.(inProgress := True, available := available, version := s.doc.version + 1))
  {
    hide Play, Playable, Mounts;
    NothingPlayed(s);
    var moves, t := Go(s, [], s, Asked(WriteStatus(True, available)));
    assert moves == Begin(available);
  }

  /** A replica comes up: its ReplicaSet, its pod, its service. */
  function Start(name: string, config: ServerConfig, p: Pvc, suffix: Suffix): seq<Move> {
    [Asked(CreateReplicaSet(p)), Moved(StartPod(p, suffix)), Moved(MovePod(p, Running(true, 0))),
     Asked(CreateService(ReplicaName(name, p), p, config.port))]
  }

  lemma Starts(s: State, name: string, config: ServerConfig, p: Pvc, suffix: Suffix)
    requires s.name == name && p !in s.replicaSets && p !in s.pods && p !in s.services
    ensures Playable(s, Start(name, config, p, suffix)) && Mounts(Start(name, config, p, suffix)) == [CreateReplicaSet(p)]
    ensures Play(s, Start(name, config, p, suffix))
            == s.(replicaSets := s.replicaSets + {p}, pods := s.pods[p := Pod(suffix, Running(true, 0))],
                  services := s.services[p := Service(config.port, p)])
  {
    hide Play, Playable, Mounts, ReplicaName, IsReplicaName, PvcNamed;
    ReplicaNameIsOne(name, p);
    NothingPlayed(s);
    var moves, t := [], s;
    moves, t := Go(s, moves, t, Asked(CreateReplicaSet(p)));
    moves, t := Go(s, moves, t, Moved(StartPod(p, suffix)));
    moves, t := Go(s, moves, t, Moved(MovePod(p, Running(true, 0))));
    moves, t := Go(s, moves, t, Asked(CreateService(ReplicaName(name, p), p, config.port)));
    assert moves == Start(name, config, p, suffix);
  }

  /** a is commanded to supply b. */
  function Command(name: string, config: ServerConfig, a: Pvc, b: Pvc): seq<Move> {
    [Asked(RunCommand(a, Remove(ReplicaName(name, b)))), Asked(RunCommand(a, CommandFor(name, config, a, a, b)))]
  }

  lemma CommandPlays(s: State, name: string, config: ServerConfig, a: Pvc, b: Pvc)
    requires a in s.pods
    ensures Playable(s, Command(name, config, a, b)) && Mounts(Command(name, config, a, b)) == []
    ensures var t := Play(s, Command(name, config, a, b)); t == s.(volumes := t.volumes)
  {
    hide Play, Playable, Mounts, ReplicaName, CommandFor, Perform, VolumeOf;
    NothingPlayed(s);
    var moves, t := [], s;
    moves, t := Go(s, moves, t, Asked(RunCommand(a, Remove(ReplicaName(name, b)))));
    moves, t := Go(s, moves, t, Asked(RunCommand(a, CommandFor(name, config, a, a, b))));
    assert moves == Command(name, config, a, b);
  }

  /** a is stopped, to the deletion of its ReplicaSet. */
  function Stop(a: Pvc): seq<Move> {
    [Asked(DeleteService(a)), Asked(DeleteReplicaSet(a))]
  }

  lemma Stops(s: State, a: Pvc)
    ensures Playable(s, Stop(a)) && Mounts(Stop(a)) == [DeleteReplicaSet(a)]
    ensures Play(s, Stop(a)) == s.(services := s.services - {a}, replicaSets := s.replicaSets - {a})
  {
    hide Play, Playable, Mounts;
    NothingPlayed(s);
    var moves, t := [], s;
    moves, t := Go(s, moves, t, Asked(DeleteService(a)));
    moves, t := Go(s, moves, t, Asked(DeleteReplicaSet(a)));
    assert moves == Stop(a);
  }

  /** The seed ConfigMap, and a seed job from a to b. */
  function SeedStart(name: string, a: Pvc, b: Pvc): seq<Move> {
    [Asked(PutConfigMap(SeedConfigMapName(name), SEED_CONFIG)), Asked(CreateJob(a, b))]
  }

  lemma SeedStarts(s: State, name: string, a: Pvc, b: Pvc)
    requires b !in s.jobs
    ensures Playable(s, SeedStart(name, a, b)) && Mounts(SeedStart(name, a, b)) == [CreateJob(a, b)]
    ensures var t := Play(s, SeedStart(name, a, b));
      && t == s.(jobs := t.jobs, configMaps := s.configMaps[SeedConfigMapName(name) := SEED_CONFIG])
      && t.jobs == s.jobs[b := Job(a, 0, 0, true, VolumeOf(s, b).seeds)]
  {
    hide Play, Playable, Mounts, SeedConfigMapName, VolumeOf;
    NothingPlayed(s);
    var moves, t := [], s;
    moves, t := Go(s, moves, t, Asked(PutConfigMap(SeedConfigMapName(name), SEED_CONFIG)));
    SameVolumes(s, t, b);
    moves, t := Go(s, moves, t, Asked(CreateJob(a, b)));
    assert moves == SeedStart(name, a, b);
  }

  lemma SameVolumes(s: State, t: State, p: Pvc)
    requires t.volumes == s.volumes
    ensures VolumeOf(t, p) == VolumeOf(s, p)
  {
  }

  /** The job into b succeeds and leaves no agreements there, and the seed ConfigMap is deleted. */
  function SeedDone(name: string, b: Pvc): seq<Move> {
    [Moved(EndJob(b, true, {})), Asked(DeleteConfigMap(SeedConfigMapName(name)))]
  }

  lemma SeedIsDone(s: State, name: string, b: Pvc)
    requires Seeding(s, b)
    ensures Playable(s, SeedDone(name, b)) && Mounts(SeedDone(name, b)) == []
    ensures var t := Play(s, SeedDone(name, b));
      && t == s.(jobs := t.jobs, volumes := t.volumes, configMaps := s.configMaps - {SeedConfigMapName(name)})
      && t.jobs.Keys == s.jobs.Keys && !Seeding(t, b) && (forall p | p in s.jobs && p != b :: t.jobs[p] == s.jobs[p])
      && t.volumes - {b} == s.volumes - {b} && VolumeOf(t, b).agreements == multiset{}
  {
    hide Play, Playable, Mounts, SeedConfigMapName;
    NothingPlayed(s);
    var moves, t := [], s;
    moves, t := Go(s, moves, t, Moved(EndJob(b, true, {})));
    moves, t := Go(s, moves, t, Asked(DeleteConfigMap(SeedConfigMapName(name))));
    assert moves == SeedDone(name, b);
  }

  /** The proxy is deployed, and the success of a first run recorded. */
  function FirstPublished(name: string, text: string, port: int): seq<Move> {
    [Asked(PutConfigMap(ProxyName(name), text)), Asked(PutProxy(Proxy(Some(port), None, 0))),
     Asked(PutProxy(Proxy(Some(port), Some(port), 0))), Asked(WriteStatus(False, True))]
  }

  lemma FirstPublishes(s: State, name: string, text: string, port: int)
    requires s.name == name
    ensures Playable(s, FirstPublished(name, text, port)) && Mounts(FirstPublished(name, text, port)) == []
    ensures var t := Play(s, FirstPublished(name, text, port));
      && t == s.(doc := t.doc, configMaps := s.configMaps[ProxyName(name) := text], proxy := Proxy(Some(port), Some(port), 0))
      && ProxyConfig(t) == Some(text)
      && t.doc.pvcs == s.doc.pvcs && t.doc.inProgress == False && t.doc.available == True
  {
    hide Play, Playable, Mounts, ProxyName;
    NothingPlayed(s);
    var moves, t := [], s;
    moves, t := Go(s, moves, t, Asked(PutConfigMap(ProxyName(name), text)));
    moves, t := Go(s, moves, t, Asked(PutProxy(Proxy(Some(port), None, 0))));
    moves, t := Go(s, moves, t, Asked(PutProxy(Proxy(Some(port), Some(port), 0))));
    moves, t := Go(s, moves, t, Asked(WriteStatus(False, True)));
    assert moves == FirstPublished(name, text, port);
  }

  /** The proxy gets another configuration and is restarted, and the success recorded. */
  function NextPublished(name: string, text: string, port: int): seq<Move> {
    [Asked(PutConfigMap(ProxyName(name), text)), Asked(PutProxy(Proxy(Some(port), Some(port), 1))), Asked(WriteStatus(False, True))]
  }

  lemma NextPublishes(s: State, name: string, text: string, port: int)
    requires s.name == name
    ensures Playable(s, NextPublished(name, text, port)) && Mounts(NextPublished(name, text, port)) == []
    ensures var t := Play(s, NextPublished(name, text, port));
      && t == s.(doc := t.doc, configMaps := t.configMaps, proxy := t.proxy) && ProxyConfig(t) == Some(text)
      && t.doc.pvcs == s.doc.pvcs && t.doc.inProgress == False && t.doc.available == True
  {
    hide Play, Playable, Mounts, ProxyName;
    NothingPlayed(s);
    var moves, t := [], s;
    moves, t := Go(s, moves, t, Asked(PutConfigMap(ProxyName(name), text)));
    moves, t := Go(s, moves, t, Asked(PutProxy(Proxy(Some(port), Some(port), 1))));
    moves, t := Go(s, moves, t, Asked(WriteStatus(False, True)));
    assert moves == NextPublished(name, text, port);
  }

  lemma EditAdmitted(s: State, pvcs: seq<Pvc>)
    requires s.doc.inProgress == False && s.doc.available == True && Distinct(pvcs)
    ensures React(s, EditSpec(pvcs)) == s.(doc := Edited(s.doc, pvcs))
  {
  }

  lemma PodReplaced(s: State, p: Pvc, suffix: Suffix)
    requires p in s.pods && p in s.replicaSets
    ensures React(s, ReplacePod(p, suffix)) == s.(pods := s.pods[p := Pod(suffix, Waiting)])
  {
  }

  /** A second replica is listed, and the next run begins; the pod of the first one is replaced in its course, or it is not. */
  function SecondListed(a: Pvc, b: Pvc, replaced: bool): seq<Move> {
    [Moved(EditSpec([a, b])), Asked(WriteStatus(True, True))] + if replaced then [Moved(ReplacePod(a, "y"))] else []
  }

  lemma SecondIsListed(s: State, a: Pvc, b: Pvc, replaced: bool)
    requires a != b && s.doc.inProgress == False && s.doc.available == True && a in s.replicaSets && a in s.pods
    ensures Playable(s, SecondListed(a, b, replaced)) && Mounts(SecondListed(a, b, replaced)) == []
    ensures var t := Play(s, SecondListed(a, b, replaced));
      && t == s.(doc := t.doc, pods := t.pods) && t.doc.pvcs == [a, b] && t.doc.inProgress == True && t.doc.available == True
      && t.pods == if replaced then s.pods[a := Pod("y", Waiting)] else s.pods
  {
    hide Play, Playable, Mounts, React;
    NothingPlayed(s);
    EditAdmitted(s, [a, b]);
    var moves, t := [], s;
    moves, t := Go(s, moves, t, Moved(EditSpec([a, b])));
    moves, t := Go(s, moves, t, Asked(WriteStatus(True, True)));
    if replaced {
      PodReplaced(t, a, "y");
      moves, t := Go(s, moves, t, Moved(ReplacePod(a, "y")));
    }
    assert moves == SecondListed(a, b, replaced);
  }

  /* ---- a run as it should be ---- */

  /** The first replica of a new directory. */
  function FirstReplica(name: string, config: ServerConfig, a: Pvc): seq<Move> {
    Begin(Unset) + Start(name, config, a, "x")
  }

  /** A replica a is up, and the document is being processed. */
  predicate One(s: State, name: string, config: ServerConfig, a: Pvc, pvcs: seq<Pvc>, available: Flag) {
    && s.name == name && s.doc.pvcs == pvcs && s.doc.inProgress == True && s.doc.available == available
    && s.replicaSets == {a} && s.pods == map[a := Pod("x", Running(true, 0))]
    && s.services == map[a := Service(config.port, a)] && s.strays == {} && s.jobs == map[]
    && s.volumes == map[] && s.configMaps == map[] && s.proxy == Proxy(None, None, 0)
  }

  lemma FirstReplicaPlays(name: string, config: ServerConfig, a: Pvc, pvcs: seq<Pvc>)
    ensures var s, moves := Fresh(name, pvcs), FirstReplica(name, config, a);
      && Playable(s, moves) && One(Play(s, moves), name, config, a, pvcs, Unset) && Mounts(moves) == [CreateReplicaSet(a)]
  {
    hide Play, Playable, Mounts, Begin, Start;
    var s := Fresh(name, pvcs);
    Begins(s, Unset);
    Starts(Play(s, Begin(Unset)), name, config, a, "x");
    Then(s, Begin(Unset), Start(name, config, a, "x"));
  }

  /** The first run of a document with one PVC. */
  function FirstRun(name: string, config: ServerConfig, text: string, port: int, a: Pvc): seq<Move> {
    FirstReplica(name, config, a) + FirstPublished(name, text, port)
  }

  lemma FirstRunPlays(name: string, config: ServerConfig, text: string, port: int, a: Pvc)
    ensures var s, moves := Fresh(name, [a]), FirstRun(name, config, text, port, a);
      && Empty(s) && Playable(s, moves) && Mounts(moves) == MountRequests(a, {}, [a])
      && var t := Play(s, moves);
        && One(t.(doc := t.doc.(inProgress := True, available := Unset), configMaps := map[], proxy := Proxy(None, None, 0)),
               name, config, a, [a], Unset)
        && t.doc.inProgress == False && t.doc.available == True && ProxyConfig(t) == Some(text)
        && t.configMaps == map[ProxyName(name) := text] && t.proxy == Proxy(Some(port), Some(port), 0)
  {
    hide Play, Playable, Mounts, FirstReplica, FirstPublished, ProxyName;
    var s, moves := Fresh(name, [a]), FirstReplica(name, config, a);
    FirstReplicaPlays(name, config, a, [a]);
    FirstPublishes(Play(s, moves), name, text, port);
    Then(s, moves, FirstPublished(name, text, port));
  }

  /** When nothing fails, it reconciles. */
  lemma FirstRunReconciles(name: string, user: UserConfig, config: ServerConfig, a: Pvc)
    requires ServerConfigOf(user.server, user.secrets) == Some(config)
    ensures var s, moves := Fresh(name, [a]), FirstRun(name, config, SavedText(user, name, [a], config), ProxyPort(user), a);
      && Empty(s) && Playable(s, moves) && Mounts(moves) == MountRequests(a, {}, [a])
      && Reconciled(s, Play(s, moves), user, Course([a], config, a, [], s))
  {
    hide Play, Playable, Mounts, FirstRun, SavedText, ProxyPort, ReplicaName, Missing, Reconciled, ProxyName, ProxyConfig;
    var s, text := Fresh(name, [a]), SavedText(user, name, [a], config);
    FirstRunPlays(name, config, text, ProxyPort(user), a);
    var u := Play(s, FirstRun(name, config, text, ProxyPort(user), a));
    IsFirst(s, u.(doc := u.doc.(inProgress := True, available := Unset), configMaps := map[], proxy := Proxy(None, None, 0)), u,
            user, config, a);
  }

  lemma IsFirst(s: State, t: State, u: State, user: UserConfig, config: ServerConfig, a: Pvc)
    requires s == Fresh(s.name, [a]) && One(t, s.name, config, a, [a], Unset)
    requires u == t.(doc := u.doc, configMaps := u.configMaps, proxy := u.proxy)
    requires u.configMaps == t.configMaps[ProxyName(s.name) := SavedText(user, s.name, [a], config)]
    requires u.proxy == Proxy(Some(ProxyPort(user)), Some(ProxyPort(user)), 0)
    requires ServerConfigOf(user.server, user.secrets) == Some(config)
    ensures Reconciled(s, u, user, Course([a], config, a, [], s))
  {
    hide Missing, SavedText, ProxyPort, ReplicaName, ProxyName, SeedConfigMapName, VolumeOf;
    MissingOfOne(a, {});
    assert SetOf([a]) == {a} && [a][1..] == [] && SetOf<Pvc>([]) == {};
    assert Renewed([a], a) == {a};
    var maps := {SeedConfigMapName(s.name), ProxyName(s.name)};
    assert u.configMaps - maps == map[] && s.configMaps - maps == map[];
    assert forall p: Pvc :: VolumeOf(u, p) == VolumeOf(s, p) by { NoVolumes(s, u); }
  }

  lemma NoVolumes(s: State, t: State)
    requires s.volumes == t.volumes
    ensures forall p: Pvc :: VolumeOf(t, p) == VolumeOf(s, p)
  {
  }

  /* ---- a lost record ---- */

  /** The first run for [a, b], up to a seed job whose first pod fails: the run ends with an error. */
  function FailingRun(name: string, config: ServerConfig, a: Pvc, b: Pvc): seq<Move> {
    FirstReplica(name, config, a) + Command(name, config, a, b) + Stop(a) + [Moved(StopPod(a))] + SeedStart(name, a, b)
    + [Moved(RetryJob(b))] + [Asked(DeleteConfigMap(SeedConfigMapName(name)))]
  }

  lemma FailingRunPlays(name: string, config: ServerConfig, a: Pvc, b: Pvc)
    requires a != b
    ensures var s, moves := Fresh(name, [a, b]), FailingRun(name, config, a, b);
      && Playable(s, moves) && Mounts(moves) == [CreateReplicaSet(a), DeleteReplicaSet(a), CreateJob(a, b)]
      && var t := Play(s, moves);
        && t.doc.inProgress == True && t.doc.available == Unset && t.doc.pvcs == [a, b]
        && t.replicaSets == {} && t.pods == map[] && t.jobs.Keys == {b} && Seeding(t, b) && t.jobs[b].source == a
  {
    hide Play, Playable, Mounts, FirstReplica, Command, Stop, SeedStart, SeedConfigMapName, VolumeOf;
    var s := Fresh(name, [a, b]);
    var moves := FirstReplica(name, config, a);
    FirstReplicaPlays(name, config, a, [a, b]);
    CommandPlays(Play(s, moves), name, config, a, b);
    Then(s, moves, Command(name, config, a, b));
    moves := moves + Command(name, config, a, b);
    Stops(Play(s, moves), a);
    Then(s, moves, Stop(a));
    moves := moves + Stop(a);
    var t;
    moves, t := Go(s, moves, Play(s, moves), Moved(StopPod(a)));
    SeedStarts(t, name, a, b);
    Then(s, moves, SeedStart(name, a, b));
    moves := moves + SeedStart(name, a, b);
    moves, t := Go(s, moves, Play(s, moves), Moved(RetryJob(b)));
    moves, t := Go(s, moves, t, Asked(DeleteConfigMap(SeedConfigMapName(name))));
  }

  /** The next run: it marks the document, and starts with the first replica, which it does not find. */
  function NextRun(a: Pvc): seq<Move> {
    Begin(Unset) + [Asked(CreateReplicaSet(a))]
  }

  lemma RequestsOfTwo(a: Pvc, b: Pvc)
    ensures [CreateReplicaSet(a), DeleteReplicaSet(a), CreateJob(a, b)] <= MountRequests(a, {}, [a, b])
    ensures [DeleteReplicaSet(a), CreateJob(a, b)] <= MountRequests(a, {a}, [b])
    ensures [DeleteReplicaSet(a), CreateJob(a, b), CreateReplicaSet(b), CreateReplicaSet(a)] == MountRequests(a, {a}, [b])
    ensures [DeleteReplicaSet(a), CreateJob(a, b), CreateReplicaSet(b)] <= MountRequests(a, {a}, [b])
    ensures [CreateReplicaSet(a)] <= MountRequests(a, {}, [a, b]) && [CreateReplicaSet(a)] == MountRequests(a, {}, [a])
  {
    assert [a, b][1..] == [b];
    assert SeedRequests(a, [b]) == [CreateJob(a, b)] && StartRequests([b]) == [CreateReplicaSet(b)];
  }

  /**
   * A first run which fails while it seeds, and whose record is lost, leaves a state which looks like a start, for Available
   * has never been set, and which is not safe: the next run's first request breaks volume exclusion.
   */
  lemma LostRecordBreaks(name: string, config: ServerConfig, a: Pvc, b: Pvc)
    requires a != b
    ensures var s, moves := Fresh(name, [a, b]), FailingRun(name, config, a, b);
      && Empty(s) && Playable(s, moves + NextRun(a))
      && Mounts(moves) <= MountRequests(a, {}, [a, b]) && Mounts(NextRun(a)) <= MountRequests(a, {}, [a, b])
      && var t := Play(s, moves);
        && Sound(t) && Exclusive(t) && t.doc.available == Unset
        && !SafeStart(t, t.pods.Keys, Missing(t.doc.pvcs, t.pods.Keys))
    ensures !Exclusive(Play(Fresh(name, [a, b]), FailingRun(name, config, a, b) + NextRun(a)))
  {
    hide Play, Playable, Mounts, FailingRun, Begin;
    FailingRunPlays(name, config, a, b);
    RequestsOfTwo(a, b);
    MissingOfTwo(a, b);
    var s, moves := Fresh(name, [a, b]), FailingRun(name, config, a, b);
    var t := Play(s, moves);
    assert t.jobs[b].active;
    Begins(t, Unset);
    var next, u := Go(t, Begin(Unset), Play(t, Begin(Unset)), Asked(CreateReplicaSet(a)));
    Then(s, moves, next);
    assert u.jobs[b].active && u.jobs[b].source == a && a in u.replicaSets;
  }

  /* ---- a stop which is not seen ---- */

  /** A second run, from the edit of the document to the deletion of a's ReplicaSet. */
  function ToTheStop(name: string, config: ServerConfig, a: Pvc, b: Pvc, replaced: bool): seq<Move> {
    SecondListed(a, b, replaced) + Command(name, config, a, b) + Stop(a)
  }

  /** The state after FirstRun. */
  predicate AfterFirst(s: State, name: string, config: ServerConfig, a: Pvc) {
    && s.name == name && s.doc.inProgress == False && s.doc.available == True
    && s.replicaSets == {a} && s.pods == map[a := Pod("x", Running(true, 0))]
    && s.services == map[a := Service(config.port, a)] && s.strays == {} && s.jobs == map[] && s.volumes == map[]
  }

  lemma ComesToTheStop(s: State, name: string, config: ServerConfig, a: Pvc, b: Pvc, replaced: bool)
    requires a != b && AfterFirst(s, name, config, a)
    ensures Playable(s, ToTheStop(name, config, a, b, replaced))
    ensures Mounts(ToTheStop(name, config, a, b, replaced)) == [DeleteReplicaSet(a)]
    ensures var t := Play(s, ToTheStop(name, config, a, b, replaced));
      && t.name == name && t.doc.pvcs == [a, b] && t.doc.inProgress == True && t.doc.available == True
      && t.replicaSets == {} && t.pods.Keys == {a} && t.pods[a].suffix == (if replaced then "y" else "x") && t.jobs == map[]
      && t.services == map[] && t.strays == {}
  {
    hide Play, Playable, Mounts, SecondListed, Command, Stop;
    var moves := SecondListed(a, b, replaced);
    SecondIsListed(s, a, b, replaced);
    CommandPlays(Play(s, moves), name, config, a, b);
    Then(s, moves, Command(name, config, a, b));
    moves := moves + Command(name, config, a, b);
    Stops(Play(s, moves), a);
    Then(s, moves, Stop(a));
  }

  /**
   * The operator has found the pod a-x, and waits for it to be gone. When that pod has been replaced, it is, although the other
   * one runs; and when it has not, a failed request is taken for that. Either way the seed job mounts a volume in use.
   */
  lemma UnseenStopBreaks(name: string, config: ServerConfig, text: string, port: int, a: Pvc, b: Pvc, replaced: bool)
    requires a != b
    ensures var s, first := Fresh(name, [a]), FirstRun(name, config, text, port, a);
      var second := ToTheStop(name, config, a, b, replaced);
      && Empty(s) && Playable(s, first + second + SeedStart(name, a, b))
      && Mounts(first) == MountRequests(a, {}, [a]) && Mounts(second + SeedStart(name, a, b)) <= MountRequests(a, {a}, [b])
      && !Exclusive(Play(s, first + second + SeedStart(name, a, b)))
      && var t := Play(s, first + second);
        a in t.pods && (Present(t, Own(a, "x")) <==> !replaced) && (Awaited(t, a, Own(a, "x")) <==> !replaced)
  {
    hide Play, Playable, Mounts, FirstRun, ToTheStop, SeedStart, MountRequests, ProxyConfig, VolumeOf;
    var s, moves := Fresh(name, [a]), FirstRun(name, config, text, port, a);
    var second := ToTheStop(name, config, a, b, replaced);
    RequestsOfTwo(a, b);
    FirstRunPlays(name, config, text, port, a);
    ComesToTheStop(Play(s, moves), name, config, a, b, replaced);
    Then(s, moves, second);
    SeedStarts(Play(s, moves + second), name, a, b);
    Then(Play(s, moves), second, SeedStart(name, a, b));
    Then(s, moves + second, SeedStart(name, a, b));
    var u := Play(s, moves + second + SeedStart(name, a, b));
    assert u.jobs[b].active && u.jobs[b].source == a && a in u.pods;
  }

  /* ---- a ReplicaSet without a pod ---- */

  /** The second run goes on until b's ReplicaSet is there; its pod does not show up in time, and the source panics. */
  function PodlessRun(name: string, config: ServerConfig, a: Pvc, b: Pvc): seq<Move> {
    ToTheStop(name, config, a, b, false) + [Moved(StopPod(a))] + SeedStart(name, a, b) + SeedDone(name, b)
    + [Asked(CreateReplicaSet(b))]
  }

  lemma PodlessRunPlays(s: State, name: string, config: ServerConfig, a: Pvc, b: Pvc)
    requires a != b && AfterFirst(s, name, config, a)
    ensures Playable(s, PodlessRun(name, config, a, b))
    ensures Mounts(PodlessRun(name, config, a, b)) == [DeleteReplicaSet(a), CreateJob(a, b), CreateReplicaSet(b)]
    ensures var t := Play(s, PodlessRun(name, config, a, b));
      && t.name == name && t.doc.pvcs == [a, b] && t.doc.inProgress == True && t.doc.available == True
      && t.replicaSets == {b} && t.pods == map[] && t.services == map[] && t.jobs.Keys == {b} && !Seeding(t, b)
  {
    hide Play, Playable, Mounts, ToTheStop, SeedStart, SeedDone, VolumeOf, SeedConfigMapName;
    var moves, t := ToTheStop(name, config, a, b, false), s;
    ComesToTheStop(s, name, config, a, b, false);
    moves, t := Go(s, moves, Play(s, moves), Moved(StopPod(a)));
    SeedStarts(t, name, a, b);
    Then(s, moves, SeedStart(name, a, b));
    moves := moves + SeedStart(name, a, b);
    SeedIsDone(Play(s, moves), name, b);
    Then(s, moves, SeedDone(name, b));
    moves := moves + SeedDone(name, b);
    moves, t := Go(s, moves, Play(s, moves), Asked(CreateReplicaSet(b)));
  }

  /** The next run finds no pod, brings up a, and seeds b from it, once more. */
  function AnotherRun(name: string, config: ServerConfig, a: Pvc, b: Pvc): seq<Move> {
    Begin(True) + Start(name, config, a, "z") + Command(name, config, a, b) + Stop(a) + [Moved(StopPod(a))] + [Moved(ExpireJob(b))]
    + SeedStart(name, a, b)
  }

  lemma AnotherRunPlays(s: State, name: string, config: ServerConfig, a: Pvc, b: Pvc)
    requires a != b && s.name == name && s.replicaSets == {b} && s.pods == map[] && s.services == map[] && !Seeding(s, b)
    ensures Playable(s, AnotherRun(name, config, a, b))
    ensures Mounts(AnotherRun(name, config, a, b)) == [CreateReplicaSet(a), DeleteReplicaSet(a), CreateJob(a, b)]
    ensures var t := Play(s, AnotherRun(name, config, a, b)); t.replicaSets == {b} && Seeding(t, b)
  {
    hide Play, Playable, Mounts, Begin, Start, Command, Stop, SeedStart, VolumeOf;
    var moves := Begin(True);
    Begins(s, True);
    Starts(Play(s, moves), name, config, a, "z");
    Then(s, moves, Start(name, config, a, "z"));
    moves := moves + Start(name, config, a, "z");
    CommandPlays(Play(s, moves), name, config, a, b);
    Then(s, moves, Command(name, config, a, b));
    moves := moves + Command(name, config, a, b);
    Stops(Play(s, moves), a);
    Then(s, moves, Stop(a));
    moves := moves + Stop(a);
    var t;
    moves, t := Go(s, moves, Play(s, moves), Moved(StopPod(a)));
    moves, t := Go(s, moves, t, Moved(ExpireJob(b)));
    SeedStarts(t, name, a, b);
    Then(s, moves, SeedStart(name, a, b));
  }

  /**
   * A run which ends while b's ReplicaSet has no pod yet leaves a quiet state; the next run does not find b, takes it for new,
   * and seeds its volume, which the ReplicaSet mounts.
   */
  lemma PodlessReplicaBreaks(name: string, config: ServerConfig, text: string, port: int, a: Pvc, b: Pvc)
    requires a != b
    ensures var s, first := Fresh(name, [a]), FirstRun(name, config, text, port, a);
      var second, third := PodlessRun(name, config, a, b), AnotherRun(name, config, a, b);
      && Empty(s) && Playable(s, first + second + third)
      && Mounts(second) <= MountRequests(a, {a}, [b]) && Mounts(third) <= MountRequests(a, {}, [a, b])
      && !Exclusive(Play(s, first + second + third))
      && var t := Play(s, first + second);
        && Quiet(t) && Exclusive(t) && t.doc.available == True && t.pods == map[] && Missing(t.doc.pvcs, t.pods.Keys) == [a, b]
        && !SafeStart(t, t.pods.Keys, [a, b])
  {
    hide Play, Playable, Mounts, FirstRun, PodlessRun, AnotherRun, MountRequests, ProxyConfig, Missing;
    var s, first := Fresh(name, [a]), FirstRun(name, config, text, port, a);
    var second, third := PodlessRun(name, config, a, b), AnotherRun(name, config, a, b);
    RequestsOfTwo(a, b);
    MissingOfTwo(a, b);
    FirstRunPlays(name, config, text, port, a);
    PodlessRunPlays(Play(s, first), name, config, a, b);
    Then(s, first, second);
    var t := Play(s, first + second);
    assert t.pods.Keys == {} && t.doc.pvcs == [a, b];
    AnotherRunPlays(t, name, config, a, b);
    Then(s, first + second, third);
    assert b in SetOf([a, b][1..]) by { assert [a, b][1..] == [b]; }
    var u := Play(s, first + second + third);
    assert u.jobs[b].active && b in u.replicaSets;
  }

  /* ---- successes which do not reconcile ---- */

  /** A first run for [a] whose ReplicaSet is refused: it goes on with the pod of a deployment called web. */
  function RefusedRun(name: string, config: ServerConfig, text: string, port: int, a: Pvc): seq<Move> {
    Begin(Unset) + [Refused(CreateReplicaSet(a))] + [Asked(CreateService("web", a, config.port))] + FirstPublished(name, text, port)
  }

  lemma WebIsNoReplica(name: string, suffix: Suffix)
    ensures !IsReplicaName(name, "web") && !Lookalike(name, PodName("web", suffix))
    ensures DeploymentName(PodName("web", suffix)) == "web"
  {
    if IsReplicaName(name, "web") {
      ReplicaNamesHaveDash(name, "web");
    }
  }

  lemma ReplicaNamesHaveDash(directory: string, name: string)
    requires IsReplicaName(directory, name)
    ensures '-' in name
  {
    assert ToLower(directory + "-")[|directory|] == '-';
    assert name[..|directory| + 1][|directory|] == name[|directory|];
  }

  /**
   * When it is ready, the document becomes available with no ReplicaSet at all: where no other pod than its own is ever taken
   * for a ReplicaSet's, a success reconciles exactly when none was refused (Controller.SucceedsExactlyWhen).
   */
  lemma RefusedRunSucceeds(name: string, config: ServerConfig, text: string, port: int, a: Pvc, suffix: Suffix)
    ensures var s, moves := Fresh(name, [a]), RefusedRun(name, config, text, port, a);
      && Empty(s) && Playable(s, moves) && Mounts(moves) == MountRequests(a, {}, [a])
      && var t := Play(s, moves);
        && t.doc.pvcs == [a] && t.doc.available == True && t.replicaSets == {} && t.services == map[] && "web" in t.strays
        && ProxyConfig(t) == Some(text) && !Faithful(s, t, SetOf([a]))
    ensures !Lookalike(name, PodName("web", suffix)) && DeploymentName(PodName("web", suffix)) == "web"
  {
    hide Play, Playable, Mounts, Begin, FirstPublished, IsReplicaName, Lookalike, PodName, DeploymentName, ProxyConfig, MountRequests;
    WebIsNoReplica(name, suffix);
    RequestsOfTwo(a, "b");
    var s := Fresh(name, [a]);
    Begins(s, Unset);
    var moves, t := Go(s, Begin(Unset), Play(s, Begin(Unset)), Refused(CreateReplicaSet(a)));
    moves, t := Go(s, moves, t, Asked(CreateService("web", a, config.port)));
    FirstPublishes(t, name, text, port);
    Then(s, moves, FirstPublished(name, text, port));
    assert a in SetOf([a]);
  }

  /** A second run for [a, b], to the end of the seeding, in which no command has run on a. */
  function MisledSeeding(name: string, a: Pvc, b: Pvc): seq<Move> {
    SecondListed(a, b, false) + Stop(a) + [Moved(StopPod(a))] + SeedStart(name, a, b) + SeedDone(name, b)
  }

  lemma MisledSeedingPlays(s: State, name: string, config: ServerConfig, a: Pvc, b: Pvc)
    requires a != b && AfterFirst(s, name, config, a)
    ensures Playable(s, MisledSeeding(name, a, b)) && Mounts(MisledSeeding(name, a, b)) == [DeleteReplicaSet(a), CreateJob(a, b)]
    ensures var t := Play(s, MisledSeeding(name, a, b));
      && t.name == name && t.doc.pvcs == [a, b] && t.doc.available == True
      && t.replicaSets == {} && t.pods == map[] && t.services == map[] && t.strays == {} && Quiet(t)
      && t.volumes - {b} == map[] && VolumeOf(t, b).agreements == multiset{}
  {
    hide Play, Playable, Mounts, SecondListed, Stop, SeedStart, SeedDone, SeedConfigMapName, VolumeOf;
    var moves := SecondListed(a, b, false);
    SecondIsListed(s, a, b, false);
    Stops(Play(s, moves), a);
    Then(s, moves, Stop(a));
    moves := moves + Stop(a);
    var t;
    moves, t := Go(s, moves, Play(s, moves), Moved(StopPod(a)));
    SeedStarts(t, name, a, b);
    Then(s, moves, SeedStart(name, a, b));
    moves := moves + SeedStart(name, a, b);
    SeedIsDone(Play(s, moves), name, b);
    Then(s, moves, SeedDone(name, b));
  }

  /**
   * A second run for [a, b], in which a's ReplicaSet cannot be read when its pod is looked for: the commands which are to link
   * it with b run on another pod of the namespace, and all else goes as it should.
   */
  function MisledRun(name: string, config: ServerConfig, text: string, port: int, a: Pvc, b: Pvc): seq<Move> {
    MisledSeeding(name, a, b) + Start(name, config, b, "z") + Start(name, config, a, "z") + NextPublished(name, text, port)
  }

  lemma MisledRunPlays(s: State, name: string, config: ServerConfig, text: string, port: int, a: Pvc, b: Pvc)
    requires a != b && AfterFirst(s, name, config, a)
    ensures Playable(s, MisledRun(name, config, text, port, a, b))
    ensures Mounts(MisledRun(name, config, text, port, a, b))
            == [DeleteReplicaSet(a), CreateJob(a, b), CreateReplicaSet(b), CreateReplicaSet(a)]
    ensures var t := Play(s, MisledRun(name, config, text, port, a, b));
      && t.name == name && t.doc.pvcs == [a, b] && t.doc.available == True && ProxyConfig(t) == Some(text)
      && t.replicaSets == t.pods.Keys == t.services.Keys == {a, b} && t.strays == {} && Quiet(t)
      && !Edge(t, a, b) && !Edge(t, b, a)
  {
    hide Play, Playable, Mounts, MisledSeeding, Start, NextPublished, ProxyConfig, VolumeOf;
    var moves := MisledSeeding(name, a, b);
    MisledSeedingPlays(s, name, config, a, b);
    var seeded := Play(s, moves);
    Starts(seeded, name, config, b, "z");
    Then(s, moves, Start(name, config, b, "z"));
    moves := moves + Start(name, config, b, "z");
    Starts(Play(s, moves), name, config, a, "z");
    Then(s, moves, Start(name, config, a, "z"));
    moves := moves + Start(name, config, a, "z");
    NextPublishes(Play(s, moves), name, text, port);
    Then(s, moves, NextPublished(name, text, port));
    moves := moves + NextPublished(name, text, port);
    NoEdges(seeded, Play(s, moves), a, b);
  }

  lemma NoEdges(s: State, t: State, a: Pvc, b: Pvc)
    requires a != b && t.volumes == s.volumes && s.volumes - {b} == map[] && VolumeOf(s, b).agreements == multiset{}
    ensures !Edge(t, a, b) && !Edge(t, b, a)
  {
    assert a in s.volumes ==> a in s.volumes - {b};
  }

  lemma NotReconciled(s: State, t: State, user: UserConfig, c: Course, a: Pvc, b: Pvc)
    requires a != b && s.replicaSets == {a} && Quiet(s) && !Edge(t, a, b) && c.pvcs == [a, b]
    ensures !Reconciled(s, t, user, c)
  {
    hide Missing, SavedText, ProxyConfig, ServiceMap, Sound, NoNewJobs, Still, Edge;
    MissingOne(a, b);
    assert SetOf([b]) == {b} && a in SetOf(c.pvcs);
  }

  lemma MissingOne(a: Pvc, b: Pvc)
    requires a != b
    ensures Missing([a, b], {a}) == [b]
  {
    hide Missing;
    MissingOfOne(a, {a});
    MissingLast([a], b, {a});
    assert [a] + [b] == [a, b] && [] + [b] == [b];
  }

  /** It succeeds, and no request was refused; but the two replicas are not linked, so it has not reconciled. */
  lemma MisledRunSucceeds(name: string, config: ServerConfig, text: string, next: string, port: int, a: Pvc, b: Pvc)
    requires a != b
    ensures var s, first := Fresh(name, [a]), FirstRun(name, config, text, port, a);
      var second := MisledRun(name, config, next, port, a, b);
      && Empty(s) && Playable(s, first + second) && Mounts(second) == MountRequests(a, {a}, [b])
      && var t, u := Play(s, first), Play(s, first + second);
        && u.doc.pvcs == [a, b] && u.doc.available == True && ProxyConfig(u) == Some(next)
        && u.replicaSets == u.pods.Keys == u.services.Keys == {a, b} && !Connected(u, u.replicaSets)
        && forall user, c: Course | c.pvcs == [a, b] :: !Reconciled(t, u, user, c)
  {
    hide Play, Playable, Mounts, FirstRun, MisledRun, MountRequests, ProxyConfig, Edge, Reconciled;
    var s, first := Fresh(name, [a]), FirstRun(name, config, text, port, a);
    var second := MisledRun(name, config, next, port, a, b);
    RequestsOfTwo(a, b);
    FirstRunPlays(name, config, text, port, a);
    MisledRunPlays(Play(s, first), name, config, next, port, a, b);
    Then(s, first, second);
    forall user, c: Course | c.pvcs == [a, b] ensures !Reconciled(Play(s, first), Play(s, first + second), user, c) {
      NotReconciled(Play(s, first), Play(s, first + second), user, c, a, b);
    }
  }

  /* ---- another port ---- */

  /** A second run for [a], with another configuration. */
  function NextConfig(name: string, text: string, port: int): seq<Move> {
    Begin(True) + NextPublished(name, text, port)
  }

  /** The user's configuration gets another port: the saved one then names a port on which the replica's service does not listen. */
  lemma PortChangeMissesTarget(name: string, config: ServerConfig, next: ServerConfig, text: string, user: UserConfig, port: int,
                               a: Pvc)
    requires config.port != next.port
    ensures var s, first := Fresh(name, [a]), FirstRun(name, config, text, port, a);
      var second := NextConfig(name, SavedText(user, name, [a], next), port);
      && Empty(s) && Playable(s, first + second) && Mounts(second) == MountRequests(a, {a}, [])
      && var t := Play(s, first + second);
        && t.doc.available == True && ProxyConfig(t) == Some(SavedText(user, name, [a], next)) && a in t.services
        && ReadTarget(Target(ReplicaName(name, a), next))
           == Some(Address(if next.secure then "ldaps" else "ldap", ReplicaName(name, a), next.port))
        && t.services[a].port != next.port
  {
    hide Play, Playable, Mounts, FirstRun, Begin, NextPublished, SavedText, Target, ReadTarget, ReplicaName, ProxyConfig;
    var s, first := Fresh(name, [a]), FirstRun(name, config, text, port, a);
    var text2 := SavedText(user, name, [a], next);
    FirstRunPlays(name, config, text, port, a);
    var t := Play(s, first);
    Begins(t, True);
    NextPublishes(Play(t, Begin(True)), name, text2, port);
    Then(t, Begin(True), NextPublished(name, text2, port));
    Then(s, first, NextConfig(name, text2, port));
    TargetReads(ReplicaName(name, a), next);
  }
}
