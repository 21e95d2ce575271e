/** The API server, as the operator sees it: one request at a time, each of which may fail, between steps of others. */
module Clusters {
  import opened Names
  import opened Documents
  import opened States

  const SEED_CONFIG := "seed: \n  replica: \n    clean: true\n"

  /** The ConfigMap which the seed jobs mount tells them to seed a clean replica. */
  predicate SeedsClean(s: State) {
    SeedConfigMapName(s.name) in s.configMaps && s.configMaps[SeedConfigMapName(s.name)] == SEED_CONFIG
  }

  /** A pod's name: a replica's, in its two parts, or that of any other pod of the namespace. */
  datatype PodId = Own(pvc: Pvc, suffix: Suffix) | Foreign(name: string)

  function PodText(directory: string, id: PodId): string {
    match id
    case Own(pvc, suffix) => PodName(ReplicaName(directory, pvc), suffix)
    case Foreign(name) => name
  }

  /** The pod of this name is there. */
  predicate Present(s: State, id: PodId) {
    id.Own? && id.pvc in s.pods && s.pods[id.pvc].suffix == id.suffix
  }

  datatype PodItem = PodItem(pvcLabel: Pvc, containerName: string)

  /** The isvd_manage_replica command: -r, -ap and -ar, with the values of their flags. */
  datatype Command =
    | Remove(id: string)
    | AddFromPrincipal(id: string, host: string, port: int, principalHost: string, principalPort: int, secure: bool)
    | AddFromReplica(id: string, host: string, port: int, supplier: string, secure: bool)

  /** What a command does to the volume of the pod on which it runs. */
  function Perform(v: Volume, c: Command): Volume {
    v.(agreements := v.agreements[c.id := if c.Remove? then 0 else v.agreements[c.id] + 1])
  }

  /* ---- requests ---- */

  /** The requests which change the cluster. */
  datatype Request =
    | WriteStatus(inProgress: Flag, available: Flag)
    | CreateReplicaSet(pvc: Pvc)
    | DeleteReplicaSet(pvc: Pvc)
    | CreateService(name: string, pvc: Pvc, port: int)
    | DeleteService(pvc: Pvc)
    | CreateJob(source: Pvc, dest: Pvc)
    | RunCommand(pvc: Pvc, command: Command)
    | PutConfigMap(name: string, value: string)
    | DeleteConfigMap(name: string)
    | PutProxy(proxy: Proxy)

  /** What a request does when it succeeds. */
  function Apply(s: State, r: Request): State {
    match r
    case WriteStatus(inProgress, available) =>
      s.(doc := s.doc.(inProgress := inProgress, available := available, version := s.doc.version + 1))
    case CreateReplicaSet(p) => s.(replicaSets := s.replicaSets + {p})
    case DeleteReplicaSet(p) => s.(replicaSets := s.replicaSets - {p})
    case CreateService(name, p, port) =>
      if IsReplicaName(s.name, name) then s.(services := s.services[PvcNamed(s.name, name) := Service(port, p)])
      else s.(strays := s.strays + {name})
    case DeleteService(p) => s.(services := s.services - {p})
    case CreateJob(source, dest) => s.(jobs := s.jobs[dest := Job(source, 0, 0, true, VolumeOf(s, dest).seeds)])
    case RunCommand(p, c) => s.(volumes := s.volumes[p := Perform(VolumeOf(s, p), c)])
    case PutConfigMap(name, value) => s.(configMaps := s.configMaps[name := value])
    case DeleteConfigMap(name) => s.(configMaps := s.configMaps - {name})
    case PutProxy(proxy) => s.(proxy := proxy)
  }

  /** A request which succeeds has been performed, and one which fails may have been. */
  predicate Answered(ok: bool, s: State, t: State, r: Request) {
    t == Apply(s, r) || (!ok && t == s)
  }

  /** The request mounts nothing which an active job mounts, and writes nothing which is mounted. */
  ghost predicate Safe(s: State, r: Request) {
    match r
    case CreateReplicaSet(p) => Untouched(s, p)
    case CreateJob(source, dest) =>
      Unmounted(s, source) && Unmounted(s, dest) && source != dest && !Seeding(s, source) && Untouched(s, dest)
    case _ => true
  }

  /** A request keeps volume exclusion exactly when it is safe; only creating a ReplicaSet or a job can be unsafe. */
  lemma SafeIsExact(s: State, r: Request)
    requires r.CreateJob? ==> r.dest !in s.jobs
    requires Exclusive(s)
    ensures Exclusive(Apply(s, r)) <==> Safe(s, r)
  {
    hide Exclusive, Safe, Apply;
    if !Safe(s, r) {
      UnsafeBreaks(s, r);
    } else if r.CreateReplicaSet? {
      SafeReplicaSet(s, r.pvc);
    } else if r.CreateJob? {
      SafeJob(s, r.source, r.dest);
    } else {
      OtherIsSafe(s, r);
    }
  }

  lemma SafeReplicaSet(s: State, p: Pvc)
    requires Exclusive(s) && Safe(s, CreateReplicaSet(p))
    ensures Exclusive(Apply(s, CreateReplicaSet(p)))
  {
    var t := Apply(s, CreateReplicaSet(p));
    assert t.jobs == s.jobs && t.pods == s.pods;
    forall q | q in t.jobs && t.jobs[q].active
      ensures Unmounted(t, q) && Unmounted(t, t.jobs[q].source) && !Seeding(t, t.jobs[q].source)
    {
      assert q != p && s.jobs[q].source != p;
    }
  }

  lemma SafeJob(s: State, source: Pvc, dest: Pvc)
    requires Exclusive(s) && Safe(s, CreateJob(source, dest)) && dest !in s.jobs
    ensures Exclusive(Apply(s, CreateJob(source, dest)))
  {
    var t := Apply(s, CreateJob(source, dest));
    assert t.replicaSets == s.replicaSets && t.pods == s.pods;
    forall q | q in t.jobs && t.jobs[q].active
      ensures Unmounted(t, q) && Unmounted(t, t.jobs[q].source) && !Seeding(t, t.jobs[q].source)
    {
      if q != dest {
        assert t.jobs[q] == s.jobs[q] && s.jobs[q].source != dest;
      }
    }
    hide VolumeOf;
  }

  lemma OtherIsSafe(s: State, r: Request)
    requires Exclusive(s) && !r.CreateReplicaSet? && !r.CreateJob?
    ensures Exclusive(Apply(s, r))
  {
    hide Apply, VolumeOf;
    OtherMounts(s, r);
  }

  lemma OtherMounts(s: State, r: Request)
    requires !r.CreateReplicaSet? && !r.CreateJob?
    ensures var t := Apply(s, r); t.jobs == s.jobs && t.pods == s.pods && t.replicaSets <= s.replicaSets
  {
    hide VolumeOf, Perform, IsReplicaName, PvcNamed;
    match r
    case WriteStatus(a, b) =>
    case CreateService(a, b, c) =>
    case RunCommand(a, b) =>
    case PutConfigMap(a, b) =>
    case _ =>
  }

  lemma UnsafeBreaks(s: State, r: Request)
    requires r.CreateJob? ==> r.dest !in s.jobs
    requires !Safe(s, r)
    ensures !Exclusive(Apply(s, r))
  {
    var t := Apply(s, r);
    if r.CreateJob? {
      assert t.jobs[r.dest].active;
      if Unmounted(s, r.source) && Unmounted(s, r.dest) && r.source != r.dest && !Seeding(s, r.source) {
        var q :| q in s.jobs && s.jobs[q].active && s.jobs[q].source == r.dest;
        assert t.jobs[q] == s.jobs[q];
      }
    } else if !Seeding(s, r.pvc) {
      var q :| q in s.jobs && s.jobs[q].active && s.jobs[q].source == r.pvc;
      assert t.jobs[q] == s.jobs[q];
    }
  }

  lemma ApplySeeds(s: State, r: Request, p: Pvc)
    ensures VolumeOf(Apply(s, r), p).seeds == VolumeOf(s, p).seeds
  {
  }

  lemma ApplyKeepsInv(s: State, r: Request)
    requires Inv(s)
    ensures Inv(Apply(s, r))
  {
    hide VolumeOf, Accounts, Apply;
    var t := Apply(s, r);
    ApplyDoc(s, r);
    forall p | p in t.jobs ensures Accounts(t.jobs[p], VolumeOf(t, p)) {
      ApplyAccounts(s, r, p);
    }
  }

  lemma ApplyDoc(s: State, r: Request)
    ensures Apply(s, r).doc.pvcs == s.doc.pvcs
    ensures Apply(s, r).jobs
            == if r.CreateJob? then s.jobs[r.dest := Job(r.source, 0, 0, true, VolumeOf(s, r.dest).seeds)] else s.jobs
  {
    hide VolumeOf, Perform, IsReplicaName, PvcNamed;
    match r
    case WriteStatus(a, b) =>
    case CreateService(a, b, c) =>
    case CreateJob(a, b) =>
    case RunCommand(a, b) =>
    case PutConfigMap(a, b) =>
    case _ =>
  }

  lemma ApplyAccounts(s: State, r: Request, p: Pvc)
    requires p in Apply(s, r).jobs && (p in s.jobs ==> Accounts(s.jobs[p], VolumeOf(s, p)))
    ensures Accounts(Apply(s, r).jobs[p], VolumeOf(Apply(s, r), p))
  {
    hide VolumeOf, Apply;
    ApplyDoc(s, r);
    ApplySeeds(s, r, p);
  }

  lemma ApplyKeepsSingle(s: State, r: Request)
    requires Single(s.volumes)
    requires r.RunCommand? ==> r.command.Remove? || VolumeOf(s, r.pvc).agreements[r.command.id] == 0
    ensures Single(Apply(s, r).volumes)
  {
  }

  lemma MountKeeps(s: State, r: Request)
    requires Inv(s) && (r.CreateReplicaSet? || r.CreateJob?) && (r.CreateJob? ==> r.dest !in s.jobs)
    ensures Inv(Apply(s, r)) && Apply(s, r).name == s.name
    ensures if Safe(s, r) then Exclusive(s) ==> Exclusive(Apply(s, r)) else !Exclusive(Apply(s, r))
    ensures Single(s.volumes) ==> Single(Apply(s, r).volumes)
    ensures Next(s, Asked(r)) == Apply(s, r)
  {
    hide Exclusive, Safe, Inv;
    ApplyKeepsInv(s, r);
    if Exclusive(s) {
      SafeIsExact(s, r);
    }
    if !Safe(s, r) {
      UnsafeBreaks(s, r);
    }
  }

  lemma OtherKeepsInv(s: State, r: Request)
    requires Inv(s) && !r.CreateReplicaSet? && !r.CreateJob?
    ensures Inv(Apply(s, r)) && Apply(s, r).name == s.name && Next(s, Asked(r)) == Apply(s, r)
    ensures Exclusive(s) ==> Exclusive(Apply(s, r))
  {
    hide Exclusive, Inv;
    ApplyKeepsInv(s, r);
    if Exclusive(s) {
      SafeIsExact(s, r);
    }
  }

  lemma ReactKeeps(s: State, a: Action)
    requires Inv(s)
    ensures var t := Next(s, Moved(a));
      && t == React(s, a) && Inv(t) && t.name == s.name && (Exclusive(s) ==> Exclusive(t))
      && (Single(s.volumes) ==> Single(t.volumes)) && Later(s, t)
  {
    hide Inv, Exclusive, Single, React;
    ReactKeepsInv(s, a);
    if Exclusive(s) {
      ReactKeepsExclusive(s, a);
    }
    if Single(s.volumes) {
      ReactKeepsSingle(s, a);
    }
    ReactIsEnvEffect(s, a);
    EnvIsLater(s, React(s, a));
  }

  lemma OtherKeeps(s: State, r: Request)
    requires Inv(s) && !r.CreateReplicaSet? && !r.CreateJob?
    requires r.RunCommand? && Single(s.volumes) ==> r.command.Remove? || VolumeOf(s, r.pvc).agreements[r.command.id] == 0
    ensures Inv(Apply(s, r)) && Apply(s, r).name == s.name && Next(s, Asked(r)) == Apply(s, r)
    ensures Exclusive(s) ==> Exclusive(Apply(s, r))
    ensures Single(s.volumes) ==> Single(Apply(s, r).volumes)
  {
    hide Exclusive, Inv, Single;
    ApplyKeepsInv(s, r);
    if Exclusive(s) {
      SafeIsExact(s, r);
    }
    if Single(s.volumes) {
      ApplyKeepsSingle(s, r);
    }
  }

  /* ---- what has happened ---- */

  /** How a procedure ends. Lost: the source's process panics. */
  datatype Outcome = Ok | Err | Lost

  /**
   * What went wrong: a read of the document, the listing, a write of the status or any other request whose failure is not
   * ignored was answered with an error, a wait ended badly, a text could not be converted, no pod was found, or its name
   * has no dash. Leftover: the seed ConfigMap was not deleted, which is ignored.
   */
  datatype Cause =
    | NoDocument
    | NoListing
    | NoStatus
    | NoAnswer
    | TimeOver
    | PodFailed(pod: PodId)
    | JobFailed(dest: Pvc)
    | NotConverted
    | NoPod
    | NoDash(pod: PodId)
    | Leftover

  /** The pod will not become ready by itself. */
  predicate Broken(status: PodStatus) {
    status.Finished? || (status.Running? && !status.ready && status.restarts > 3)
  }

  /** What the operator may take for this cause; errors are recorded where the request is answered. */
  predicate Evident(s: State, cause: Cause) {
    match cause
    case PodFailed(id) => id.Own? ==> Present(s, id) && Broken(s.pods[id.pvc].status)
    case JobFailed(dest) => dest in s.jobs && s.jobs[dest].failed > 0
    case NoDash(id) => '-' !in PodText(s.name, id)
    case _ => cause in {TimeOver, NotConverted, NoPod}
  }

  /** Asked: a request which was performed, whatever was answered. Refused: one which was not. Erred: something went wrong. */
  datatype Move = Start | Asked(request: Request) | Refused(request: Request) | Moved(action: Action) | Erred(cause: Cause)

  datatype Event = Event(move: Move, state: State)

  function Next(s: State, m: Move): State {
    match m
    case Start => s
    case Asked(r) => Apply(s, r)
    case Refused(r) => s
    case Moved(a) => React(s, a)
    case Erred(cause) => s
  }

  /** A successful command which added an agreement; the pod is a replica's, by its PVC, or some other one. */
  datatype Issue = Issue(pod: Option<Pvc>, dest: Pvc, command: Command)

  /** From the state number from on: these replicas are up, and the document and the proxy's configuration are among these. */
  datatype Watch = Watch(from: nat, keep: set<Pvc>, pinned: Option<Document>, configs: Option<set<Option<string>>>)

  /** A watch which is over. */
  datatype Window = Window(watch: Watch, to: nat)

  ghost predicate Kept(s: State, w: Watch) {
    && Up(s, w.keep)
    && (w.pinned.Some? ==> w.pinned.value == s.doc && s.doc.inProgress == True)
    && (w.configs.Some? ==> ProxyConfig(s) in w.configs.value)
  }

  ghost predicate Covers(trace: seq<Event>, w: Window) {
    w.to <= |trace| && forall i | w.watch.from <= i < w.to :: Kept(trace[i].state, w.watch)
  }

  lemma ReactKept(s: State, a: Action, w: Watch)
    requires Kept(s, w)
    ensures Kept(React(s, a), w)
  {
    hide React;
    ReactIsEnvEffect(s, a);
    EnvIsLater(s, React(s, a));
  }

  /**
   * Requests for ReplicaSets and services, how many of them found the name taken, and those for ReplicaSets and jobs
   * in their order.
   */
  datatype Requests = Requests(writes: nat, clashes: nat, mounts: seq<Request>)

  /** Agreements added, removals sent - on which pod, about whom -, and how many removals have failed. */
  datatype Commands = Commands(issued: multiset<Issue>, removals: multiset<(Option<Pvc>, Pvc)>, missed: nat)

  /**
   * slips: a ReplicaSet was deleted while its pod was another one than was going to be waited for.
   * misread: a failed request was taken for the absence of a pod which was there.
   * misled: a ReplicaSet which was there could not be read, and another pod than its own was taken for it.
   * refused: the creation of a ReplicaSet failed, and it was not there afterwards.
   */
  datatype Faults = Faults(slips: nat, misread: nat, misled: nat, refused: nat)

  const NO_FAULTS := Faults(0, 0, 0, 0)

  /** Nothing of this has happened, but that the creation of ReplicaSets may have failed. */
  predicate OnlyRefused(f: Faults) {
    f == NO_FAULTS.(refused := f.refused)
  }

  /** What of the past the callers of a method rely on. */
  datatype Past = Past(trace: seq<Event>, faults: Faults, breaches: nat)

  /** What the claims about a run speak of. */
  datatype Moment = Moment(state: State, past: Past, requests: Requests, commands: Commands)

  /** The trace has only grown, and nothing that went wrong is forgotten. */
  ghost predicate Onward(a: Past, b: Past) {
    && a.trace <= b.trace
    && a.faults.slips <= b.faults.slips && a.faults.misread <= b.faults.misread
    && a.faults.misled <= b.faults.misled && a.faults.refused <= b.faults.refused
    && a.breaches <= b.breaches
  }

  /* ---- what the trace tells ---- */

  /** Link: an agreement which is not the principal's. Serve: a service. Error and Panic: what ends a run. */
  datatype Kind = Link | Serve | Error | Panic | Rest

  function KindOf(m: Move): Kind {
    match m
    case Asked(r) => if r.CreateService? then Serve else if r.RunCommand? && r.command.AddFromReplica? then Link else Rest
    case Erred(cause) =>
      if cause.NoPod? || cause.NoDash? then Panic
      else if cause in {NoDocument, NoListing, NoStatus, Leftover} then Rest
      else Error
    case _ => Rest
  }

  ghost predicate Any(trace: seq<Event>, from: int, to: int, kind: Kind) {
    exists i | from <= i < to && 0 <= i < |trace| :: KindOf(trace[i].move) == kind
  }

  /** What a procedure may do of these: link, create services, neither or both. */
  datatype Scope = Silent | MayLink | MayServe | MayBoth

  function Wider(x: Scope, y: Scope): Scope {
    if x == Silent || x == y then y else if y == Silent then x else MayBoth
  }

  /** Between a and b something went wrong exactly when the outcome says so, and nothing was done out of scope. */
  ghost predicate Told(a: Past, b: Past, r: Outcome, x: Scope) {
    var from, to := |a.trace|, |b.trace|;
    && (r.Err? <==> Any(b.trace, from, to, Error)) && (r.Lost? <==> Any(b.trace, from, to, Panic))
    && (x in {Silent, MayServe} ==> !Any(b.trace, from, to, Link))
    && (x in {Silent, MayLink} ==> !Any(b.trace, from, to, Serve))
  }

  /** This went wrong between a and b. */
  ghost predicate Erring(a: Past, b: Past, cause: Cause) {
    exists i | |a.trace| <= i < |b.trace| :: b.trace[i].move == Erred(cause)
  }

  function Answer(ok: bool): Outcome {
    if ok then Ok else Err
  }

  function EndOf(m: Move): Outcome {
    match KindOf(m)
    case Error => Err
    case Panic => Lost
    case _ => Ok
  }

  function ScopeOf(m: Move): Scope {
    match KindOf(m)
    case Link => MayLink
    case Serve => MayServe
    case _ => Silent
  }

  lemma AnySplits(trace: seq<Event>, more: seq<Event>, from: nat, kind: Kind)
    requires trace <= more && from <= |trace|
    ensures Any(more, from, |more|, kind) <==> Any(trace, from, |trace|, kind) || Any(more, |trace|, |more|, kind)
  {
    hide KindOf;
    assert forall i | 0 <= i < |trace| :: trace[i] == more[i];
    if Any(more, from, |more|, kind) {
      var i :| from <= i < |more| && KindOf(more[i].move) == kind;
      assert i < |trace| ==> KindOf(trace[i].move) == kind;
    }
    if Any(trace, from, |trace|, kind) {
      var i :| from <= i < |trace| && KindOf(trace[i].move) == kind;
      assert KindOf(more[i].move) == kind;
    }
  }

  lemma AnErrorIs(cause: Cause)
    requires cause in {NoAnswer, TimeOver, NotConverted} || cause.PodFailed? || cause.JobFailed?
    ensures EndOf(Erred(cause)) == Err
  {
  }

  lemma APanicIs(cause: Cause)
    requires cause.NoPod? || cause.NoDash?
    ensures EndOf(Erred(cause)) == Lost
  {
  }

  /** Only the trace matters. */
  lemma ToldSame(a: Past, b: Past, c: Past)
    requires b.trace == c.trace
    ensures forall r, x :: Told(a, b, r, x) <==> Told(a, c, r, x)
  {
  }

  lemma ToldWider(a: Past, b: Past, r: Outcome, x: Scope)
    requires Told(a, b, r, Silent) || Told(a, b, r, x)
    ensures Told(a, b, r, x) && Told(a, b, r, MayBoth)
  {
  }

  lemma ToldBehind(a: Past, b: Past, c: Past)
    requires a.trace == b.trace
    ensures forall r, x :: Told(a, c, r, x) <==> Told(b, c, r, x)
  {
  }

  lemma ToldReflexive(a: Past, x: Scope)
    ensures Told(a, a, Ok, x)
  {
  }

  lemma ToldOnce(a: Past, b: Past, e: Event)
    requires b.trace == a.trace + [e]
    ensures Told(a, b, EndOf(e.move), ScopeOf(e.move))
  {
    assert forall kind :: Any(b.trace, |a.trace|, |b.trace|, kind) <==> b.trace[|a.trace|].move == e.move && KindOf(e.move) == kind;
  }

  lemma ToldTransitive(a: Past, b: Past, c: Past, r: Outcome, q: Outcome, x: Scope, y: Scope)
    requires a.trace <= b.trace <= c.trace && Told(a, b, r, x) && Told(b, c, q, y) && (r.Ok? || q.Ok?)
    ensures Told(a, c, if r.Ok? then q else r, Wider(x, y))
  {
    AnySplits(b.trace, c.trace, |a.trace|, Link);
    AnySplits(b.trace, c.trace, |a.trace|, Serve);
    AnySplits(b.trace, c.trace, |a.trace|, Error);
    AnySplits(b.trace, c.trace, |a.trace|, Panic);
    hide Any;
  }

  lemma ErringLonger(a: Past, b: Past, c: Past, cause: Cause)
    requires a.trace <= b.trace <= c.trace && (Erring(a, b, cause) || Erring(b, c, cause))
    ensures Erring(a, c, cause)
  {
    if Erring(a, b, cause) {
      var i :| |a.trace| <= i < |b.trace| && b.trace[i].move == Erred(cause);
      assert c.trace[i] == b.trace[i];
    }
  }

  predicate CalmPast(a: Past) {
    a.faults.slips == 0 && a.faults.misread == 0
  }

  predicate GoodPast(a: Past) {
    a.faults == NO_FAULTS
  }

  lemma OnwardReflexive(a: Past)
    ensures Onward(a, a)
    ensures forall x :: Told(a, a, Ok, x)
  {
    forall x ensures Told(a, a, Ok, x) {
      ToldReflexive(a, x);
    }
  }

  lemma OnwardFacts(a: Past, b: Past)
    requires Onward(a, b)
    ensures a.trace <= b.trace && (GoodPast(b) ==> GoodPast(a)) && (CalmPast(b) ==> CalmPast(a))
    ensures OnlyRefused(b.faults) ==> OnlyRefused(a.faults)
  {
  }

  lemma OnwardTransitive(a: Past, b: Past, c: Past)
    requires Onward(a, b) && Onward(b, c)
    ensures Onward(a, c)
    ensures (GoodPast(c) ==> GoodPast(b) && GoodPast(a)) && (CalmPast(c) ==> CalmPast(b) && CalmPast(a))
    ensures OnlyRefused(c.faults) ==> OnlyRefused(b.faults) && OnlyRefused(a.faults)
    ensures b.faults.refused == 0 && OnlyRefused(c.faults) ==> GoodPast(b)
    ensures c.faults.refused == a.faults.refused ==> b.faults.refused == a.faults.refused
    ensures c.faults == a.faults ==> b.faults == a.faults
    ensures forall r, q, x, y | Told(a, b, r, x) && Told(b, c, q, y) && (r.Ok? || q.Ok?) ::
      Told(a, c, if r.Ok? then q else r, Wider(x, y))
  {
    hide Told, Wider;
    forall r, q, x, y | Told(a, b, r, x) && Told(b, c, q, y) && (r.Ok? || q.Ok?)
      ensures Told(a, c, if r.Ok? then q else r, Wider(x, y))
    {
      ToldTransitive(a, b, c, r, q, x, y);
    }
  }

  lemma OnwardErring(a: Past, b: Past, c: Past, cause: Cause)
    requires Onward(a, b) && Onward(b, c) && (Erring(a, b, cause) || Erring(b, c, cause))
    ensures Erring(a, c, cause)
  {
    ErringLonger(a, b, c, cause);
  }

  /** Every state follows from the one before by one request or one step of another actor. */
  ghost predicate Linked(trace: seq<Event>) {
    forall i | 0 < i < |trace| :: trace[i].state == Next(trace[i - 1].state, trace[i].move)
  }

  ghost predicate AllInv(trace: seq<Event>, directory: string) {
    forall i | 0 <= i < |trace| :: trace[i].state.name == directory && Inv(trace[i].state)
  }

  ghost predicate AllExclusive(trace: seq<Event>) {
    forall i | 0 <= i < |trace| :: Exclusive(trace[i].state)
  }

  ghost predicate AllSingle(trace: seq<Event>) {
    forall i | 0 <= i < |trace| :: Single(trace[i].state.volumes)
  }

  /** Every state is what the moves made of it; volume exclusion holds in all of them exactly when no request broke it. */
  ghost predicate Sane(trace: seq<Event>, directory: string, breaches: nat, missed: nat) {
    && 0 < |trace| && Linked(trace) && AllInv(trace, directory)
    && (breaches == 0 <==> AllExclusive(trace))
    && (breaches == 0 && missed == 0 ==> AllSingle(trace))
  }

  ghost predicate Watched(trace: seq<Event>, watch: Watch, windows: seq<Window>) {
    watch.from < |trace| && Covers(trace, Window(watch, |trace|)) && forall w | w in windows :: Covers(trace, w)
  }

  lemma SaneFacts(trace: seq<Event>, directory: string, breaches: nat, missed: nat)
    requires Sane(trace, directory, breaches, missed)
    ensures var s := trace[|trace| - 1].state;
      && s.name == directory && Inv(s) && (breaches == 0 ==> Exclusive(s))
      && (breaches == 0 && missed == 0 ==> Single(s.volumes))
  {
  }

  lemma KeptFrom(trace: seq<Event>, directory: string, breaches: nat, missed: nat, w: Watch)
    requires Sane(trace, directory, breaches, missed) && Kept(trace[|trace| - 1].state, w)
    ensures 0 < |trace| && Kept(trace[|trace| - 1].state, w.(from := |trace| - 1))
  {
  }

  lemma SaneMore(trace: seq<Event>, directory: string, breaches: nat, missed: nat, m: Move, broken: bool)
    requires Sane(trace, directory, breaches, missed)
    requires var s := trace[|trace| - 1].state; var t := Next(s, m);
      && Inv(t) && t.name == directory
      && (if broken then !Exclusive(t) else Exclusive(s) ==> Exclusive(t))
      && (breaches == 0 && missed == 0 ==> Single(t.volumes))
    ensures var t := Next(trace[|trace| - 1].state, m);
      Sane(trace + [Event(m, t)], directory, breaches + if broken then 1 else 0, missed)
  {
    hide Inv, Exclusive, Single, Next;
    var s, t := trace[|trace| - 1].state, Next(trace[|trace| - 1].state, m);
    var more := trace + [Event(m, t)];
    assert forall i | 0 <= i < |trace| :: more[i] == trace[i];
    assert more[|trace|].state == t;
    if AllExclusive(more) {
      assert forall i | 0 <= i < |trace| :: trace[i].state == more[i].state;
    }
  }

  lemma CoversMore(trace: seq<Event>, w: Window, e: Event)
    requires Covers(trace, w)
    ensures Covers(trace + [e], w)
  {
  }

  lemma WatchedMore(trace: seq<Event>, watch: Watch, windows: seq<Window>, e: Event)
    requires Watched(trace, watch, windows) && Kept(e.state, watch)
    ensures Watched(trace + [e], watch, windows)
  {
    hide Kept;
    var more := trace + [e];
    assert forall i | 0 <= i < |trace| :: more[i] == trace[i];
    assert Covers(more, Window(watch, |more|));
    forall w | w in windows ensures Covers(more, w) {
      CoversMore(trace, w, e);
    }
  }

  lemma WatchedAnew(trace: seq<Event>, watch: Watch, windows: seq<Window>, anew: Watch)
    requires 0 < |trace| && Watched(trace, watch, windows)
    requires anew.from == |trace| - 1 && Kept(trace[|trace| - 1].state, anew)
    ensures Watched(trace, anew, windows + [Window(watch, |trace|)])
  {
  }

  /** The request keeps what is watched. */
  predicate KeepsWatch(s: State, r: Request, w: Watch) {
    match r
    case WriteStatus(_, _) => w.pinned == None
    case DeleteReplicaSet(p) => p !in w.keep
    case PutConfigMap(name, value) => name == ProxyName(s.name) && w.configs.Some? ==> Some(value) in w.configs.value
    case DeleteConfigMap(name) => name != ProxyName(s.name)
    case _ => true
  }

  lemma KeptAsked(s: State, r: Request, w: Watch)
    requires Kept(s, w) && KeepsWatch(s, r, w)
    ensures Kept(Apply(s, r), w)
  {
    hide VolumeOf, Perform, ProxyName;
  }

  lemma KeptLess(s: State, w: Watch, p: Pvc)
    requires Kept(s, w)
    ensures Kept(s, Watch(0, w.keep - {p}, w.pinned, w.configs))
  {
  }

  lemma KeptNarrow(s: State, w: Watch, keep: set<Pvc>, config: Option<string>)
    requires Kept(s, w) && keep <= w.keep && ProxyConfig(s) == config
    ensures Kept(s, Watch(0, keep, w.pinned, Some({config})))
  {
  }

  lemma KeptWide(s: State, w: Watch, keep: set<Pvc>, configs: set<Option<string>>)
    requires Kept(s, w) && Up(s, keep) && ProxyConfig(s) in configs
    ensures Kept(s, Watch(0, keep, w.pinned, Some(configs)))
  {
  }

  lemma SaneMissed(trace: seq<Event>, directory: string, breaches: nat, missed: nat, more: nat)
    requires Sane(trace, directory, breaches, missed) && missed <= more
    ensures Sane(trace, directory, breaches, more)
  {
  }

  lemma WatchedFacts(trace: seq<Event>, watch: Watch, windows: seq<Window>)
    requires Watched(trace, watch, windows)
    ensures 0 < |trace| && Kept(trace[|trace| - 1].state, watch)
  {
  }

  /** The log, with one more command. */
  ghost function Ran(log: Commands, id: PodId, c: Command, dest: Pvc, ok: bool): Commands {
    var pod := if id.Own? then Some(id.pvc) else None;
    if c.Remove? then log.(removals := log.removals + multiset{(pod, dest)}, missed := log.missed + if ok then 0 else 1)
    else log.(issued := log.issued + if ok then multiset{Issue(pod, dest, c)} else multiset{})
  }

  lemma NoClash(log: Requests, r: Request, written: bool)
    ensures Serving(log, false).clashes == log.clashes && Mounting(log, r, written, false).clashes == log.clashes
  {
  }

  /** A service of this name is there. */
  predicate Taken(s: State, name: string) {
    if IsReplicaName(s.name, name) then PvcNamed(s.name, name) in s.services else name in s.strays
  }

  /** The volume holds no agreement of this id. */
  ghost predicate Cleared(s: State, p: Pvc, id: string) {
    VolumeOf(s, p).agreements[id] == 0
  }

  lemma StillCleared(s: State, t: State, p: Pvc, id: string)
    requires Exclusive(s) && Later(s, t) && Cleared(s, p, id) && p in t.pods
    ensures Cleared(t, p, id)
  {
  }

  lemma RanMore(log: Commands, id: PodId, c: Command, dest: Pvc, ok: bool)
    ensures log.missed <= Ran(log, id, c, dest, ok).missed
  {
  }

  /** The log, with one more request which mounts something; written says whether it is for a ReplicaSet. */
  ghost function Mounting(log: Requests, r: Request, written: bool, taken: bool): Requests {
    Requests(log.writes + if written then 1 else 0, log.clashes + if taken then 1 else 0, log.mounts + [r])
  }

  /** The log, with one more request for a service. */
  ghost function Serving(log: Requests, taken: bool): Requests {
    log.(writes := log.writes + 1, clashes := log.clashes + if taken then 1 else 0)
  }

  class Cluster {
    const directory: string
    var state: State
    ghost var trace: seq<Event>
    ghost var watch: Watch
    ghost var windows: seq<Window>
    ghost var requests: Requests
    ghost var commands: Commands
    ghost var faults: Faults
    // The requests which broke volume exclusion.
    ghost var breaches: nat

    ghost predicate Valid()
      reads this
    {
      && Sane(trace, directory, breaches, commands.missed) && trace[|trace| - 1].state == state
      && Watched(trace, watch, windows)
    }

    lemma NameIsDirectory()
      requires Valid()
      ensures state.name == directory && (breaches == 0 ==> Exclusive(state)) && Distinct(state.doc.pvcs)
    {
    }

    lemma StateIsInv()
      requires Valid()
      ensures Inv(state)
    {
    }

    lemma LastState()
      requires Valid()
      ensures 0 < |trace| && trace[|trace| - 1].state == state
    {
    }

    ghost function Current(): Window
      reads this
    {
      Window(watch, |trace|)
    }

    ghost function SoFar(): Past
      reads this
    {
      Past(trace, faults, breaches)
    }

    ghost function Now(): Moment
      reads this
    {
      Moment(state, SoFar(), requests, commands)
    }

    /** Every stop of a replica went as the operator believes. */
    ghost predicate Calm()
      reads this
    {
      CalmPast(SoFar())
    }

    /** No such failure at all. */
    ghost predicate Good()
      reads this
    {
      GoodPast(SoFar())
    }

    /** Saving this under that name is what the watch allows. */
    ghost predicate MaySave(name: string, value: string)
      reads this
    {
      name == ProxyName(directory) && watch.configs.Some? ==> Some(value) in watch.configs.value
    }

    constructor (initial: State)
      requires Inv(initial) && Exclusive(initial) && Single(initial.volumes)
      ensures Valid() && state == initial && directory == initial.name && trace == [Event(Start, initial)]
      ensures watch == Watch(0, {}, None, None) && windows == []
      ensures requests == Requests(0, 0, []) && commands == Commands(multiset{}, multiset{}, 0)
      ensures faults == NO_FAULTS && breaches == 0
    {
      directory := initial.name;
      state := initial;
      trace, watch, windows := [Event(Start, initial)], Watch(0, {}, None, None), [];
      requests, commands := Requests(0, 0, []), Commands(multiset{}, multiset{}, 0);
      faults, breaches := NO_FAULTS, 0;
    }

    /** From here on, watch these replicas, this document and this configuration. */
    ghost method Look(keep: set<Pvc>, pinned: Option<Document>, configs: Option<set<Option<string>>>)
      requires Valid() && Kept(state, Watch(0, keep, pinned, configs))
      modifies this`watch, this`windows
      ensures Valid() && watch == Watch(|trace| - 1, keep, pinned, configs)
      ensures windows == old(windows) + [old(Current())] && SoFar() == old(SoFar())
    {
      hide Sane, Watched, Kept;
      KeptFrom(trace, directory, breaches, commands.missed, Watch(0, keep, pinned, configs));
      WatchedAnew(trace, watch, windows, Watch(|trace| - 1, keep, pinned, configs));
      windows := windows + [Current()];
      watch := Watch(|trace| - 1, keep, pinned, configs);
    }

    /** From here on, do not watch this one. */
    ghost method LookAway(p: Pvc)
      requires Valid()
      modifies this`watch, this`windows
      ensures Valid() && watch == old(watch).(from := |trace| - 1, keep := old(watch.keep) - {p})
      ensures windows == old(windows) + [old(Current())] && SoFar() == old(SoFar())
    {
      hide Sane, Watched, Kept;
      WatchedFacts(trace, watch, windows);
      KeptLess(state, watch, p);
      Look(watch.keep - {p}, watch.pinned, watch.configs);
    }

    /** From here on, watch fewer replicas, and this configuration. */
    ghost method Narrow(keep: set<Pvc>, config: Option<string>)
      requires Valid() && keep <= watch.keep && ProxyConfig(state) == config
      modifies this`watch, this`windows
      ensures Valid() && watch == Watch(|trace| - 1, keep, old(watch.pinned), Some({config}))
      ensures windows == old(windows) + [old(Current())] && SoFar() == old(SoFar())
    {
      hide Sane, Watched, Kept, ProxyConfig;
      WatchedFacts(trace, watch, windows);
      KeptNarrow(state, watch, keep, config);
      Look(keep, watch.pinned, Some({config}));
    }

    /** From here on, watch these replicas, and that the configuration is one of these. */
    ghost method Widen(keep: set<Pvc>, configs: set<Option<string>>)
      requires Valid() && Up(state, keep) && ProxyConfig(state) in configs
      modifies this`watch, this`windows
      ensures Valid() && watch == Watch(|trace| - 1, keep, old(watch.pinned), Some(configs))
      ensures windows == old(windows) + [old(Current())] && SoFar() == old(SoFar())
    {
      hide Sane, Watched, Kept, ProxyConfig, Up;
      WatchedFacts(trace, watch, windows);
      KeptWide(state, watch, keep, configs);
      Look(keep, watch.pinned, Some(configs));
    }

    ghost method Forget()
      requires Valid()
      modifies this`faults
      ensures Valid() && faults == NO_FAULTS
    {
      hide Sane, Watched;
      faults := NO_FAULTS;
    }

    ghost method Note(f: Faults)
      requires Valid()
      modifies this`faults
      ensures Valid() && faults == f
    {
      hide Sane, Watched;
      faults := f;
    }

    /** Something went wrong, which the trace records. */
    ghost method Record(cause: Cause)
      requires Valid()
      modifies this`trace
      ensures Valid() && Onward(old(SoFar()), SoFar()) && trace == old(trace) + [Event(Erred(cause), state)]
      ensures Told(old(SoFar()), SoFar(), EndOf(Erred(cause)), Silent) && Erring(old(SoFar()), SoFar(), cause)
    {
      hide Inv, Exclusive, Single, Kept, Sane, Watched, Told;
      ghost var p0, e := SoFar(), Event(Erred(cause), state);
      SaneFacts(trace, directory, breaches, commands.missed);
      WatchedFacts(trace, watch, windows);
      SaneMore(trace, directory, breaches, commands.missed, Erred(cause), false);
      WatchedMore(trace, watch, windows, e);
      trace := trace + [e];
      ToldOnce(p0, SoFar(), e);
      assert trace[|p0.trace|].move == Erred(cause);
    }

    /** The operator gives up for this cause. */
    ghost method GiveUp(cause: Cause)
      requires Valid() && Evident(state, cause)
      modifies this`trace
      ensures Valid() && Onward(old(SoFar()), SoFar())
      ensures Told(old(SoFar()), SoFar(), EndOf(Erred(cause)), Silent)
    {
      hide Valid, Told, Onward;
      Record(cause);
    }

    /** Stores what a move makes of the state. */
    method Store(m: Move)
      requires Valid() && Inv(Next(state, m)) && Next(state, m).name == directory && Kept(Next(state, m), watch)
      requires Exclusive(state) ==> Exclusive(Next(state, m))
      requires breaches == 0 && commands.missed == 0 ==> Single(Next(state, m).volumes)
      modifies this`state, this`trace
      ensures Valid() && state == Next(old(state), m) && trace == old(trace) + [Event(m, state)]
    {
      hide Inv, Exclusive, Single, Kept, Next, Sane, Watched;
      SaneMore(trace, directory, breaches, commands.missed, m, false);
      WatchedMore(trace, watch, windows, Event(m, Next(state, m)));
      state := Next(state, m);
      trace := trace + [Event(m, state)];
    }

    /** The same for a request which may break volume exclusion, which is counted. */
    method StoreMount(r: Request)
      requires Valid() && Kept(Apply(state, r), watch) && (r.CreateReplicaSet? || r.CreateJob?)
      requires r.CreateJob? ==> r.dest !in state.jobs
      modifies this`state, this`trace, this`breaches
      ensures Valid() && state == Apply(old(state), r) && trace == old(trace) + [Event(Asked(r), state)]
      ensures breaches == old(breaches) + if Safe(old(state), r) then 0 else 1
      ensures Onward(old(SoFar()), SoFar()) && Told(old(SoFar()), SoFar(), Ok, Silent)
    {
      hide Inv, Exclusive, Single, Kept, Next, Apply, Safe, Sane, Watched, Told;
      ghost var p0 := SoFar();
      SaneFacts(trace, directory, breaches, commands.missed);
      MountKeeps(state, r);
      SaneMore(trace, directory, breaches, commands.missed, Asked(r), !Safe(state, r));
      WatchedMore(trace, watch, windows, Event(Asked(r), Apply(state, r)));
      breaches := breaches + if Safe(state, r) then 0 else 1;
      state := Apply(state, r);
      trace := trace + [Event(Asked(r), state)];
      ToldOnce(p0, SoFar(), Event(Asked(r), state));
    }

    /** A successful request which mounts nothing. */
    method Ask(r: Request)
      requires Valid() && !r.CreateReplicaSet? && !r.CreateJob? && Kept(Apply(state, r), watch)
      requires breaches == 0 && commands.missed == 0 && r.RunCommand? ==>
        r.command.Remove? || Cleared(state, r.pvc, r.command.id)
      modifies this`state, this`trace
      ensures Valid() && state == Apply(old(state), r) && trace == old(trace) + [Event(Asked(r), state)]
      ensures Onward(old(SoFar()), SoFar()) && Told(old(SoFar()), SoFar(), Ok, ScopeOf(Asked(r)))
    {
      hide Inv, Exclusive, Single, Kept, Apply, Next, Sane, Watched, Told;
      ghost var p0 := SoFar();
      SaneFacts(trace, directory, breaches, commands.missed);
      if breaches == 0 && commands.missed == 0 {
        OtherKeeps(state, r);
      } else {
        OtherKeepsInv(state, r);
      }
      Store(Asked(r));
      ToldOnce(p0, SoFar(), Event(Asked(r), state));
    }

    /** A request which mounts nothing, performed or not; an answer which is an error is recorded. */
    method Respond(r: Request, performed: bool, ok: bool, ghost cause: Cause)
      requires Valid() && !r.CreateReplicaSet? && !r.CreateJob? && KeepsWatch(state, r, watch)
      requires performed && breaches == 0 && commands.missed == 0 && r.RunCommand? ==>
        r.command.Remove? || Cleared(state, r.pvc, r.command.id)
      modifies this`state, this`trace
      ensures Valid() && state == (if performed then Apply(old(state), r) else old(state))
      ensures Onward(old(SoFar()), SoFar()) && (!ok ==> Erring(old(SoFar()), SoFar(), cause))
      ensures Told(old(SoFar()), SoFar(), if ok then Ok else EndOf(Erred(cause)), ScopeOf(Asked(r)))
    {
      hide Inv, Exclusive, Single, Kept, Apply, Next, Sane, Watched, Told, Onward, KindOf, Cleared, Erring;
      ghost var p0 := SoFar();
      OnwardReflexive(p0);
      WatchedFacts(trace, watch, windows);
      KeptAsked(state, r, watch);
      if performed {
        Ask(r);
      }
      ghost var p1 := SoFar();
      assert Told(p0, p1, Ok, ScopeOf(Asked(r)));
      if !ok {
        Record(cause);
        OnwardTransitive(p0, p1, SoFar());
        OnwardErring(p0, p1, SoFar(), cause);
      }
    }

    /** The same for a seed job. */
    method RespondJob(source: Pvc, dest: Pvc, performed: bool, ok: bool)
      requires Valid() && (performed ==> dest !in state.jobs)
      modifies this`state, this`trace, this`breaches
      ensures Valid() && state == (if performed then Apply(old(state), Request.CreateJob(source, dest)) else old(state))
      ensures breaches
              == old(breaches) + if performed && !Safe(old(state), Request.CreateJob(source, dest)) then 1 else 0
      ensures Onward(old(SoFar()), SoFar()) && Told(old(SoFar()), SoFar(), Answer(ok), Silent)
    {
      hide Inv, Exclusive, Single, Kept, Apply, Next, Sane, Watched, Told, Onward, KindOf, Safe;
      ghost var p0 := SoFar();
      OnwardReflexive(p0);
      AnErrorIs(NoAnswer);
      WatchedFacts(trace, watch, windows);
      KeptAsked(state, Request.CreateJob(source, dest), watch);
      if performed {
        StoreMount(Request.CreateJob(source, dest));
      }
      ghost var p1 := SoFar();
      if !ok {
        Record(NoAnswer);
        OnwardTransitive(p0, p1, SoFar());
      }
    }

    /** One step of another actor. */
    method Other(a: Action)
      requires Valid()
      modifies this`state, this`trace
      ensures Valid() && Onward(old(SoFar()), SoFar()) && Later(old(state), state) && Told(old(SoFar()), SoFar(), Ok, Silent)
    {
      hide Inv, Exclusive, Single, Kept, EnvEffect, Sane, Watched, Later, React, Next, Told;
      ghost var p0 := SoFar();
      SaneFacts(trace, directory, breaches, commands.missed);
      ReactKeeps(state, a);
      WatchedFacts(trace, watch, windows);
      ReactKept(state, a, watch);
      Store(Moved(a));
      ToldOnce(p0, SoFar(), Event(Moved(a), state));
    }

    /** Any number of steps of the other actors. */
    method Others()
      requires Valid()
      modifies this`state, this`trace
      ensures Valid() && Onward(old(SoFar()), SoFar()) && Later(old(state), state) && Told(old(SoFar()), SoFar(), Ok, Silent)
    {
      hide Valid, Later, Onward, EnvEffect, Told;
      ghost var start, p0 := state, SoFar();
      EnvEffectReflexive(start);
      OnwardReflexive(p0);
      var steps :| steps >= 0;
      for i := 0 to steps
        invariant Valid() && Onward(p0, SoFar()) && Later(start, state) && Told(p0, SoFar(), Ok, Silent)
      {
        var a: Action := *;
        ghost var before, p1 := state, SoFar();
        Other(a);
        LaterTransitive(start, before, state);
        OnwardTransitive(p0, p1, SoFar());
      }
    }

    /* ---- the document: from here on, the others move before each request, and seen is the state it then meets ---- */

    /** Reads the document. */
    method GetDocument() returns (ok: bool, d: Document)
      requires Valid()
      modifies this`state, this`trace
      ensures Valid() && Onward(old(SoFar()), SoFar()) && Later(old(state), state)
      ensures d == state.doc && Distinct(d.pvcs) && (!ok ==> Erring(old(SoFar()), SoFar(), NoDocument))
    {
      hide Sane, Watched, Told, Onward, Erring;
      ghost var p0 := SoFar();
      Others();
      SaneFacts(trace, directory, breaches, commands.missed);
      ok := *;
      d := state.doc;
      ghost var p1 := SoFar();
      if !ok {
        Record(NoDocument);
        OnwardTransitive(p0, p1, SoFar());
        OnwardErring(p0, p1, SoFar(), NoDocument);
      }
    }

    /**
     * Writes the conditions of d, if the stored document still has the version of d; stored says whether they have been
     * written, which the operator does not learn when the request fails.
     */
    method UpdateStatus(d: Document) returns (ok: bool, stored: bool, version: nat, ghost seen: State)
      requires Valid() && watch.pinned == None
      modifies this`state, this`trace
      ensures Valid() && Onward(old(SoFar()), SoFar()) && Later(old(state), seen) && (ok ==> stored)
      ensures stored ==> d.version == seen.doc.version && version == d.version + 1
      ensures state == if stored then Apply(seen, WriteStatus(d.inProgress, d.available)) else seen
      ensures !ok ==> Erring(old(SoFar()), SoFar(), NoStatus)
    {
      hide Sane, Watched, Told, Onward, Erring;
      ghost var p0 := SoFar();
      Others();
      seen := state;
      var performed: bool, answered: bool := *, *;
      stored, version := performed && d.version == state.doc.version, d.version + 1;
      ok := stored && answered;
      ghost var p1 := SoFar();
      Respond(WriteStatus(d.inProgress, d.available), stored, ok, NoStatus);
      OnwardTransitive(p0, p1, SoFar());
      if !ok {
        OnwardErring(p0, p1, SoFar(), NoStatus);
      }
    }

    /* ---- replicas ---- */

    /** The pods selected by LabelsForReplica: the replica pods of this directory (Labels.ReplicaSelectorIsExact). */
    method ListPods() returns (ok: bool, items: seq<PodItem>)
      requires Valid()
      modifies this`state, this`trace
      ensures Valid() && Onward(old(SoFar()), SoFar()) && Later(old(state), state)
      ensures forall i | i in items :: i.containerName == ReplicaName(directory, i.pvcLabel)
      ensures (set i | i in items :: i.pvcLabel) == state.pods.Keys
      ensures !ok ==> Erring(old(SoFar()), SoFar(), NoListing)
    {
      hide Sane, Watched, Later, Onward, Told, Erring;
      ghost var p0 := SoFar();
      Others();
      items := [];
      ok := *;
      ghost var p1 := SoFar();
      if !ok {
        Record(NoListing);
        OnwardTransitive(p0, p1, SoFar());
        OnwardErring(p0, p1, SoFar(), NoListing);
      }
      var rest := state.pods.Keys;
      while rest != {}
        modifies {}
        invariant rest <= state.pods.Keys
        invariant forall i | i in items :: i.containerName == ReplicaName(directory, i.pvcLabel)
        invariant (set i | i in items :: i.pvcLabel) == state.pods.Keys - rest
      {
        var p :| p in rest;
        ghost var was := items;
        items := items + [PodItem(p, ReplicaName(directory, p))];
        assert (set i | i in items :: i.pvcLabel) == (set i | i in was :: i.pvcLabel) + {p};
        rest := rest - {p};
      }
    }

    /** The status of a pod of this name; a failed request cannot be told from its absence. */
    method GetPod(id: PodId) returns (status: Option<PodStatus>, ghost fault: bool)
      requires Valid()
      modifies this`state, this`trace
      ensures Valid() && Onward(old(SoFar()), SoFar()) && Later(old(state), state) && Told(old(SoFar()), SoFar(), Ok, Silent)
      ensures fault ==> status == None
      ensures !fault && id.Own? ==> (status.Some? <==> Present(state, id))
      ensures status.Some? && id.Own? ==> Present(state, id) && status.value == state.pods[id.pvc].status
    {
      hide Sane, Watched, Later, Told;
      Others();
      var failed: bool, other: PodStatus, there: bool := *, *, *;
      fault := failed;
      if failed {
        status := None;
      } else if id.Foreign? {
        status := if there then Some(other) else None;
      } else {
        status := if Present(state, id) then Some(state.pods[id.pvc].status) else None;
      }
    }

    method CreateReplicaSet(name: string, pvc: Pvc) returns (ok: bool, ghost seen: State)
      requires Valid() && name == ReplicaName(directory, pvc)
      modifies this`state, this`trace, this`requests, this`breaches, this`faults
      ensures Valid() && Onward(old(SoFar()), SoFar()) && Later(old(state), seen) && Told(old(SoFar()), SoFar(), Ok, Silent)
      ensures requests == Mounting(old(requests), Request.CreateReplicaSet(pvc), true, pvc in seen.replicaSets)
      ensures breaches
              == old(breaches) + if pvc !in seen.replicaSets && pvc in state.replicaSets && !Untouched(seen, pvc) then 1 else 0
      ensures faults == old(faults).(refused := old(faults).refused + if pvc in state.replicaSets then 0 else 1)
      ensures Answered(ok, seen, state, Request.CreateReplicaSet(pvc)) && (ok ==> pvc !in seen.replicaSets)
    {
      hide Sane, Watched, Later, Untouched, Inv, Exclusive, Told;
      ghost var p0 := SoFar();
      Others();
      ghost var p1 := SoFar();
      seen := state;
      var performed: bool, answered: bool := *, *;
      ok := performed && answered && pvc !in state.replicaSets;
      requests := Mounting(requests, Request.CreateReplicaSet(pvc), true, pvc in state.replicaSets);
      if performed && pvc !in state.replicaSets {
        WatchedFacts(trace, watch, windows);
        StoreMount(Request.CreateReplicaSet(pvc));
        OnwardTransitive(p0, p1, SoFar());
      } else if pvc !in state.replicaSets {
        Note(faults.(refused := faults.refused + 1));
        ToldSame(p0, p1, SoFar());
      }
    }

    /** ok also when there was nothing to delete. */
    method DeleteReplicaSet(name: string, pvc: Pvc) returns (ok: bool, ghost seen: State)
      requires Valid() && name == ReplicaName(directory, pvc) && pvc !in watch.keep
      modifies this`state, this`trace, this`requests
      ensures Valid() && Onward(old(SoFar()), SoFar()) && Later(old(state), seen)
      ensures Told(old(SoFar()), SoFar(), Answer(ok), Silent)
      ensures requests == Mounting(old(requests), Request.DeleteReplicaSet(pvc), true, false)
      ensures Answered(ok, seen, state, Request.DeleteReplicaSet(pvc))
    {
      hide Sane, Watched, Told, Onward, Later, Apply, Inv, Exclusive, Single;
      ghost var p0 := SoFar();
      Others();
      ghost var p1 := SoFar();
      seen := state;
      var performed: bool, answered: bool := *, *;
      ok := performed && answered;
      requests := Mounting(requests, Request.DeleteReplicaSet(pvc), true, false);
      Respond(Request.DeleteReplicaSet(pvc), performed, ok, NoAnswer);
      OnwardTransitive(p0, p1, SoFar());
    }

    /** A service of this name, which selects the pods of that PVC. */
    method CreateService(name: string, pvc: Pvc, port: int) returns (ok: bool, ghost seen: State)
      requires Valid()
      modifies this`state, this`trace, this`requests
      ensures Valid() && Onward(old(SoFar()), SoFar()) && Later(old(state), seen)
      ensures Told(old(SoFar()), SoFar(), Answer(ok), MayServe)
      ensures requests == Serving(old(requests), Taken(seen, name))
      ensures ok ==> !Taken(seen, name)
      ensures Answered(ok, seen, state, Request.CreateService(name, pvc, port))
    {
      hide Sane, Watched, Later, Safe, Untouched, Inv, Exclusive, Told, Onward, Apply, Taken;
      ghost var p0 := SoFar();
      Others();
      ghost var p1 := SoFar();
      seen := state;
      var performed: bool, answered: bool := *, *;
      performed := performed && !Taken(state, name);
      ok := performed && answered;
      requests := Serving(requests, Taken(state, name));
      Respond(Request.CreateService(name, pvc, port), performed, ok, NoAnswer);
      OnwardTransitive(p0, p1, SoFar());
    }

    /** ok also when there was nothing to delete. */
    method DeleteService(name: string, pvc: Pvc) returns (ok: bool, ghost seen: State)
      requires Valid() && name == ReplicaName(directory, pvc)
      modifies this`state, this`trace, this`requests
      ensures Valid() && Onward(old(SoFar()), SoFar()) && Later(old(state), seen)
      ensures Told(old(SoFar()), SoFar(), Answer(ok), Silent)
      ensures requests == Serving(old(requests), false)
      ensures Answered(ok, seen, state, Request.DeleteService(pvc))
    {
      hide Sane, Watched, Told, Onward, Later, Apply, Inv, Exclusive, Single;
      ghost var p0 := SoFar();
      Others();
      ghost var p1 := SoFar();
      seen := state;
      var performed: bool, answered: bool := *, *;
      ok := performed && answered;
      requests := Serving(requests, false);
      Respond(Request.DeleteService(pvc), performed, ok, NoAnswer);
      OnwardTransitive(p0, p1, SoFar());
    }

    /* ---- jobs ---- */

    method CreateJob(name: string, source: Pvc, dest: Pvc) returns (ok: bool, ghost seen: State)
      requires Valid() && name == SeedJobName(directory, dest) && SeedsClean(state)
      modifies this`state, this`trace, this`requests, this`breaches
      ensures Valid() && Onward(old(SoFar()), SoFar()) && Later(old(state), seen)
      ensures Told(old(SoFar()), SoFar(), Answer(ok), Silent)
      ensures requests == Mounting(old(requests), Request.CreateJob(source, dest), false, false)
      ensures breaches == old(breaches)
              + if dest !in seen.jobs && dest in state.jobs && !Safe(seen, Request.CreateJob(source, dest)) then 1 else 0
      ensures Answered(ok, seen, state, Request.CreateJob(source, dest))
      ensures (ok ==> dest !in seen.jobs) && (dest in seen.jobs ==> state == seen)
    {
      hide Sane, Watched, Safe, Later, Untouched, Inv, Exclusive, Told, Onward, SeedsClean, Kept;
      ghost var p0 := SoFar();
      Others();
      ghost var p1 := SoFar();
      seen := state;
      var performed: bool, answered: bool := *, *;
      performed := performed && dest !in state.jobs;
      ok := performed && answered;
      requests := Mounting(requests, Request.CreateJob(source, dest), false, false);
      RespondJob(source, dest, performed, ok);
      OnwardTransitive(p0, p1, SoFar());
    }

    method GetJob(name: string, dest: Pvc) returns (job: Option<Job>)
      requires Valid() && name == SeedJobName(directory, dest)
      modifies this`state, this`trace
      ensures Valid() && Onward(old(SoFar()), SoFar()) && Later(old(state), state) && Told(old(SoFar()), SoFar(), Ok, Silent)
      ensures job.Some? ==> dest in state.jobs && job.value == state.jobs[dest]
    {
      hide Sane, Watched, Told;
      Others();
      var fault: bool := *;
      job := if !fault && dest in state.jobs then Some(state.jobs[dest]) else None;
    }

    /* ---- commands ---- */

    /** The failure of a removal is ignored. */
    method Run(id: PodId, c: Command) returns (ok: bool, ghost seen: State)
      requires Valid()
      requires !c.Remove? && breaches == 0 && commands.missed == 0 && id.Own? ==> Cleared(state, id.pvc, c.id)
      modifies this`state, this`trace
      ensures Valid() && Onward(old(SoFar()), SoFar()) && Later(old(state), seen)
      ensures Told(old(SoFar()), SoFar(), Answer(ok || c.Remove?), if c.AddFromReplica? then MayLink else Silent)
      ensures ok && id.Own? ==> Present(seen, id)
      ensures if id.Foreign? then state == seen
              else state == Apply(seen, RunCommand(id.pvc, c)) || (!ok && state == seen)
    {
      hide Sane, Watched, VolumeOf, Perform, Exclusive, Single, Later, EnvEffect, Inv, Cleared, Onward, Told;
      SaneFacts(trace, directory, breaches, commands.missed);
      ghost var p0 := SoFar();
      Others();
      seen := state;
      ghost var p1 := SoFar();
      var success: bool, effective: bool := *, *;
      ok := success && (id.Foreign? || Present(state, id));
      WatchedFacts(trace, watch, windows);
      if !c.Remove? && breaches == 0 && commands.missed == 0 && Present(state, id) {
        StillCleared(old(state), state, id.pvc, c.id);
      }
      Respond(RunCommand(if id.Own? then id.pvc else "p", c), Present(state, id) && (success || effective), ok || c.Remove?, NoAnswer);
      OnwardTransitive(p0, p1, SoFar());
    }

    /**
     * Runs a command about dest on a pod; when it fails, it may have been performed all the same. On a pod which is no
     * replica's, it changes no volume of the directory. An agreement is only added where there is none, as long as no
     * removal has failed and volume exclusion is intact.
     */
    method Exec(id: PodId, c: Command, ghost dest: Pvc) returns (ok: bool, ghost seen: State)
      requires Valid() && c.id == ReplicaName(directory, dest)
      requires !c.Remove? && breaches == 0 && commands.missed == 0 && id.Own? ==> Cleared(state, id.pvc, c.id)
      modifies this`state, this`trace, this`commands
      ensures Valid() && Onward(old(SoFar()), SoFar()) && Later(old(state), seen)
      ensures Told(old(SoFar()), SoFar(), Answer(ok || c.Remove?), if c.AddFromReplica? then MayLink else Silent)
      ensures ok && id.Own? ==> Present(seen, id)
      ensures commands == Ran(old(commands), id, c, dest, ok)
      ensures if id.Foreign? then state == seen
              else state == Apply(seen, RunCommand(id.pvc, c)) || (!ok && state == seen)
    {
      hide Sane, Watched, VolumeOf, Perform, Exclusive, Single, Later, EnvEffect, Inv, Ran, Apply, Cleared, Told;
      ok, seen := Run(id, c);
      RanMore(commands, id, c, dest, ok);
      SaneMissed(trace, directory, breaches, commands.missed, Ran(commands, id, c, dest, ok).missed);
      commands := Ran(commands, id, c, dest, ok);
    }

    /* ---- ConfigMaps and the proxy ---- */

    /** Reads a ConfigMap of the user's, whose contents are given to the run. */
    method Fetch() returns (ok: bool)
      requires Valid()
      modifies this`trace
      ensures Valid() && Onward(old(SoFar()), SoFar()) && Told(old(SoFar()), SoFar(), Answer(ok), Silent)
      ensures ok ==> trace == old(trace)
    {
      hide Valid, Onward, Told;
      OnwardReflexive(SoFar());
      AnErrorIs(NoAnswer);
      ok := *;
      if !ok {
        Record(NoAnswer);
      }
    }

    method GetConfigMap(name: string) returns (ok: bool, value: Option<string>)
      requires Valid()
      modifies this`state, this`trace
      ensures Valid() && Onward(old(SoFar()), SoFar()) && Later(old(state), state)
      ensures Told(old(SoFar()), SoFar(), Answer(ok), Silent)
      ensures value == if name in state.configMaps then Some(state.configMaps[name]) else None
    {
      hide Sane, Watched, Valid, Onward, Told, Later;
      ghost var p0 := SoFar();
      Others();
      ghost var p1 := SoFar();
      ok := Fetch();
      OnwardTransitive(p0, p1, SoFar());
      value := if name in state.configMaps then Some(state.configMaps[name]) else None;
    }

    /** A failure which says that the name is taken is told apart from others, and is none of the procedure's. */
    method CreateConfigMap(name: string, value: string) returns (ok: bool, taken: bool, ghost seen: State)
      requires Valid() && MaySave(name, value)
      modifies this`state, this`trace
      ensures Valid() && Onward(old(SoFar()), SoFar()) && Later(old(state), seen)
      ensures Told(old(SoFar()), SoFar(), Answer(ok || taken), Silent)
      ensures ok ==> name !in seen.configMaps
      ensures taken ==> !ok && name in seen.configMaps
      ensures Answered(ok, seen, state, PutConfigMap(name, value)) && (taken ==> state == seen)
    {
      hide Sane, Watched, Told, Onward, Later, Apply, Inv, Exclusive, Single;
      ghost var p0 := SoFar();
      Others();
      ghost var p1 := SoFar();
      seen := state;
      var performed: bool, answered: bool := *, *;
      taken := answered && name in state.configMaps;
      performed := performed && name !in state.configMaps;
      ok := performed && answered;
      SaneFacts(trace, directory, breaches, commands.missed);
      Respond(PutConfigMap(name, value), performed, ok || taken, NoAnswer);
      OnwardTransitive(p0, p1, SoFar());
    }

    method UpdateConfigMap(name: string, value: string) returns (ok: bool, ghost seen: State)
      requires Valid() && MaySave(name, value)
      modifies this`state, this`trace
      ensures Valid() && Onward(old(SoFar()), SoFar()) && Later(old(state), seen)
      ensures Told(old(SoFar()), SoFar(), Answer(ok), Silent)
      ensures ok ==> name in seen.configMaps
      ensures Answered(ok, seen, state, PutConfigMap(name, value))
    {
      hide Sane, Watched, Told, Onward, Later, Apply, Inv, Exclusive, Single;
      ghost var p0 := SoFar();
      Others();
      ghost var p1 := SoFar();
      seen := state;
      var performed: bool, answered: bool := *, *;
      performed := performed && name in state.configMaps;
      ok := performed && answered;
      SaneFacts(trace, directory, breaches, commands.missed);
      Respond(PutConfigMap(name, value), performed, ok, NoAnswer);
      OnwardTransitive(p0, p1, SoFar());
    }

    /** A failure is ignored; the trace records it. */
    method DeleteConfigMap(name: string) returns (ok: bool, ghost seen: State)
      requires Valid() && name != ProxyName(directory)
      modifies this`state, this`trace
      ensures Valid() && Onward(old(SoFar()), SoFar()) && Later(old(state), seen)
      ensures Told(old(SoFar()), SoFar(), Ok, Silent) && (!ok ==> Erring(old(SoFar()), SoFar(), Leftover))
      ensures Answered(ok, seen, state, Request.DeleteConfigMap(name))
    {
      hide Sane, Watched, Told, Onward, Erring, Later, Apply, Inv, Exclusive, Single;
      ghost var p0 := SoFar();
      Others();
      ghost var p1 := SoFar();
      seen := state;
      var performed: bool, answered: bool := *, *;
      ok := performed && answered;
      SaneFacts(trace, directory, breaches, commands.missed);
      Respond(Request.DeleteConfigMap(name), performed, ok, Leftover);
      OnwardTransitive(p0, p1, SoFar());
      if !ok {
        OnwardErring(p0, p1, SoFar(), Leftover);
      }
    }

    /** What there is of the proxy. */
    method GetProxy() returns (ok: bool, p: Proxy)
      requires Valid()
      modifies this`state, this`trace
      ensures Valid() && Onward(old(SoFar()), SoFar()) && Later(old(state), state)
      ensures Told(old(SoFar()), SoFar(), Answer(ok), Silent)
      ensures p == state.proxy
    {
      hide Sane, Watched, Valid, Onward, Told, Later;
      ghost var p0 := SoFar();
      Others();
      ghost var p1 := SoFar();
      ok := Fetch();
      OnwardTransitive(p0, p1, SoFar());
      p := state.proxy;
    }

    /** The proxy's service, unless it is there. */
    method CreateProxyService(port: int) returns (ok: bool, ghost seen: State)
      requires Valid()
      modifies this`state, this`trace
      ensures Valid() && Onward(old(SoFar()), SoFar()) && Later(old(state), seen)
      ensures Told(old(SoFar()), SoFar(), Answer(ok), Silent)
      ensures ok ==> seen.proxy.service == None
      ensures Answered(ok, seen, state, Request.PutProxy(seen.proxy.(service := Some(port))))
    {
      hide Sane, Watched, Told, Onward, Later, Apply, Inv, Exclusive, Single;
      ghost var p0 := SoFar();
      Others();
      ghost var p1 := SoFar();
      seen := state;
      var performed: bool, answered: bool := *, *;
      performed := performed && state.proxy.service == None;
      ok := performed && answered;
      Respond(Request.PutProxy(state.proxy.(service := Some(port))), performed, ok, NoAnswer);
      OnwardTransitive(p0, p1, SoFar());
    }

    method PutProxy(p: Proxy) returns (ok: bool, ghost seen: State)
      requires Valid()
      modifies this`state, this`trace
      ensures Valid() && Onward(old(SoFar()), SoFar()) && Later(old(state), seen)
      ensures Told(old(SoFar()), SoFar(), Answer(ok), Silent)
      ensures Answered(ok, seen, state, Request.PutProxy(p))
    {
      hide Sane, Watched, Told, Onward, Later, Apply, Inv, Exclusive, Single;
      ghost var p0 := SoFar();
      Others();
      ghost var p1 := SoFar();
      seen := state;
      var performed: bool, answered: bool := *, *;
      ok := performed && answered;
      Respond(Request.PutProxy(p), performed, ok, NoAnswer);
      OnwardTransitive(p0, p1, SoFar());
    }
  }
}
