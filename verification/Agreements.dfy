/** Setting up the replication agreements, one command at a time. */
module Agreements {
  import opened Names
  import opened Documents
  import opened States
  import opened Clusters
  import opened Replicas

  /** The command which makes source supply dest: the principal's own kind, or the kind which names the principal. */
  function CommandFor(directory: string, config: ServerConfig, principal: Pvc, source: Pvc, dest: Pvc): (c: Command)
    ensures !c.Remove? && c.id == c.host == ReplicaName(directory, dest) && c.port == config.port && c.secure == config.secure
    ensures c.AddFromPrincipal? <==> source == principal
    ensures c.AddFromPrincipal? ==> c.principalHost == ReplicaName(directory, source) && c.principalPort == config.port
    ensures c.AddFromReplica? ==> c.supplier == ReplicaName(directory, principal)
  {
    var principalRep, srcRep := ReplicaName(directory, principal), ReplicaName(directory, source);
    var dstRep := ReplicaName(directory, dest);
    NamesAreInjective(directory, principal, source);
    if principalRep == srcRep then AddFromPrincipal(dstRep, dstRep, config.port, srcRep, config.port, config.secure)
    else AddFromReplica(dstRep, dstRep, config.port, principalRep, config.secure)
  }

  /** What the commands of one run have in common. */
  datatype Plan = Plan(directory: string, config: ServerConfig, principal: Pvc)

  ghost function IssueFor(plan: Plan, x: Pvc, a: Pvc): Issue {
    Issue(Some(x), a, CommandFor(plan.directory, plan.config, plan.principal, x, a))
  }

  /**
   * From s to t, the agreements from each of sources to each of dests other than itself have been added, and no others;
   * nothing is said of volumes which were being seeded.
   */
  ghost predicate EdgesAdded(s: State, t: State, sources: set<Pvc>, dests: set<Pvc>) {
    && (forall p: Pvc, q: Pvc | !Seeding(s, p) ::
      Edge(t, p, q) <==> Edge(s, p, q) || (p in sources && q in dests && p != q))
    && (forall p: Pvc | !Seeding(s, p) :: VolumeOf(t, p).seeds == VolumeOf(s, p).seeds)
  }

  /** Only volumes have been changed. */
  ghost predicate OnlyVolumes(s: State, t: State) {
    SameShape(s, t) && NoNewJobs(s, t) && Orphans(t) <= Orphans(s) && (Sound(s) ==> Sound(t))
  }

  lemma OnlyVolumesTransitive(s: State, t: State, u: State)
    requires OnlyVolumes(s, t) && OnlyVolumes(t, u)
    ensures OnlyVolumes(s, u)
  {
  }

  lemma LaterIsOnlyVolumes(s: State, t: State)
    requires Later(s, t)
    ensures OnlyVolumes(s, t)
  {
  }

  lemma RunIsOnlyVolumes(s: State, t: State, p: Pvc, c: Command)
    requires Later(s, t)
    ensures OnlyVolumes(s, t) && OnlyVolumes(s, Apply(t, RunCommand(p, c)))
  {
  }

  /** Nothing but the agreement of source with dest may differ. */
  ghost predicate OnlyEdge(s: State, t: State, source: Pvc, dest: Pvc) {
    && t.name == s.name
    && (forall p: Pvc, q: Pvc | !Seeding(s, p) && (p != source || q != dest) :: Edge(t, p, q) <==> Edge(s, p, q))
    && (forall p: Pvc | !Seeding(s, p) :: VolumeOf(t, p).seeds == VolumeOf(s, p).seeds)
  }

  /** A command changes the agreement of its pod's volume with its destination, and no other. */
  lemma CommandEdges(s: State, source: Pvc, dest: Pvc, c: Command)
    requires c.id == ReplicaName(s.name, dest)
    ensures OnlyEdge(s, Apply(s, RunCommand(source, c)), source, dest)
    ensures Edge(Apply(s, RunCommand(source, c)), source, dest) <==> !c.Remove?
    ensures c.Remove? ==> Cleared(Apply(s, RunCommand(source, c)), source, c.id)
  {
    var t := Apply(s, RunCommand(source, c));
    forall p: Pvc, q: Pvc | p != source || q != dest ensures Edge(t, p, q) <==> Edge(s, p, q) {
      NamesAreInjective(s.name, q, dest);
    }
  }

  lemma LaterOnlyEdge(s: State, t: State, source: Pvc, dest: Pvc)
    requires Later(s, t)
    ensures OnlyEdge(s, t, source, dest)
    ensures !Seeding(s, source) ==> (Edge(t, source, dest) <==> Edge(s, source, dest))
  {
  }

  lemma OnlyEdgeTransitive(s: State, t: State, u: State, source: Pvc, dest: Pvc)
    requires OnlyEdge(s, t, source, dest) && NoNewJobs(s, t) && OnlyEdge(t, u, source, dest)
    ensures OnlyEdge(s, u, source, dest)
  {
    forall p: Pvc | !Seeding(s, p) ensures !Seeding(t, p) {
    }
  }

  lemma OnlyEdgeAdded(s: State, t: State, source: Pvc, dest: Pvc)
    requires OnlyEdge(s, t, source, dest) && source != dest && (!Seeding(s, source) ==> Edge(t, source, dest))
    ensures EdgesAdded(s, t, {source}, {dest})
  {
  }

  function PodOf(id: PodId): Option<Pvc> {
    if id.Own? then Some(id.pvc) else None
  }

  /** Resolves the pod of source, and removes whatever agreement it has with dest, ignoring a failure. */
  method ClearAgreement(api: Cluster, source: Pvc, dest: Pvc) returns (srcPod: Option<PodId>)
    requires api.Valid()
    modifies api`state, api`trace, api`commands, api`faults
    ensures api.Valid() && Onward(old(api.SoFar()), api.SoFar())
    ensures Told(old(api.SoFar()), api.SoFar(), Resolved(srcPod), Silent)
    ensures OnlyVolumes(old(api.state), api.state) && OnlyMisled(old(api.faults), api.faults)
    ensures api.commands.issued == old(api.commands.issued)
    ensures srcPod.Some? ==> api.commands.removals == old(api.commands.removals) + multiset{(PodOf(srcPod.value), dest)}
    ensures srcPod.Some? && srcPod.value.Own? && api.commands.missed == 0 ==>
      Cleared(api.state, srcPod.value.pvc, ReplicaName(api.directory, dest))
    ensures srcPod.Some? && api.faults == old(api.faults) && source in old(api.state.replicaSets) ==>
      && srcPod.value.Own? && srcPod.value.pvc == source && OnlyEdge(old(api.state), api.state, source, dest)
  {
    hide ReplicaName, IsReplicaName, PvcNamed, Onward, Later, EnvEffect, OnlyVolumes, OnlyEdge, Apply, Cluster.Valid, Cleared,
         Told;
    ghost var s0, p0 := api.state, api.SoFar();
    var srcRep, dstRep := ReplicaName(api.directory, source), ReplicaName(api.directory, dest);
    ReplicaNameIsOne(api.directory, source);
    api.NameIsDirectory();
    srcPod := GetReplicaSetPodName(api, srcRep);
    ghost var s1, p1 := api.state, api.SoFar();
    SameRS(s0, s1);
    LaterIsOnlyVolumes(s0, s1);
    if srcPod == None {
      return;
    }
    var ok;
    ghost var s2;
    ok, s2 := api.Exec(srcPod.value, Remove(dstRep), dest);
    OnwardTransitive(p0, p1, api.SoFar());
    LaterTransitive(s0, s1, s2);
    LaterIsOnlyVolumes(s0, s2);
    LaterOnlyEdge(s0, s2, source, dest);
    SameRS(s0, s2);
    LaterNoNewJobs(s0, s2);
    if srcPod.value.Own? {
      RunIsOnlyVolumes(s0, s2, srcPod.value.pvc, Remove(dstRep));
      CommandEdges(s2, srcPod.value.pvc, dest, Remove(dstRep));
      if srcPod.value.pvc == source && api.state == Apply(s2, RunCommand(srcPod.value.pvc, Remove(dstRep))) {
        OnlyEdgeTransitive(s0, s2, api.state, source, dest);
      }
    }
  }

  lemma LaterNoNewJobs(s: State, t: State)
    requires Later(s, t)
    ensures NoNewJobs(s, t)
  {
  }

  /** Removes whatever agreement source has with dest, and adds one. */
  method CreateReplicationAgreement(api: Cluster, h: RequestHandle, principal: Pvc, source: Pvc, dest: Pvc) returns (r: Outcome)
    requires api.Valid() && source != dest
    modifies api`state, api`trace, api`commands, api`faults
    ensures api.Valid() && Onward(old(api.SoFar()), api.SoFar())
    ensures Told(old(api.SoFar()), api.SoFar(), r, if source == principal then Silent else MayLink)
    ensures OnlyVolumes(old(api.state), api.state) && OnlyMisled(old(api.faults), api.faults)
    ensures r.Ok? && api.faults == old(api.faults) && source in old(api.state.replicaSets) ==>
      && EdgesAdded(old(api.state), api.state, {source}, {dest})
      && api.commands.issued == old(api.commands.issued) + multiset{IssueFor(Plan(api.directory, h.config, principal), source, dest)}
      && api.commands.removals == old(api.commands.removals) + multiset{(Some(source), dest)}
  {
    hide ReplicaName, Onward, Later, EnvEffect, OnlyVolumes, OnlyEdge, EdgesAdded, Apply, Cluster.Valid, Cleared, CommandFor,
         Told;
    ghost var s0, p0 := api.state, api.SoFar();
    var command := CommandFor(api.directory, h.config, principal, source, dest);
    api.NameIsDirectory();
    var srcPod := ClearAgreement(api, source, dest);
    if srcPod == None {
      ToldWider(p0, api.SoFar(), Lost, MayLink);
      return Lost;
    }
    ghost var s1, p1 := api.state, api.SoFar();
    var ok;
    ghost var s2;
    ok, s2 := api.Exec(srcPod.value, command, dest);
    OnwardTransitive(p0, p1, api.SoFar());
    LaterIsOnlyVolumes(s1, s2);
    OnlyVolumesTransitive(s0, s1, s2);
    OnlyVolumesNames(s0, s2);
    if srcPod.value.Own? {
      RunIsOnlyVolumes(s1, s2, srcPod.value.pvc, command);
      OnlyVolumesTransitive(s0, s1, Apply(s2, RunCommand(srcPod.value.pvc, command)));
    }
    if !ok {
      return Err;
    }
    if api.faults == old(api.faults) && source in s0.replicaSets {
      CommandEdges(s2, source, dest, command);
      LaterOnlyEdge(s1, s2, source, dest);
      OnlyVolumesNames(s0, s1);
      OnlyEdgeTransitive(s0, s1, s2, source, dest);
      OnlyEdgeTransitive(s0, s2, api.state, source, dest);
      OnlyEdgeAdded(s0, api.state, source, dest);
    }
    return Ok;
  }

  lemma OnlyVolumesNames(s: State, t: State)
    requires OnlyVolumes(s, t)
    ensures t.name == s.name && t.replicaSets == s.replicaSets && NoNewJobs(s, t)
  {
  }
}
