/** The agreements of every new replica with every other replica, command by command. */
module Links {
  import opened Names
  import opened Documents
  import opened States
  import opened Clusters
  import opened Replicas
  import opened Agreements

  /** One command for each pair of a source and a destination other than itself. */
  ghost function CommandsFor(plan: Plan, sources: set<Pvc>, dests: set<Pvc>): set<Issue> {
    set x, a | x in sources && a in dests && x != a :: IssueFor(plan, x, a)
  }

  /** The sources of the agreements which do not come from the principal. */
  ghost function Peers(existing: map<Pvc, string>, principal: Pvc): set<Pvc> {
    existing.Keys - {principal}
  }

  lemma MoreSources(sources: set<Pvc>, x: Pvc, a: Pvc, plan: Plan)
    requires x !in sources && x != a
    ensures multiset(CommandsFor(plan, sources + {x}, {a}))
            == multiset(CommandsFor(plan, sources, {a})) + multiset{IssueFor(plan, x, a)}
  {
    assert IssueFor(plan, x, a) !in CommandsFor(plan, sources, {a});
    assert CommandsFor(plan, sources + {x}, {a}) == CommandsFor(plan, sources, {a}) + {IssueFor(plan, x, a)};
  }

  lemma MoreDests(before: multiset<Issue>, sources: set<Pvc>, dests: set<Pvc>, a: Pvc, plan: Plan)
    requires a !in dests
    ensures before + multiset(CommandsFor(plan, sources, dests + {a}))
            == before + multiset(CommandsFor(plan, sources, dests)) + multiset(CommandsFor(plan, sources, {a}))
  {
    assert CommandsFor(plan, sources, dests) !! CommandsFor(plan, sources, {a});
    assert CommandsFor(plan, sources, dests + {a})
        == CommandsFor(plan, sources, dests) + CommandsFor(plan, sources, {a});
  }

  lemma OneCommand(x: Pvc, a: Pvc, plan: Plan)
    requires x != a
    ensures CommandsFor(plan, {x}, {a}) == {IssueFor(plan, x, a)}
  {
    assert IssueFor(plan, x, a) in CommandsFor(plan, {x}, {a});
  }

  /** From s to t, exactly these agreements have been added, each by its command. */
  ghost predicate Agreed(s: State, t: State, before: multiset<Issue>, after: multiset<Issue>,
                         plan: Plan, sources: set<Pvc>, dests: set<Pvc>) {
    EdgesAdded(s, t, sources, dests) && after == before + multiset(CommandsFor(plan, sources, dests))
  }

  lemma NothingAgreed(s: State, issued: multiset<Issue>, plan: Plan, x: set<Pvc>)
    ensures OnlyVolumes(s, s)
    ensures Agreed(s, s, issued, issued, plan, x, {}) && Agreed(s, s, issued, issued, plan, {}, x)
  {
    assert CommandsFor(plan, x, {}) == CommandsFor(plan, {}, x) == {};
  }

  /** One more destination. */
  lemma AgreeDest(s: State, t: State, u: State, a: multiset<Issue>, b: multiset<Issue>, c: multiset<Issue>,
                 plan: Plan, sources: set<Pvc>, dests: set<Pvc>, dest: Pvc)
    requires Agreed(s, t, a, b, plan, sources, dests) && NoNewJobs(s, t) && dest !in dests
    requires Agreed(t, u, b, c, plan, sources, {dest})
    ensures Agreed(s, u, a, c, plan, sources, dests + {dest})
  {
    MoreDests(a, sources, dests, dest, plan);
    forall p: Pvc | !Seeding(s, p) ensures !Seeding(t, p) {
    }
  }

  /** One more source. */
  lemma AgreeSource(s: State, t: State, u: State, a: multiset<Issue>, b: multiset<Issue>, c: multiset<Issue>,
                   plan: Plan, sources: set<Pvc>, source: Pvc, dest: Pvc)
    requires Agreed(s, t, a, b, plan, sources, {dest}) && NoNewJobs(s, t) && source !in sources && source != dest
    requires Agreed(t, u, b, c, plan, {source}, {dest})
    ensures Agreed(s, u, a, c, plan, sources + {source}, {dest})
  {
    MoreSources(sources, source, dest, plan);
    OneCommand(source, dest, plan);
    forall p: Pvc | !Seeding(s, p) ensures !Seeding(t, p) {
    }
  }

  lemma SelfAgreed(s: State, t: State, a: multiset<Issue>, b: multiset<Issue>, plan: Plan, x: set<Pvc>, dest: Pvc)
    requires Agreed(s, t, a, b, plan, x - {dest}, {dest})
    ensures Agreed(s, t, a, b, plan, x, {dest})
  {
    assert CommandsFor(plan, x - {dest}, {dest}) == CommandsFor(plan, x, {dest});
  }

  /** The agreements of the principal with each of the new replicas. */
  method CommandPrincipal(api: Cluster, h: RequestHandle, principal: Pvc, toBeAdded: seq<Pvc>) returns (r: Outcome)
    requires api.Valid() && Distinct(toBeAdded) && principal !in toBeAdded
    modifies api`state, api`trace, api`commands, api`faults
    ensures api.Valid() && Onward(old(api.SoFar()), api.SoFar())
    ensures Told(old(api.SoFar()), api.SoFar(), r, Silent)
    ensures OnlyVolumes(old(api.state), api.state) && OnlyMisled(old(api.faults), api.faults)
    ensures r.Ok? && api.faults == old(api.faults) && principal in old(api.state.replicaSets) ==>
      Agreed(old(api.state), api.state, old(api.commands.issued), api.commands.issued,
             Plan(api.directory, h.config, principal), {principal}, SetOf(toBeAdded))
  {
    hide OnlyVolumes, Agreed, Onward, Cluster.Valid, EdgesAdded, SetOf, Distinct, IssueFor, OnlyMisled, Told;
    ghost var s, p0, plan := api.state, api.SoFar(), Plan(api.directory, h.config, principal);
    ghost var issued, f := api.commands.issued, api.faults;
    NothingAgreed(s, issued, plan, {principal});
    OnwardReflexive(p0);
    OnlyMisledReflexive(f);
    assert toBeAdded[..0] == [] && SetOf<Pvc>([]) == {} by { EmptySet(); }
    for i := 0 to |toBeAdded|
      invariant api.Valid() && Onward(p0, api.SoFar()) && OnlyVolumes(s, api.state) && OnlyMisled(f, api.faults)
      invariant Told(p0, api.SoFar(), Ok, Silent)
      invariant api.faults == f && principal in s.replicaSets ==>
        Agreed(s, api.state, issued, api.commands.issued, plan, {principal}, SetOf(toBeAdded[..i]))
    {
      ghost var t, p1, b, g := api.state, api.SoFar(), api.commands.issued, api.faults;
      var pvcName := toBeAdded[i];
      PrefixGrows(toBeAdded, i);
      NotIn(toBeAdded, i, principal);
      r := CreateReplicationAgreement(api, h, principal, principal, pvcName);
      OnwardTransitive(p0, p1, api.SoFar());
      OnlyVolumesTransitive(s, t, api.state);
      OnlyVolumesNames(s, t);
      OnlyMisledTransitive(f, g, api.faults);
      if r != Ok {
        return;
      }
      if api.faults == f && principal in s.replicaSets {
        OneAgreed(t, api.state, b, api.commands.issued, plan, principal, pvcName);
        AgreeDest(s, t, api.state, issued, b, api.commands.issued, plan, {principal}, SetOf(toBeAdded[..i]), pvcName);
      }
    }
    assert toBeAdded[..|toBeAdded|] == toBeAdded;
    return Ok;
  }

  lemma EmptySet()
    ensures SetOf<Pvc>([]) == {}
  {
  }

  lemma NotIn(items: seq<Pvc>, i: nat, p: Pvc)
    requires i < |items| && p !in items
    ensures items[i] != p
  {
  }

  lemma OneAgreed(s: State, t: State, a: multiset<Issue>, b: multiset<Issue>, plan: Plan, source: Pvc, dest: Pvc)
    requires EdgesAdded(s, t, {source}, {dest}) && b == a + multiset{IssueFor(plan, source, dest)} && source != dest
    ensures Agreed(s, t, a, b, plan, {source}, {dest})
  {
    OneCommand(source, dest, plan);
  }

  /** The agreements of every existing replica, but the principal and the new replica itself, with the new replica. */
  method CreateReplicationAgreements(api: Cluster, h: RequestHandle, principal: Pvc, replica: Pvc, existing: map<Pvc, string>)
    returns (r: Outcome)
    requires api.Valid()
    modifies api`state, api`trace, api`commands, api`faults
    ensures api.Valid() && Onward(old(api.SoFar()), api.SoFar())
    ensures Told(old(api.SoFar()), api.SoFar(), r, MayLink)
    ensures OnlyVolumes(old(api.state), api.state) && OnlyMisled(old(api.faults), api.faults)
    ensures r.Ok? && api.faults == old(api.faults) && Peers(existing, principal) <= old(api.state.replicaSets) ==>
      Agreed(old(api.state), api.state, old(api.commands.issued), api.commands.issued,
             Plan(api.directory, h.config, principal), Peers(existing, principal), {replica})
  {
    hide OnlyVolumes, Agreed, Onward, Cluster.Valid, EdgesAdded, IssueFor, OnlyMisled, Told;
    ghost var s, p0, plan := api.state, api.SoFar(), Plan(api.directory, h.config, principal);
    ghost var issued, f, peers := api.commands.issued, api.faults, Peers(existing, principal);
    NothingAgreed(s, issued, plan, {replica});
    OnwardReflexive(p0);
    OnlyMisledReflexive(f);
    var rest := existing.Keys;
    ghost var done: set<Pvc> := {};
    while rest != {}
      invariant api.Valid() && Onward(p0, api.SoFar()) && OnlyVolumes(s, api.state) && OnlyMisled(f, api.faults)
      invariant Told(p0, api.SoFar(), Ok, MayLink)
      invariant forall x :: x in done <==> x in existing && x !in rest && x != principal && x != replica
      invariant api.faults == f && peers <= s.replicaSets ==>
        Agreed(s, api.state, issued, api.commands.issued, plan, done, {replica})
    {
      var pvcName :| pvcName in rest;
      rest := rest - {pvcName};
      if pvcName != principal && pvcName != replica {
        ghost var t, p1, b, g := api.state, api.SoFar(), api.commands.issued, api.faults;
        assert pvcName in peers && pvcName !in done;
        r := CreateReplicationAgreement(api, h, principal, pvcName, replica);
        OnwardTransitive(p0, p1, api.SoFar());
        OnlyVolumesTransitive(s, t, api.state);
        OnlyVolumesNames(s, t);
        OnlyMisledTransitive(f, g, api.faults);
        if r != Ok {
          return;
        }
        if api.faults == f && peers <= s.replicaSets {
          OneAgreed(t, api.state, b, api.commands.issued, plan, pvcName, replica);
          AgreeSource(s, t, api.state, issued, b, api.commands.issued, plan, done, pvcName, replica);
        }
        done := done + {pvcName};
      }
    }
    assert done == peers - {replica};
    if api.faults == f && peers <= s.replicaSets {
      SelfAgreed(s, api.state, issued, api.commands.issued, plan, peers, replica);
    }
    return Ok;
  }

  /** The agreements among all replicas but the principal. */
  method LinkReplicas(api: Cluster, h: RequestHandle, principal: Pvc, toBeAdded: seq<Pvc>, existing: map<Pvc, string>)
    returns (r: Outcome)
    requires api.Valid() && Distinct(toBeAdded)
    modifies api`state, api`trace, api`commands, api`faults
    ensures api.Valid() && Onward(old(api.SoFar()), api.SoFar())
    ensures Told(old(api.SoFar()), api.SoFar(), r, MayLink)
    ensures OnlyVolumes(old(api.state), api.state) && OnlyMisled(old(api.faults), api.faults)
    ensures r.Ok? && api.faults == old(api.faults) && Peers(existing, principal) <= old(api.state.replicaSets) ==>
      Agreed(old(api.state), api.state, old(api.commands.issued), api.commands.issued,
             Plan(api.directory, h.config, principal), Peers(existing, principal), SetOf(toBeAdded))
  {
    hide OnlyVolumes, Agreed, Onward, Cluster.Valid, EdgesAdded, SetOf, Distinct, IssueFor, OnlyMisled, Peers,
         Told;
    ghost var s, p0, plan := api.state, api.SoFar(), Plan(api.directory, h.config, principal);
    ghost var issued, f, peers := api.commands.issued, api.faults, Peers(existing, principal);
    NothingAgreed(s, issued, plan, peers);
    OnwardReflexive(p0);
    OnlyMisledReflexive(f);
    assert toBeAdded[..0] == [] && SetOf<Pvc>([]) == {} by { EmptySet(); }
    for i := 0 to |toBeAdded|
      invariant api.Valid() && Onward(p0, api.SoFar()) && OnlyVolumes(s, api.state) && OnlyMisled(f, api.faults)
      invariant Told(p0, api.SoFar(), Ok, MayLink)
      invariant api.faults == f && peers <= s.replicaSets ==>
        Agreed(s, api.state, issued, api.commands.issued, plan, peers, SetOf(toBeAdded[..i]))
    {
      ghost var t, p1, b, g := api.state, api.SoFar(), api.commands.issued, api.faults;
      var pvcName := toBeAdded[i];
      PrefixGrows(toBeAdded, i);
      r := CreateReplicationAgreements(api, h, principal, pvcName, existing);
      OnwardTransitive(p0, p1, api.SoFar());
      OnlyVolumesTransitive(s, t, api.state);
      OnlyVolumesNames(s, t);
      OnlyMisledTransitive(f, g, api.faults);
      if r != Ok {
        return;
      }
      if api.faults == f && peers <= s.replicaSets {
        AgreeDest(s, t, api.state, issued, b, api.commands.issued, plan, peers, SetOf(toBeAdded[..i]), pvcName);
      }
    }
    assert toBeAdded[..|toBeAdded|] == toBeAdded;
    return Ok;
  }
}
