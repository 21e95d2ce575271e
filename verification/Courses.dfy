/** Courses of events, request by request, and those in which a run that has found no safe start breaks volume exclusion. */
module Courses {
  import opened Names
  import opened Documents
  import opened States
  import opened Clusters
  import opened SeedJobs
  import opened Create

  /** The request can succeed. */
  predicate Possible(s: State, m: Move) {
    m.Asked? ==>
      match m.request
      case CreateReplicaSet(p) => p !in s.replicaSets
      case CreateService(name, p, port) => !Taken(s, name)
      case CreateJob(source, dest) => dest !in s.jobs
      case RunCommand(p, c) => p in s.pods
      case _ => true
  }

  /** What a course of events makes of a state. */
  function Play(s: State, moves: seq<Move>): State {
    if moves == [] then s else Next(Play(s, moves[..|moves| - 1]), moves[|moves| - 1])
  }

  predicate Playable(s: State, moves: seq<Move>) {
    moves != [] ==>
      var front := moves[..|moves| - 1];
      Playable(s, front) && Possible(Play(s, front), moves[|moves| - 1])
  }

  lemma OneMoreMove(s: State, moves: seq<Move>, m: Move)
    ensures Play(s, moves + [m]) == Next(Play(s, moves), m)
    ensures Playable(s, moves + [m]) <==> Playable(s, moves) && Possible(Play(s, moves), m)
  {
    assert (moves + [m])[..|moves|] == moves;
  }

  lemma {:induction false} MoreMoves(s: State, moves: seq<Move>, more: seq<Move>)
    ensures Play(s, moves + more) == Play(Play(s, moves), more)
    ensures Playable(s, moves + more) <==> Playable(s, moves) && Playable(Play(s, moves), more)
  {
    if more == [] {
      assert moves + more == moves;
    } else {
      var front, m := more[..|more| - 1], more[|more| - 1];
      MoreMoves(s, moves, front);
      assert moves + more == (moves + front) + [m] && more == front + [m];
      OneMoreMove(s, moves + front, m);
      OneMoreMove(Play(s, moves), front, m);
    }
  }

  /** It is a request for a ReplicaSet or a job, whether it is performed or not. */
  predicate IsMount(m: Move) {
    (m.Asked? || m.Refused?) && (m.request.CreateReplicaSet? || m.request.DeleteReplicaSet? || m.request.CreateJob?)
  }

  /** The requests for ReplicaSets and jobs among the moves. */
  function Mounts(moves: seq<Move>): seq<Request> {
    if moves == [] then []
    else
      var m := moves[|moves| - 1];
      Mounts(moves[..|moves| - 1])
      + if IsMount(m) then [m.request] else []
  }

  lemma {:induction false} MountsAppend(moves: seq<Move>, more: seq<Move>)
    ensures Mounts(moves + more) == Mounts(moves) + Mounts(more)
  {
    if more == [] {
      assert moves + more == moves;
    } else {
      var front, m := more[..|more| - 1], more[|more| - 1];
      MountsAppend(moves, front);
      assert moves + more == (moves + front) + [m];
      assert (moves + more)[..|moves + more| - 1] == moves + front;
    }
  }

  /* ---- unsafe starts ---- */

  /** A seed job into each of items, after whatever job there was has failed and expired. */
  function SeedMoves(principal: Pvc, items: seq<Pvc>): seq<Move> {
    if items == [] then []
    else
      var p := items[|items| - 1];
      SeedMoves(principal, items[..|items| - 1])
      + [Moved(EndJob(p, false, {})), Moved(ExpireJob(p)), Asked(CreateJob(principal, p))]
  }

  lemma OneMoreMount(moves: seq<Move>, m: Move)
    ensures Mounts(moves + [m]) == Mounts(moves)
      + if IsMount(m) then [m.request] else []
  {
    assert (moves + [m])[..|moves|] == moves;
  }

  /** One more move, with everything that is said of it. */
  lemma OneMore(s: State, moves: seq<Move>, m: Move)
    ensures Play(s, moves + [m]) == Next(Play(s, moves), m)
    ensures Playable(s, moves) && Possible(Play(s, moves), m) ==> Playable(s, moves + [m])
    ensures Mounts(moves + [m]) == Mounts(moves)
      + if IsMount(m) then [m.request] else []
  {
    hide *;
    OneMoreMove(s, moves, m);
    OneMoreMount(moves, m);
  }

  /** Only jobs into these have changed, and their volumes. */
  ghost predicate OnlyJobs(s: State, t: State, pvcs: set<Pvc>) {
    t.name == s.name && t.replicaSets == s.replicaSets && t.pods == s.pods && t.jobs - pvcs == s.jobs - pvcs
  }

  lemma OnlyJobsTransitive(s: State, t: State, u: State, pvcs: set<Pvc>, p: Pvc)
    requires OnlyJobs(s, t, pvcs) && OnlyJobs(t, u, {p})
    ensures OnlyJobs(s, u, pvcs + {p})
  {
    assert u.jobs - (pvcs + {p}) == (u.jobs - {p}) - pvcs && s.jobs - (pvcs + {p}) == (s.jobs - pvcs) - {p};
    assert (t.jobs - {p}) - pvcs == (t.jobs - pvcs) - {p};
  }

  lemma JobEnded(s: State, p: Pvc)
    ensures OnlyJobs(s, React(s, EndJob(p, false, {})), {p}) && !Seeding(React(s, EndJob(p, false, {})), p)
  {
  }

  lemma JobExpired(s: State, p: Pvc)
    requires !Seeding(s, p)
    ensures OnlyJobs(s, React(s, ExpireJob(p)), {p}) && p !in React(s, ExpireJob(p)).jobs
  {
  }

  lemma NothingPlayed(s: State)
    ensures Play(s, []) == s && Playable(s, []) && Mounts([]) == [] && OnlyJobs(s, s, {})
  {
  }

  lemma JobCreated(s: State, source: Pvc, p: Pvc)
    ensures OnlyJobs(s, Apply(s, CreateJob(source, p)), {p})
  {
  }

  lemma SeedOnce(s: State, moves: seq<Move>, principal: Pvc, p: Pvc) returns (more: seq<Move>)
    requires Playable(s, moves)
    ensures var t := Play(s, moves);
      && more == moves + [Moved(EndJob(p, false, {})), Moved(ExpireJob(p)), Asked(CreateJob(principal, p))]
      && Playable(s, more) && OnlyJobs(t, Play(s, more), {p}) && Mounts(more) == Mounts(moves) + [CreateJob(principal, p)]
      && exists u :: OnlyJobs(t, u, {p}) && p !in u.jobs && Play(s, more) == Apply(u, CreateJob(principal, p))
  {
    hide Play, Playable, Mounts, OnlyJobs, React, Apply;
    var a, b, c := Moved(EndJob(p, false, {})), Moved(ExpireJob(p)), Asked(CreateJob(principal, p));
    var t := Play(s, moves);
    var u := React(React(t, EndJob(p, false, {})), ExpireJob(p));
    JobEnded(t, p);
    JobExpired(React(t, EndJob(p, false, {})), p);
    OnlyJobsTransitive(t, React(t, EndJob(p, false, {})), u, {p}, p);
    OneMore(s, moves, a);
    OneMore(s, moves + [a], b);
    OneMore(s, moves + [a] + [b], c);
    more := moves + [a] + [b] + [c];
    assert more == moves + [a, b, c];
    JobCreated(u, principal, p);
    OnlyJobsTransitive(t, u, Play(s, more), {p}, p);
    assert {p} + {p} == {p};
  }

  lemma {:induction false} SeedMovesPlay(s: State, principal: Pvc, items: seq<Pvc>)
    ensures Playable(s, SeedMoves(principal, items)) && OnlyJobs(s, Play(s, SeedMoves(principal, items)), SetOf(items))
    ensures Mounts(SeedMoves(principal, items)) == SeedRequests(principal, items)
    decreases |items|
  {
    hide Play, Playable, Mounts, OnlyJobs, SetOf;
    NoSeedYet(principal, []);
    NothingPlayed(s);
    if items != [] {
      var front, p := items[..|items| - 1], items[|items| - 1];
      SeedMovesPlay(s, principal, front);
      PrefixGrows(items, |items| - 1);
      assert items[..|items|] == items == front + [p];
      var moves := SeedMoves(principal, front);
      var more := SeedOnce(s, moves, principal, p);
      OnlyJobsTransitive(s, Play(s, moves), Play(s, more), SetOf(front), p);
    }
  }

  lemma OtherJobs(s: State, t: State, pvcs: set<Pvc>, d: Pvc)
    requires OnlyJobs(s, t, pvcs) && d !in pvcs
    ensures d in t.jobs <==> d in s.jobs
    ensures d in t.jobs ==> t.jobs[d] == s.jobs[d]
  {
    assert d in t.jobs <==> d in t.jobs - pvcs;
    assert d in s.jobs <==> d in s.jobs - pvcs;
    assert d in t.jobs ==> (t.jobs - pvcs)[d] == t.jobs[d] && (s.jobs - pvcs)[d] == s.jobs[d];
  }

  /** What is going to be seeded has a ReplicaSet, or a job copies from it which is not going to be waited for before. */
  ghost predicate InUse(s: State, items: seq<Pvc>, k: nat) {
    && k < |items| && !Seeding(s, items[k])
    && (items[k] in s.replicaSets || exists d :: Seeding(s, d) && s.jobs[d].source == items[k] && d !in items[..k])
  }

  /** It is in the way. */
  lemma SeedingBreaks(s: State, principal: Pvc, items: seq<Pvc>, k: nat) returns (moves: seq<Move>)
    requires InUse(s, items, k)
    ensures Playable(s, moves) && !Exclusive(Play(s, moves))
    ensures Mounts(moves) == SeedRequests(principal, items[..k + 1])
  {
    hide Play, Playable, Mounts, OnlyJobs, Exclusive, Apply;
    var dest, front := items[k], SeedMoves(principal, items[..k]);
    SeedMovesPlay(s, principal, items[..k]);
    var t := Play(s, front);
    moves := SeedOnce(s, front, principal, dest);
    var u :| OnlyJobs(t, u, {dest}) && dest !in u.jobs && Play(s, moves) == Apply(u, CreateJob(principal, dest));
    NoSeedYet(principal, []);
    assert items[..k + 1] == items[..k] + [dest];
    assert SeedRequests(principal, items[..k + 1]) == SeedRequests(principal, items[..k]) + [CreateJob(principal, dest)];
    SameReplicaSets(s, t, u, SetOf(items[..k]), {dest});
    if dest !in s.replicaSets {
      var d :| Seeding(s, d) && s.jobs[d].source == dest && d !in items[..k];
      OtherJobs(s, t, SetOf(items[..k]), d);
      OtherJobs(t, u, {dest}, d);
    }
    UnsafeBreaks(u, CreateJob(principal, dest));
  }

  lemma SameReplicaSets(s: State, t: State, u: State, pvcs: set<Pvc>, more: set<Pvc>)
    requires OnlyJobs(s, t, pvcs) && OnlyJobs(t, u, more)
    ensures u.replicaSets == s.replicaSets
  {
  }

  lemma JobsStay(s: State, p: Pvc)
    ensures var t := React(Apply(s, DeleteReplicaSet(p)), StopPod(p)); t.jobs == s.jobs && t.replicaSets == s.replicaSets - {p}
    ensures var t := React(Apply(s, CreateReplicaSet(p)), StartPod(p, "x"));
      t.jobs == s.jobs && t.replicaSets == s.replicaSets + {p}
      && (p !in s.replicaSets ==> Possible(s, Asked(CreateReplicaSet(p))))
  {
  }

  /** Stops the principal. */
  lemma StopPrincipal(s: State, moves: seq<Move>, p: Pvc) returns (more: seq<Move>)
    requires Playable(s, moves)
    ensures Playable(s, more) && Play(s, more).jobs == Play(s, moves).jobs
    ensures Play(s, more).replicaSets == Play(s, moves).replicaSets - {p}
    ensures Mounts(more) == Mounts(moves) + [DeleteReplicaSet(p)]
  {
    hide Play, Playable, Mounts, React, Apply;
    OneMore(s, moves, Asked(DeleteReplicaSet(p)));
    OneMore(s, moves + [Asked(DeleteReplicaSet(p))], Moved(StopPod(p)));
    more := moves + [Asked(DeleteReplicaSet(p))] + [Moved(StopPod(p))];
    JobsStay(Play(s, moves), p);
  }

  /** Starts the first replica; the request is refused if its ReplicaSet is there, without a pod. */
  lemma StartFirst(s: State, p: Pvc) returns (moves: seq<Move>)
    ensures Playable(s, moves) && Play(s, moves).jobs == s.jobs && Mounts(moves) == [CreateReplicaSet(p)]
    ensures Play(s, moves).replicaSets == s.replicaSets + {p}
  {
    hide Play, Playable, Mounts, React, Apply;
    NothingPlayed(s);
    JobsStay(s, p);
    if p in s.replicaSets {
      OneMore(s, [], Refused(CreateReplicaSet(p)));
      moves := [] + [Refused(CreateReplicaSet(p))];
    } else {
      OneMore(s, [], Asked(CreateReplicaSet(p)));
      OneMore(s, [] + [Asked(CreateReplicaSet(p))], Moved(StartPod(p, "x")));
      moves := [] + [Asked(CreateReplicaSet(p))] + [Moved(StartPod(p, "x"))];
    }
  }

  /** From moves on, the principal is stopped, and what is in use breaks the exclusion. */
  lemma OrderBreaks(s: State, moves: seq<Move>, principal: Pvc, items: seq<Pvc>, k: nat) returns (more: seq<Move>)
    requires Playable(s, moves) && Play(s, moves).jobs == s.jobs && s.replicaSets <= Play(s, moves).replicaSets
    requires InUse(s, items, k) && principal !in items
    ensures Playable(s, more) && !Exclusive(Play(s, more))
    ensures Mounts(more) <= Mounts(moves) + AddRequests(principal, items)
  {
    hide Play, Playable, Mounts, Exclusive;
    var stopped := StopPrincipal(s, moves, principal);
    var rest := SeedingBreaks(Play(s, stopped), principal, items, k);
    MoreMoves(s, stopped, rest);
    MountsAppend(stopped, rest);
    more := stopped + rest;
    SeedsArePrefix(Mounts(moves), principal, items, k);
  }

  lemma SeedsArePrefix(log: seq<Request>, principal: Pvc, items: seq<Pvc>, k: nat)
    requires k < |items|
    ensures log + [DeleteReplicaSet(principal)] + SeedRequests(principal, items[..k + 1]) <= log + AddRequests(principal, items)
  {
    assert SeedRequests(principal, items[..k + 1]) <= SeedRequests(principal, items);
  }

  lemma UnsafeIsInUse(s: State, items: seq<Pvc>) returns (k: nat)
    requires Exclusive(s) && SetOf(items) !! s.pods.Keys && !(SetOf(items) !! s.replicaSets && SafeOrder(s, items))
    ensures InUse(s, items, k)
  {
    if SetOf(items) !! s.replicaSets {
      var i: int, d :| 0 <= i < |items| && Seeding(s, d) && s.jobs[d].source == items[i] && d !in items[..i];
      k := i;
    } else {
      var p :| p in SetOf(items) && p in s.replicaSets;
      var i: int :| 0 <= i < |items| && items[i] == p;
      assert !Unmounted(s, p);
      k := i;
    }
  }

  lemma MountedIsUntouched(s: State, p: Pvc)
    requires Exclusive(s) && !Unmounted(s, p)
    ensures Untouched(s, p)
  {
  }

  /**
   * Whenever a run lists the pods, and that start is not safe, there is a course of events in which the run, by the requests
   * it makes and in their order, breaks volume exclusion (when it is safe, there is none: Controller.Reconcile).
   */
  lemma UnsafeStartBreaks(s: State, principal: Pvc, items: seq<Pvc>) returns (moves: seq<Move>)
    requires Exclusive(s) && Distinct(items) && SetOf(items) !! s.pods.Keys
    requires items != [] ==> IsPrincipal(principal, s.pods.Keys, items)
    requires !SafeStart(s, s.pods.Keys, items)
    ensures Playable(s, moves) && !Exclusive(Play(s, moves))
    ensures Mounts(moves) <= MountRequests(principal, s.pods.Keys, items)
  {
    hide Play, Playable, Mounts, AddRequests, Exclusive, SafeOrder, Untouched, Distinct, Apply, InUse, SetOf;
    NothingPlayed(s);
    forall p | p in s.pods ensures Untouched(s, p) {
      MountedIsUntouched(s, p);
    }
    if s.pods.Keys != {} {
      NotInSet(items, principal);
      var k := UnsafeIsInUse(s, items);
      moves := OrderBreaks(s, [], principal, items, k);
      assert [] + AddRequests(principal, items) == AddRequests(principal, items);
    } else if !Untouched(s, principal) {
      if principal in s.replicaSets {
        MountedIsUntouched(s, principal);
      }
      moves := [] + [Asked(CreateReplicaSet(principal))];
      OneMore(s, [], Asked(CreateReplicaSet(principal)));
      UnsafeBreaks(s, CreateReplicaSet(principal));
    } else {
      var started := StartFirst(s, principal);
      HeadAndTail(items);
      NoneInUse(s, items[1..]);
      var k := UnsafeIsInUse(s, items[1..]);
      moves := OrderBreaks(s, started, principal, items[1..], k);
    }
  }

  lemma NoneInUse(s: State, items: seq<Pvc>)
    ensures items == [] ==> SetOf(items) == {} && SafeOrder(s, items)
  {
  }
}
