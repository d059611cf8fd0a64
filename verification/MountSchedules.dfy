/**
 Every complete order of deliveries is reached by some schedule, so the answers a mount
 can give are exactly the answers of its orders; and what follows for whole mounts.
 */
module MountSchedules {
  import opened Sequences
  import opened Fetching
  import opened MountSpec
  import opened MountOrders
  import opened MountSetup
  import opened MountProtocol

  // ------------------------------------------------------------ building schedules

  lemma {:induction false} ExecAppend(u: Setup, s: State, a: seq<Action>, b: seq<Action>)
    requires |s.fetchers| == |u.cfg.secrets|
    requires Feasible(u, s, a) && Feasible(u, Exec(u, s, a), b)
    ensures Feasible(u, s, a + b) && Exec(u, s, a + b) == Exec(u, Exec(u, s, a), b)
    decreases |a|
  {
    hide Next, Enabled;
    if a == [] {
      assert a + b == b;
    } else {
      ExecAppend(u, Next(u, s, a[0]), a[1..], b);
      assert (a + b)[1..] == a[1..] + b;
    }
  }

  lemma ExecFirst(u: Setup, s: State, a: Action, rest: seq<Action>)
    requires |s.fetchers| == |u.cfg.secrets| && Enabled(u, s, a) && Feasible(u, Next(u, s, a), rest)
    ensures Feasible(u, s, [a] + rest) && Exec(u, s, [a] + rest) == Exec(u, Next(u, s, a), rest)
  {
    assert ([a] + rest)[1..] == rest;
  }

  lemma InvSize(u: Setup, p: Plan, s: State)
    requires Inv(u, p, s)
    ensures |s.fetchers| == |u.cfg.secrets|
  {
  }

  /** Nobody but the handler has moved. */
  predicate OnlySpawned(s: State) {
    s.called == [] && s.sent == [] && s.finished == []
  }

  /** Let the handler run alone until it waits. */
  lemma {:induction false} HandlerFirst(u: Setup, p: Plan, s: State) returns (acts: seq<Action>)
    requires PlanFits(u, p) && Inv(u, p, s) && OnlySpawned(s) && (s.phase.Classifying? || s.phase.Dispatching?)
    ensures Feasible(u, s, acts)
    ensures var t := Exec(u, s, acts); Inv(u, p, t) && OnlySpawned(t) && t.phase.Waiting?
    decreases Measure(|u.cfg.secrets|, s) + 1
  {
    hide ClassifyOne, Phase1, Settle, Early, Respond, ChannelHolds, Logs;
    StepKeeps(u, p, s, Handler);
    StepDecreases(u, p, s, Handler);
    MeasureNonNegative(u, p, s);
    var t := Next(u, s, Handler);
    if t.phase.Waiting? {
      acts := [];
    } else {
      acts := HandlerFirst(u, p, t);
    }
    ExecFirst(u, s, Handler, acts);
    acts := [Handler] + acts;
  }

  /** Between calls of `Serve`: the handler waits, and no fetcher is halfway. */
  ghost predicate Settled(u: Setup, p: Plan, s: State) {
    && PlanFits(u, p) && Inv(u, p, s) && s.phase.Waiting?
    && forall i :: 0 <= i < |s.fetchers| ==> s.fetchers[i].Idle? || s.fetchers[i].Spawned? || s.fetchers[i].Finished?
  }

  /** The next step of one fetcher while the handler waits. */
  lemma Advance(u: Setup, p: Plan, s: State, i: nat) returns (t: State)
    requires PlanFits(u, p) && Inv(u, p, s) && s.phase.Waiting?
    requires i < |s.fetchers| && !s.fetchers[i].Idle? && !s.fetchers[i].Finished?
    ensures Enabled(u, s, Fetch(i)) && t == Next(u, s, Fetch(i)) && Inv(u, p, t) && t.phase.Waiting?
    ensures i < |t.fetchers| && t.fetchers == s.fetchers[i := t.fetchers[i]]
    ensures Rank(t.fetchers[i]) == Rank(s.fetchers[i]) + 1
    ensures t.sent == if Rank(s.fetchers[i]) == 2 && p.Delivers(i) then s.sent + [i] else s.sent
  {
    hide Phase1, Settle, Early, Respond, Logs;
    ActiveCanMove(u, p, s, i);
    StepKeeps(u, p, s, Fetch(i));
    t := Next(u, s, Fetch(i));
    assert s.fetchers[i].Called? ==> FateMatches(p.fates[i], s.fetchers[i].outcome);
  }

  /** One fetcher on to its end: call, send (or unwind), done. */
  lemma {:induction false} Serve(u: Setup, p: Plan, s: State, i: nat) returns (acts: seq<Action>, t: State)
    requires PlanFits(u, p) && Inv(u, p, s) && s.phase.Waiting?
    requires i < |s.fetchers| && !s.fetchers[i].Idle? && !s.fetchers[i].Finished?
    ensures Feasible(u, s, acts) && t == Exec(u, s, acts) && t.phase.Waiting?
    ensures t.fetchers[i].Finished? && t.fetchers == s.fetchers[i := t.fetchers[i]]
    ensures t.sent == if Rank(s.fetchers[i]) < 3 && p.Delivers(i) then s.sent + [i] else s.sent
    decreases 4 - Rank(s.fetchers[i])
  {
    hide Inv, PlanFits, Next, Enabled;
    InvSize(u, p, s);
    var next := Advance(u, p, s, i);
    InvSize(u, p, next);
    if next.fetchers[i].Finished? {
      acts, t := [], next;
    } else {
      acts, t := Serve(u, p, next, i);
    }
    ExecFirst(u, s, Fetch(i), acts);
    acts := [Fetch(i)] + acts;
  }

  /** The deliverer that is due has been started and has not moved yet. */
  lemma DueIsSpawned(u: Setup, p: Plan, s: State, order: seq<nat>)
    requires Settled(u, p, s) && ValidOrder(p, order) && s.sent < order
    ensures
      var i := order[|s.sent|];
      i < |s.fetchers| && s.fetchers[i].Spawned? && p.Delivers(i) && s.sent + [i] <= order
  {
    hide PlanFits, ChannelHolds, Resources, Settle, Early, Phase1;
    var i := order[|s.sent|];
    assert p.Delivers(i) && i !in s.sent;
  }

  /** Serve the deliverers in the given order. */
  lemma {:induction false} ServeInOrder(u: Setup, p: Plan, s: State, order: seq<nat>) returns (acts: seq<Action>)
    requires Settled(u, p, s) && ValidOrder(p, order) && s.sent <= order
    ensures Feasible(u, s, acts)
    ensures Settled(u, p, Exec(u, s, acts)) && Exec(u, s, acts).sent == order
    decreases |order| - |s.sent|
  {
    hide Phase1, Settle, Early, Respond, ChannelHolds, Logs, Next;
    if |s.sent| == |order| {
      acts := [];
    } else {
      var i := order[|s.sent|];
      DueIsSpawned(u, p, s, order);
      var first, t := Serve(u, p, s, i);
      RunKeeps(u, p, s, first);
      var rest := ServeInOrder(u, p, t, order);
      ExecAppend(u, s, first, rest);
      acts := first + rest;
    }
  }

  function SpawnedFrom(fetchers: seq<Fetcher>): nat {
    if fetchers == [] then 0
    else SpawnedFrom(fetchers[1..]) + if fetchers[0].Spawned? then 1 else 0
  }

  lemma {:induction false} SpawnedFromAfter(fetchers: seq<Fetcher>, i: nat, now: Fetcher)
    requires i < |fetchers| && fetchers[i].Spawned? && !now.Spawned?
    ensures SpawnedFrom(fetchers[i := now]) == SpawnedFrom(fetchers) - 1
  {
    if i == 0 {
      assert fetchers[i := now][1..] == fetchers[1..];
    } else {
      SpawnedFromAfter(fetchers[1..], i - 1, now);
      assert fetchers[i := now][1..] == fetchers[1..][i - 1 := now];
    }
  }

  lemma NobodyLeft(p: Plan, s: State)
    requires Logs(p, s)
    requires forall i :: 0 <= i < |s.fetchers| ==> s.fetchers[i].Idle? || s.fetchers[i].Finished?
    ensures s.counter == 0
  {
    NoDupInclusion(s.spawned, s.finished);
  }

  /** Serve the rest, none of which delivers. */
  lemma {:induction false} ServeRest(u: Setup, p: Plan, s: State, order: seq<nat>) returns (acts: seq<Action>)
    requires Settled(u, p, s) && ValidOrder(p, order) && s.sent == order
    ensures Feasible(u, s, acts)
    ensures var t := Exec(u, s, acts); Inv(u, p, t) && t.phase.Waiting? && t.sent == order && t.counter == 0
    decreases SpawnedFrom(s.fetchers)
  {
    hide Phase1, Settle, Early, Respond, ChannelHolds, Next;
    if i :| 0 <= i < |s.fetchers| && s.fetchers[i].Spawned? {
      assert i !in s.sent;
      var first, t := Serve(u, p, s, i);
      RunKeeps(u, p, s, first);
      SpawnedFromAfter(s.fetchers, i, t.fetchers[i]);
      var rest := ServeRest(u, p, t, order);
      ExecAppend(u, s, first, rest);
      acts := first + rest;
    } else {
      acts := [];
      NobodyLeft(p, s);
    }
  }

  /** Drain what is left and return. */
  lemma {:induction false} DrainAll(u: Setup, p: Plan, s: State) returns (acts: seq<Action>)
    requires PlanFits(u, p) && Inv(u, p, s) && s.phase.Draining?
    ensures Feasible(u, s, acts)
    ensures Exec(u, s, acts).phase == Returned(ResultOf(p, s.sent)) && Exec(u, s, acts).sent == s.sent
    decreases |s.buffer|
  {
    hide Lists, ListsDeliveries, Early, Phase1, Respond;
    StepKeeps(u, p, s, Handler);
    var t := Next(u, s, Handler);
    if s.buffer == [] {
      acts := [];
    } else {
      acts := DrainAll(u, p, t);
    }
    ExecFirst(u, s, Handler, acts);
    acts := [Handler] + acts;
  }

  /** Stop waiting, drain and return. */
  lemma Finish(u: Setup, p: Plan, s: State) returns (acts: seq<Action>)
    requires PlanFits(u, p) && Inv(u, p, s) && s.phase.Waiting? && s.counter == 0
    ensures Feasible(u, s, acts)
    ensures Exec(u, s, acts).phase == Returned(ResultOf(p, s.sent)) && Exec(u, s, acts).sent == s.sent
  {
    hide Inv, PlanFits, Feasible, Exec;
    InvSize(u, p, s);
    StepKeeps(u, p, s, Handler);
    var rest := DrainAll(u, p, Next(u, s, Handler));
    ExecFirst(u, s, Handler, rest);
    acts := [Handler] + rest;
  }

  lemma WaitingIsSettled(u: Setup, p: Plan, s: State)
    requires PlanFits(u, p) && Inv(u, p, s) && OnlySpawned(s) && s.phase.Waiting?
    ensures Settled(u, p, s)
  {
    hide Settle, Early, Phase1;
    forall i | 0 <= i < |s.fetchers|
      ensures s.fetchers[i].Idle? || s.fetchers[i].Spawned?
    {
      assert i !in s.called;
    }
  }

  lemma RunInOrder(u: Setup, p: Plan, s0: State, order: seq<nat>) returns (acts: seq<Action>)
    requires PlanFits(u, p) && Inv(u, p, s0) && OnlySpawned(s0) && s0.phase.Classifying?
    requires ValidOrder(p, order)
    ensures Feasible(u, s0, acts)
    ensures Exec(u, s0, acts).phase == Returned(ResultOf(p, order)) && Exec(u, s0, acts).sent == order
  {
    hide Inv, PlanFits, Feasible, Exec, ResultOf;
    InvSize(u, p, s0);
    var a1 := HandlerFirst(u, p, s0);
    var s1 := Exec(u, s0, a1);
    WaitingIsSettled(u, p, s1);
    var a2 := ServeInOrder(u, p, s1, order);
    var s2 := Exec(u, s1, a2);
    var a3 := ServeRest(u, p, s2, order);
    var s3 := Exec(u, s2, a3);
    var a4 := Finish(u, p, s3);
    ExecAppend(u, s2, a3, a4);
    ExecAppend(u, s1, a2, a3 + a4);
    ExecAppend(u, s0, a1, a2 + (a3 + a4));
    acts := a1 + (a2 + (a3 + a4));
  }

  /** Every complete order of deliveries is the order of some run that returns. */
  lemma EveryOrderHasARun(u: Setup, order: seq<nat>) returns (acts: seq<Action>)
    requires PlanOf(u).Valid() && ValidOrder(PlanOf(u), order)
    ensures Feasible(u, Init(u), acts)
    ensures Exec(u, Init(u), acts).phase == Returned(ResultOf(PlanOf(u), order))
    ensures Exec(u, Init(u), acts).sent == order
  {
    var p := PlanOf(u);
    PlanOfFits(u);
    InitInv(u, p);
    acts := RunInOrder(u, p, Init(u), order);
  }

  /** From waiting, serve a fetcher that panics and let the process end. */
  lemma ServeThenExit(u: Setup, p: Plan, s: State, i: nat) returns (acts: seq<Action>)
    requires Settled(u, p, s) && i < |p.fates| && p.fates[i].Panicked?
    requires |s.fetchers| == |p.fates| && s.fetchers[i].Spawned?
    ensures Feasible(u, s, acts) && Exec(u, s, acts).phase.Exited?
  {
    hide Settle, Early, Phase1, Respond;
    var first, t := Serve(u, p, s, i);
    RunKeeps(u, p, s, first);
    assert FateMatches(p.fates[i], t.fetchers[i].outcome);
    assert Enabled(u, t, Exit);
    ExecFirst(u, t, Exit, []);
    ExecAppend(u, s, first, [Exit] + []);
    acts := first + ([Exit] + []);
  }

  lemma ExitRun(u: Setup, p: Plan, s0: State, i: nat) returns (acts: seq<Action>)
    requires PlanFits(u, p) && Inv(u, p, s0) && OnlySpawned(s0) && s0.phase.Classifying?
    requires i < |p.fates| && p.fates[i].Panicked?
    ensures Feasible(u, s0, acts) && Exec(u, s0, acts).phase.Exited?
  {
    hide Feasible, Exec, Settle, Early, Phase1, Respond, ChannelHolds;
    var a1 := HandlerFirst(u, p, s0);
    var s1 := Exec(u, s0, a1);
    WaitingIsSettled(u, p, s1);
    assert i !in s1.called && !s1.fetchers[i].Idle?;
    var a2 := ServeThenExit(u, p, s1, i);
    ExecAppend(u, s0, a1, a2);
    acts := a1 + a2;
  }

  /** A run can end with the process gone if and only if some fetcher panics. */
  lemma ExitReachable(u: Setup)
    ensures (exists acts :: Feasible(u, Init(u), acts) && Exec(u, Init(u), acts).phase.Exited?) <==> !PlanOf(u).PanicFree()
  {
    var p := PlanOf(u);
    if acts :| Feasible(u, Init(u), acts) && Exec(u, Init(u), acts).phase.Exited? {
      InvAlways(u, acts);
    }
    if !p.PanicFree() {
      var i :| 0 <= i < |p.fates| && p.fates[i].Panicked?;
      PlanOfFits(u);
      InitInv(u, p);
      var acts := ExitRun(u, p, Init(u), i);
    }
  }

  // ------------------------------------------------------------- whole mounts

  ghost predicate Returns(u: Setup, acts: seq<Action>, result: MountResult) {
    Feasible(u, Init(u), acts) && Exec(u, Init(u), acts).phase == Returned(result)
  }

  /** The answers of runs are the answers of orders, no more and no fewer. */
  lemma RunsAreOrders(u: Setup, result: MountResult)
    ensures PlanOf(u).Valid()
    ensures (exists acts :: Returns(u, acts, result))
       <==> exists order :: ValidOrder(PlanOf(u), order) && ResultOf(PlanOf(u), order) == result
  {
    var p := PlanOf(u);
    PlanOfValid(u);
    if acts :| Returns(u, acts, result) {
      EveryRunRefines(u, acts);
      assert ValidOrder(p, Exec(u, Init(u), acts).sent);
    }
    if order :| ValidOrder(p, order) && ResultOf(p, order) == result {
      var acts := EveryOrderHasARun(u, order);
      assert Returns(u, acts, result);
    }
  }

  /**
   With distinct identities and no panic, every schedule that runs to its end returns
   what fetching the entries one by one in list order returns.
   */
  lemma DistinctMountIsSequential(u: Setup, acts: seq<Action>)
    requires Feasible(u, Init(u), acts) && Over(u, Exec(u, Init(u), acts))
    requires PlanOf(u).PanicFree() && PlanOf(u).DistinctIdentities()
    ensures PlanOf(u).Valid() && Exec(u, Init(u), acts).phase == Returned(OneByOne(PlanOf(u)))
  {
    EveryRunRefines(u, acts);
    DistinctIdentitiesOrderFree(PlanOf(u), Exec(u, Init(u), acts).sent);
  }

  /**
   No mixing, in any run that mounts, duplicates and panics included: entry `i` gets its
   own path, mode and name, and its contents and version come together from one fetch
   made, with the client its route selects, for an entry of the same identity.
   */
  lemma MountedMeansFetched(u: Setup, acts: seq<Action>, i: nat) returns (j: nat)
    requires Feasible(u, Init(u), acts)
    requires Exec(u, Init(u), acts).phase.Returned? && Exec(u, Init(u), acts).phase.result.Mounted?
    requires i < |u.cfg.secrets|
    ensures j < |u.cfg.secrets| && IdOf(u.cfg.secrets[j]) == IdOf(u.cfg.secrets[i])
    ensures u.cfg.secrets[j].resourceName == u.cfg.secrets[i].resourceName
            && u.cfg.secrets[j].fileName == u.cfg.secrets[i].fileName
            && u.cfg.secrets[j].path == u.cfg.secrets[i].path
    ensures
      var r := Exec(u, Init(u), acts).phase.result;
      var e := u.cfg.secrets[i];
      && |r.files| == |r.versions| == |u.cfg.secrets|
      && r.files[i].path == (if e.path != "" then e.path else e.fileName)
      && r.files[i].mode as int == (if e.mode.Some? then e.mode.value as int else u.cfg.permissions as int)
      && r.versions[i].id == e.resourceName
      && FetchedFor(u.env, Phase1(u).clients, j, u.cfg.secrets[j], r.versions[i].version, r.files[i].contents)
  {
    EveryRunRefines(u, acts);
    j := NoMixing(PlanOf(u), Exec(u, Init(u), acts).sent, i);
    SuccessIsFetched(u, j);
  }

  /** Every run that returns reports failed access if and only if some name is rejected,
      or some identity has a failing fetch and no successful one. */
  lemma RunsMustFail(u: Setup)
    ensures PlanOf(u).Valid()
    ensures (forall acts, result :: Returns(u, acts, result) ==> result.AccessFailed?)
       <==> exists i :: 0 <= i < |PlanOf(u).fates| && Fatal(PlanOf(u), i)
  {
    var p := PlanOf(u);
    PlanOfValid(u);
    MustFail(p);
    if forall acts, result :: Returns(u, acts, result) ==> result.AccessFailed? {
      forall order | ValidOrder(p, order)
        ensures ResultOf(p, order).AccessFailed?
      {
        var acts := EveryOrderHasARun(u, order);
        assert Returns(u, acts, ResultOf(p, order));
      }
    }
    forall acts, result | Returns(u, acts, result)
      ensures ValidOrder(p, Exec(u, Init(u), acts).sent) && result == ResultOf(p, Exec(u, Init(u), acts).sent)
    {
      EveryRunRefines(u, acts);
    }
  }
}
