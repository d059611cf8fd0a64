/**
 The fan-out/fan-in protocol of a mount as a transition system: the handler and one
 goroutine per accepted entry, sharing a bounded channel and a WaitGroup, interleaved
 in every possible way.

 A fetcher that panics runs its deferred `Done` before the process ends, so the handler
 may still take steps in between; `Exit` is the end of the process.
 */
module MountProtocol {
  import opened Sequences
  import opened ResourceNames
  import opened RegionalClients
  import opened Fetching
  import opened MountSpec
  import opened MountSetup
  import opened Goroutines

  /** Where a fetcher goroutine is: not started, started, past its remote call, past its
      body (only the deferred `Done` is left), gone. */
  datatype Fetcher =
    | Idle
    | Spawned
    | Called(outcome: Outcome)
    | Leaving(outcome: Outcome)
    | Finished(outcome: Outcome)

  datatype Phase =
    | Classifying(next: nat)
    | Dispatching(next: nat)
    | Waiting
    | Draining
    | Returned(result: MountResult)
    | Exited
    | Fault

  datatype State = State(
    phase: Phase,
    results: ResultMap,
    clients: Clients,
    fetchers: seq<Fetcher>,
    counter: nat,
    buffer: seq<Resource>,
    closed: bool,
    metrics: seq<Record>,
    // history: which fetchers were spawned, made their call, sent and finished, in order,
    // and how many items the handler has drained
    spawned: seq<nat>,
    called: seq<nat>,
    sent: seq<nat>,
    finished: seq<nat>,
    drained: nat)

  datatype Action = Handler | Fetch(i: nat) | Exit

  function Init(u: Setup): State {
    State(Classifying(0), map[], u.before, seq(|u.cfg.secrets|, _ => Idle), 0, [], false, [], [], [], [], [], 0)
  }

  predicate Terminal(phase: Phase) {
    phase.Returned? || phase.Exited? || phase.Fault?
  }

  /** The handler skips an entry whose identity already has an error. */
  predicate Skips(results: ResultMap, e: Entry) {
    IdOf(e) in results && results[IdOf(e)].err.Some?
  }

  predicate Enabled(u: Setup, s: State, a: Action)
    requires |s.fetchers| == |u.cfg.secrets|
  {
    match a
    case Handler =>
      s.phase.Classifying? || s.phase.Dispatching? || s.phase.Draining? || (s.phase.Waiting? && s.counter == 0)
    case Fetch(i) =>
      && !Terminal(s.phase)
      && i < |s.fetchers|
      && (match s.fetchers[i]
          case Spawned => true
          // a send blocks while the buffer is full, and panics once the channel is closed
          case Called(outcome) => outcome.Delivered? ==> s.closed || |s.buffer| < |u.cfg.secrets|
          case Leaving(_) => true
          case _ => false)
    case Exit =>
      && !Terminal(s.phase)
      && exists i :: 0 <= i < |s.fetchers| && s.fetchers[i].Finished? && !s.fetchers[i].outcome.Delivered?
  }

  function HandlerStep(u: Setup, s: State): State
    requires |s.fetchers| == |u.cfg.secrets|
  {
    var n := |u.cfg.secrets|;
    match s.phase
    case Classifying(k) =>
      if k >= n then s.(phase := Dispatching(0))
      else
        var c := ClassifyOne(u, Classified(s.results, s.clients), u.cfg.secrets[k]);
        s.(phase := Classifying(k + 1), results := c.results, clients := c.clients)
    case Dispatching(k) =>
      if k >= n then s.(phase := Waiting)
      else if Skips(s.results, u.cfg.secrets[k]) then s.(phase := Dispatching(k + 1))
      else
        s.(phase := Dispatching(k + 1), fetchers := s.fetchers[k := Spawned], counter := s.counter + 1,
           spawned := s.spawned + [k])
    case Waiting => s.(phase := Draining, closed := true)
    case Draining =>
      if s.buffer != [] then
        s.(results := s.results[KeyOf(s.buffer[0]) := s.buffer[0]], buffer := s.buffer[1..], drained := s.drained + 1)
      else s.(phase := Returned(Respond(u.cfg, s.results)))
    case _ => s
  }

  function FetcherStep(u: Setup, s: State, i: nat): State
    requires i < |s.fetchers| == |u.cfg.secrets|
  {
    match s.fetchers[i]
    case Spawned =>
      var outcome := OutcomeOf(u.env, s.clients, i, u.cfg.secrets[i]);
      s.(fetchers := s.fetchers[i := Called(outcome)], called := s.called + [i],
         metrics := s.metrics + RecordsOf(u.env, s.clients, i, u.cfg.secrets[i]))
    case Called(Delivered(resource)) =>
      if s.closed then s.(phase := Fault)
      else
        s.(fetchers := s.fetchers[i := Leaving(Delivered(resource))], buffer := s.buffer + [resource], sent := s.sent + [i])
    case Called(outcome) => s.(fetchers := s.fetchers[i := Leaving(outcome)])
    case Leaving(outcome) =>
      if s.counter == 0 then s.(phase := Fault)
      else
        s.(fetchers := s.fetchers[i := Finished(outcome)], counter := s.counter - 1, finished := s.finished + [i])
    case _ => s
  }

  function Next(u: Setup, s: State, a: Action): (t: State)
    requires |s.fetchers| == |u.cfg.secrets|
    requires Enabled(u, s, a)
    ensures |t.fetchers| == |u.cfg.secrets|
  {
    match a
    case Handler => HandlerStep(u, s)
    case Fetch(i) => FetcherStep(u, s, i)
    case Exit => s.(phase := Exited)
  }

  /** The rules of channel and WaitGroup: a send waits for room, a send on a closed channel
      and a `Done` below zero panic, and `Wait` returns only at zero. */
  lemma PrimitiveRules(u: Setup, s: State, i: nat)
    requires |s.fetchers| == |u.cfg.secrets| && !Terminal(s.phase) && i < |s.fetchers|
    ensures s.fetchers[i].Called? && s.fetchers[i].outcome.Delivered? && !s.closed ==>
              (Enabled(u, s, Fetch(i)) <==> |s.buffer| < |u.cfg.secrets|)
    ensures s.fetchers[i].Called? && s.fetchers[i].outcome.Delivered? && s.closed ==>
              Enabled(u, s, Fetch(i)) && Next(u, s, Fetch(i)).phase.Fault?
    ensures s.fetchers[i].Leaving? && s.counter == 0 ==> Enabled(u, s, Fetch(i)) && Next(u, s, Fetch(i)).phase.Fault?
    ensures s.phase.Waiting? ==> (Enabled(u, s, Handler) <==> s.counter == 0)
  {
  }

  // --------------------------------------------------------------------- runs

  /** The schedule `acts` can be followed from `s`. */
  predicate Feasible(u: Setup, s: State, acts: seq<Action>)
    requires |s.fetchers| == |u.cfg.secrets|
    decreases |acts|
  {
    acts == [] || (Enabled(u, s, acts[0]) && Feasible(u, Next(u, s, acts[0]), acts[1..]))
  }

  /** The state reached by following it. */
  function Exec(u: Setup, s: State, acts: seq<Action>): (t: State)
    requires |s.fetchers| == |u.cfg.secrets|
    requires Feasible(u, s, acts)
    ensures |t.fetchers| == |u.cfg.secrets|
    decreases |acts|
  {
    if acts == [] then s else Exec(u, Next(u, s, acts[0]), acts[1..])
  }

  // --------------------------------------------------------------- invariants

  predicate FateMatches(fate: Fate, outcome: Outcome) {
    match outcome
    case Delivered(resource) => fate == Delivery(resource)
    case _ => fate == Panicked
  }

  /** A plan that says of every entry what the setup makes of it. */
  ghost predicate PlanFits(u: Setup, p: Plan) {
    && p.cfg == u.cfg && p.Valid()
    && (forall i :: 0 <= i < |u.cfg.secrets| ==> RejectsAlike(u, p, i))
    && (forall i :: 0 <= i < |u.cfg.secrets| && !p.fates[i].Turned? ==>
          FateMatches(p.fates[i], OutcomeOf(u.env, Phase1(u).clients, i, u.cfg.secrets[i])))
  }

  lemma PlanOfFits(u: Setup)
    ensures PlanFits(u, PlanOf(u))
  {
    PlanOfValid(u);
    PlanRejectsAlike(u);
  }

  function Rank(f: Fetcher): nat {
    match f
    case Idle => 0
    case Spawned => 1
    case Called(_) => 2
    case Leaving(_) => 3
    case Finished(_) => 4
  }

  ghost predicate FetchersFit(p: Plan, s: State) {
    && |s.fetchers| == |p.fates| == |p.cfg.secrets|
    && forall i :: 0 <= i < |s.fetchers| ==>
         && (Rank(s.fetchers[i]) >= 1 ==> !p.fates[i].Turned?)
         && (Rank(s.fetchers[i]) >= 2 ==> FateMatches(p.fates[i], s.fetchers[i].outcome))
  }

  /** A log lists, once each, the fetchers that have come at least as far as `rank`. */
  ghost predicate Lists(log: seq<nat>, fetchers: seq<Fetcher>, rank: nat) {
    NoDup(log) && forall i: nat :: i in log <==> i < |fetchers| && Rank(fetchers[i]) >= rank
  }

  ghost predicate ListsDeliveries(log: seq<nat>, p: Plan, fetchers: seq<Fetcher>) {
    NoDup(log) && forall i: nat :: i in log <==> i < |fetchers| && Rank(fetchers[i]) >= 3 && p.Delivers(i)
  }

  ghost predicate Logs(p: Plan, s: State) {
    && Lists(s.spawned, s.fetchers, 1)
    && Lists(s.called, s.fetchers, 2)
    && ListsDeliveries(s.sent, p, s.fetchers)
    && Lists(s.finished, s.fetchers, 4)
    && s.counter + |s.finished| == |s.spawned|
  }

  function Resources(p: Plan, order: seq<nat>): seq<Resource>
    requires forall k :: 0 <= k < |order| ==> p.Delivers(order[k])
  {
    seq(|order|, k requires 0 <= k < |order| && p.Delivers(order[k]) => p.fates[order[k]].resource)
  }

  ghost predicate ChannelHolds(p: Plan, s: State) {
    && Deliverers(p, s.sent)
    && s.drained <= |s.sent|
    && s.buffer == Resources(p, s.sent[s.drained..])
  }

  ghost predicate Quiet(p: Plan, s: State)
    requires |s.fetchers| == |p.fates|
  {
    forall i :: 0 <= i < |s.fetchers| ==> if p.fates[i].Turned? then s.fetchers[i].Idle? else s.fetchers[i].Finished?
  }

  ghost predicate Control(u: Setup, p: Plan, s: State)
    requires FetchersFit(p, s) && p.cfg == u.cfg && Deliverers(p, s.sent) && s.drained <= |s.sent|
  {
    match s.phase
    case Classifying(k) =>
      && k <= |p.fates| && Classified(s.results, s.clients) == ClassifyFirst(u, k)
      && !s.closed && s.drained == 0
      && forall i :: 0 <= i < |s.fetchers| ==> s.fetchers[i].Idle?
    case Dispatching(k) =>
      && k <= |p.fates| && s.results == Early(p) && s.clients == Phase1(u).clients
      && !s.closed && s.drained == 0
      && forall i :: 0 <= i < |s.fetchers| ==> (s.fetchers[i].Idle? <==> i >= k || p.fates[i].Turned?)
    case Waiting =>
      && s.results == Early(p) && s.clients == Phase1(u).clients
      && !s.closed && s.drained == 0
      && forall i :: 0 <= i < |s.fetchers| ==> (s.fetchers[i].Idle? <==> p.fates[i].Turned?)
    case Draining =>
      && s.results == Settle(p, s.sent[..s.drained]) && s.clients == Phase1(u).clients
      && s.closed && Quiet(p, s)
    case Returned(result) =>
      && s.drained == |s.sent| && result == ResultOf(p, s.sent) && s.clients == Phase1(u).clients
      && s.closed && Quiet(p, s)
    case Exited => !p.PanicFree()
    case Fault => false
  }

  /** Everything that holds in every reachable state. */
  ghost predicate Inv(u: Setup, p: Plan, s: State) {
    && p.cfg == u.cfg
    && FetchersFit(p, s)
    && Logs(p, s)
    && ChannelHolds(p, s)
    && Control(u, p, s)
  }

  lemma InitInv(u: Setup, p: Plan)
    requires PlanFits(u, p)
    ensures Inv(u, p, Init(u))
  {
  }

  // ------------------------------------------------- each step keeps the invariant

  /** A log after one fetcher has moved on, whether or not it passed the log's rank. */
  lemma LogAfter(log: seq<nat>, fetchers: seq<Fetcher>, rank: nat, i: nat, now: Fetcher)
    requires Lists(log, fetchers, rank) && i < |fetchers| && Rank(fetchers[i]) <= Rank(now)
    ensures Lists(if Rank(fetchers[i]) < rank <= Rank(now) then log + [i] else log, fetchers[i := now], rank)
  {
  }

  lemma DeliveryLogAfter(log: seq<nat>, p: Plan, fetchers: seq<Fetcher>, i: nat, now: Fetcher)
    requires ListsDeliveries(log, p, fetchers) && i < |fetchers| && Rank(fetchers[i]) <= Rank(now)
    ensures ListsDeliveries(if Rank(fetchers[i]) < 3 <= Rank(now) && p.Delivers(i) then log + [i] else log,
                            p, fetchers[i := now])
  {
  }

  lemma LogsAfter(p: Plan, s: State, t: State, i: nat, now: Fetcher)
    requires Logs(p, s) && i < |s.fetchers| && t.fetchers == s.fetchers[i := now]
    requires var was := Rank(s.fetchers[i]);
             && was < Rank(now)
             && t.spawned == (if was < 1 <= Rank(now) then s.spawned + [i] else s.spawned)
             && t.called == (if was < 2 <= Rank(now) then s.called + [i] else s.called)
             && t.sent == (if was < 3 <= Rank(now) && p.Delivers(i) then s.sent + [i] else s.sent)
             && t.finished == (if was < 4 <= Rank(now) then s.finished + [i] else s.finished)
             && t.counter + |t.finished| == |t.spawned|
    ensures Logs(p, t)
  {
    LogAfter(s.spawned, s.fetchers, 1, i, now);
    LogAfter(s.called, s.fetchers, 2, i, now);
    DeliveryLogAfter(s.sent, p, s.fetchers, i, now);
    LogAfter(s.finished, s.fetchers, 4, i, now);
  }

  lemma ClassifyOneKeeps(u: Setup, p: Plan, s: State, c: Classified)
    requires Inv(u, p, s) && s.phase.Classifying? && s.phase.next < |p.fates|
    requires c == ClassifyFirst(u, s.phase.next + 1)
    ensures Inv(u, p, s.(phase := Classifying(s.phase.next + 1), results := c.results, clients := c.clients))
  {
  }

  lemma ClassifyEndKeeps(u: Setup, p: Plan, s: State)
    requires Inv(u, p, s) && s.phase.Classifying? && s.phase.next == |p.fates|
    requires forall i :: 0 <= i < |u.cfg.secrets| ==> RejectsAlike(u, p, i)
    ensures Inv(u, p, HandlerStep(u, s))
  {
    Phase1RecordsEarly(u, p, s.phase.next);
  }

  lemma ClassifiedNext(u: Setup, k: nat, c: Classified)
    requires k < |u.cfg.secrets| && c == ClassifyFirst(u, k)
    ensures ClassifyOne(u, c, u.cfg.secrets[k]) == ClassifyFirst(u, k + 1)
  {
  }

  lemma SkipsRejected(p: Plan, k: nat)
    requires p.Valid() && k < |p.fates|
    ensures Skips(Early(p), p.cfg.secrets[k]) <==> p.fates[k].Turned?
  {
    EarlyExact(p, |p.fates|);
    var e := p.cfg.secrets[k];
    if IdOf(e) in Early(p) {
      var i :| 0 <= i < |p.fates| && p.fates[i].Turned? && p.Id(i) == IdOf(e);
      assert IdOf(p.cfg.secrets[i]) == IdOf(p.cfg.secrets[k]);
    } else {
      assert p.Id(k) == IdOf(e);
    }
  }

  lemma DispatchKeeps(u: Setup, p: Plan, s: State)
    requires PlanFits(u, p) && Inv(u, p, s) && s.phase.Dispatching?
    ensures Inv(u, p, HandlerStep(u, s))
  {
    var k := s.phase.next;
    if k < |p.fates| {
      SkipsRejected(p, k);
      if !Skips(s.results, u.cfg.secrets[k]) {
        LogsAfter(p, s, HandlerStep(u, s), k, Spawned);
      }
    }
  }

  /** When the counter is back to zero, every fetcher that was started has finished. */
  lemma ZeroMeansFinished(p: Plan, s: State)
    requires Logs(p, s) && s.counter == 0
    ensures forall i :: 0 <= i < |s.fetchers| ==> s.fetchers[i].Idle? || s.fetchers[i].Finished?
  {
    NoDupInclusion(s.finished, s.spawned);
    forall i | 0 <= i < |s.fetchers|
      ensures s.fetchers[i].Idle? || s.fetchers[i].Finished?
    {
      if Rank(s.fetchers[i]) >= 1 {
        assert i in s.spawned;
      }
    }
  }

  lemma WaitKeeps(u: Setup, p: Plan, s: State)
    requires Inv(u, p, s) && s.phase.Waiting? && s.counter == 0
    ensures Inv(u, p, HandlerStep(u, s))
  {
    ZeroMeansFinished(p, s);
    assert s.sent[..s.drained] == [];
  }

  /** One item leaves the buffer and enters the map. */
  lemma TakeOne(p: Plan, sent: seq<nat>, drained: nat)
    requires |p.fates| == |p.cfg.secrets| && Deliverers(p, sent) && drained < |sent|
    ensures
      var item := Resources(p, sent[drained..])[0];
      && Settle(p, sent[..drained + 1]) == Settle(p, sent[..drained])[KeyOf(item) := item]
      && Resources(p, sent[drained + 1..]) == Resources(p, sent[drained..])[1..]
  {
    assert sent[..drained + 1][..drained] == sent[..drained];
    assert sent[drained..][1..] == sent[drained + 1..];
  }

  lemma DrainKeeps(u: Setup, p: Plan, s: State)
    requires Inv(u, p, s) && s.phase.Draining?
    ensures Inv(u, p, HandlerStep(u, s))
  {
    if s.buffer == [] {
      assert s.sent[..s.drained] == s.sent;
    } else {
      TakeOne(p, s.sent, s.drained);
    }
  }

  /** While a fetcher has not finished, the counter is positive. */
  lemma ActiveIsCounted(p: Plan, s: State, i: nat)
    requires Logs(p, s) && i < |s.fetchers| && !s.fetchers[i].Idle? && !s.fetchers[i].Finished?
    ensures s.counter > 0
  {
    assert i in s.spawned && i !in s.finished;
    NoDupInclusion(s.finished, s.spawned);
  }

  /** Fetchers are active only between dispatch and drain, when the channel is open. */
  lemma ActivePhase(u: Setup, p: Plan, s: State, i: nat)
    requires Inv(u, p, s) && i < |s.fetchers| && !s.fetchers[i].Idle? && !s.fetchers[i].Finished?
    requires !Terminal(s.phase)
    ensures s.phase.Dispatching? || s.phase.Waiting?
  {
  }

  lemma CallAnswers(u: Setup, p: Plan, s: State, i: nat)
    requires PlanFits(u, p) && FetchersFit(p, s) && i < |s.fetchers| && s.fetchers[i].Spawned?
    requires s.clients == Phase1(u).clients
    ensures FateMatches(p.fates[i], OutcomeOf(u.env, s.clients, i, u.cfg.secrets[i]))
  {
  }

  lemma CallKeeps(u: Setup, p: Plan, s: State, i: nat, outcome: Outcome, metrics: seq<Record>)
    requires Inv(u, p, s) && !Terminal(s.phase) && i < |s.fetchers| && s.fetchers[i].Spawned?
    requires FateMatches(p.fates[i], outcome)
    ensures Inv(u, p, s.(fetchers := s.fetchers[i := Called(outcome)], called := s.called + [i], metrics := metrics))
  {
    ActivePhase(u, p, s, i);
    var t := s.(fetchers := s.fetchers[i := Called(outcome)], called := s.called + [i], metrics := metrics);
    LogsAfter(p, s, t, i, Called(outcome));
  }

  lemma SendKeeps(u: Setup, p: Plan, s: State, i: nat)
    requires Inv(u, p, s) && !Terminal(s.phase) && i < |s.fetchers| && s.fetchers[i].Called?
    ensures Inv(u, p, FetcherStep(u, s, i))
  {
    hide OutcomeOf, RecordsOf, Phase1, Settle, Early, Lists, ListsDeliveries;
    ActivePhase(u, p, s, i);
    var outcome := s.fetchers[i].outcome;
    var t := FetcherStep(u, s, i);
    LogsAfter(p, s, t, i, Leaving(outcome));
    if outcome.Delivered? {
      assert t.sent[t.drained..] == s.sent[s.drained..] + [i];
      assert t.buffer == Resources(p, t.sent[t.drained..]);
    }
  }

  lemma DoneKeeps(u: Setup, p: Plan, s: State, i: nat)
    requires Inv(u, p, s) && !Terminal(s.phase) && i < |s.fetchers| && s.fetchers[i].Leaving?
    ensures Inv(u, p, FetcherStep(u, s, i))
  {
    hide OutcomeOf, RecordsOf, Phase1, Settle, Early, Lists, ListsDeliveries;
    ActivePhase(u, p, s, i);
    ActiveIsCounted(p, s, i);
    LogsAfter(p, s, FetcherStep(u, s, i), i, Finished(s.fetchers[i].outcome));
  }

  lemma ExitKeeps(u: Setup, p: Plan, s: State)
    requires Inv(u, p, s) && Enabled(u, s, Exit)
    ensures Inv(u, p, Next(u, s, Exit))
  {
    var i :| 0 <= i < |s.fetchers| && s.fetchers[i].Finished? && !s.fetchers[i].outcome.Delivered?;
    assert p.fates[i].Panicked?;
  }

  lemma ClassifyKeeps(u: Setup, p: Plan, s: State)
    requires PlanFits(u, p) && Inv(u, p, s) && s.phase.Classifying?
    ensures Inv(u, p, HandlerStep(u, s))
  {
    hide ClassifyOne, ClassifyFirst, Logs, ChannelHolds;
    if s.phase.next < |p.fates| {
      var c := Classified(s.results, s.clients);
      ClassifiedNext(u, s.phase.next, c);
      ClassifyOneKeeps(u, p, s, ClassifyOne(u, c, u.cfg.secrets[s.phase.next]));
    } else {
      ClassifyEndKeeps(u, p, s);
    }
  }

  lemma HandlerKeeps(u: Setup, p: Plan, s: State)
    requires PlanFits(u, p) && Inv(u, p, s) && Enabled(u, s, Handler)
    ensures Inv(u, p, HandlerStep(u, s))
  {
    match s.phase
    case Classifying(_) => ClassifyKeeps(u, p, s);
    case Dispatching(_) => DispatchKeeps(u, p, s);
    case Waiting => WaitKeeps(u, p, s);
    case Draining => DrainKeeps(u, p, s);
  }

  lemma SpawnedKeeps(u: Setup, p: Plan, s: State, i: nat)
    requires PlanFits(u, p) && Inv(u, p, s) && !Terminal(s.phase) && i < |s.fetchers| && s.fetchers[i].Spawned?
    ensures Inv(u, p, FetcherStep(u, s, i))
  {
    ActivePhase(u, p, s, i);
    CallAnswers(u, p, s, i);
    var e := u.cfg.secrets[i];
    CallKeeps(u, p, s, i, OutcomeOf(u.env, s.clients, i, e), s.metrics + RecordsOf(u.env, s.clients, i, e));
  }

  lemma FetcherKeeps(u: Setup, p: Plan, s: State, i: nat)
    requires PlanFits(u, p) && Inv(u, p, s) && Enabled(u, s, Fetch(i))
    ensures Inv(u, p, FetcherStep(u, s, i))
  {
    match s.fetchers[i]
    case Spawned => SpawnedKeeps(u, p, s, i);
    case Called(_) => SendKeeps(u, p, s, i);
    case Leaving(_) => DoneKeeps(u, p, s, i);
  }

  /** Every step of every schedule keeps the invariant. */
  lemma StepKeeps(u: Setup, p: Plan, s: State, a: Action)
    requires PlanFits(u, p) && Inv(u, p, s) && Enabled(u, s, a)
    ensures Inv(u, p, Next(u, s, a))
  {
    match a
    case Exit => ExitKeeps(u, p, s);
    case Fetch(i) => FetcherKeeps(u, p, s, i);
    case Handler => HandlerKeeps(u, p, s);
  }

  // ------------------------------------------------------------------- safety

  lemma {:induction false} RunKeeps(u: Setup, p: Plan, s: State, acts: seq<Action>)
    requires PlanFits(u, p) && Inv(u, p, s) && Feasible(u, s, acts)
    ensures Inv(u, p, Exec(u, s, acts))
    decreases |acts|
  {
    if acts == [] {
    } else {
      StepKeeps(u, p, s, acts[0]);
      RunKeeps(u, p, Next(u, s, acts[0]), acts[1..]);
    }
  }

  /** The invariant holds after every schedule. */
  lemma InvAlways(u: Setup, acts: seq<Action>)
    requires Feasible(u, Init(u), acts)
    ensures Inv(u, PlanOf(u), Exec(u, Init(u), acts))
  {
    var p := PlanOf(u);
    PlanOfFits(u);
    InitInv(u, p);
    RunKeeps(u, p, Init(u), acts);
  }

  /**
   No send ever blocks or meets a closed channel, although nobody receives before all
   fetchers are done: the buffer has room for every send still to come.
   */
  lemma RoomToSend(u: Setup, p: Plan, s: State, i: nat)
    requires Inv(u, p, s) && !Terminal(s.phase) && i < |s.fetchers|
    requires s.fetchers[i].Called? && s.fetchers[i].outcome.Delivered?
    ensures !s.closed && |s.buffer| < |u.cfg.secrets|
    ensures Enabled(u, s, Fetch(i))
  {
    ActivePhase(u, p, s, i);
    assert i !in s.sent;
    NoDupAppend(s.sent, i);
    NoDupBounded(s.sent + [i], |u.cfg.secrets|);
  }

  /** An active fetcher can always move, and its counter entry is still outstanding. */
  lemma ActiveCanMove(u: Setup, p: Plan, s: State, i: nat)
    requires Inv(u, p, s) && !Terminal(s.phase) && i < |s.fetchers|
    requires !s.fetchers[i].Idle? && !s.fetchers[i].Finished?
    ensures Enabled(u, s, Fetch(i)) && s.counter > 0
  {
    ActiveIsCounted(p, s, i);
    if s.fetchers[i].Called? && s.fetchers[i].outcome.Delivered? {
      RoomToSend(u, p, s, i);
    }
  }

  /** While the handler waits on a positive counter, some fetcher is active. */
  lemma PositiveMeansActive(p: Plan, s: State) returns (i: nat)
    requires Logs(p, s) && s.counter > 0
    ensures i < |s.fetchers| && !s.fetchers[i].Idle? && !s.fetchers[i].Finished?
  {
    if forall i :: i in s.spawned ==> i in s.finished {
      NoDupInclusion(s.spawned, s.finished);
      assert false;
    }
    i :| i in s.spawned && i !in s.finished;
  }

  /** No deadlock: until the run is over, somebody can move. */
  lemma Progress(u: Setup, p: Plan, s: State) returns (a: Action)
    requires Inv(u, p, s) && !Terminal(s.phase)
    ensures Enabled(u, s, a)
    ensures s.phase.Waiting? && s.counter > 0 ==> a.Fetch?
  {
    a := Handler;
    if s.phase.Waiting? && s.counter > 0 {
      var i := PositiveMeansActive(p, s);
      ActiveCanMove(u, p, s, i);
      a := Fetch(i);
    }
  }

  /** The channel and the WaitGroup are used within their rules: never full when someone
      sends, never closed while a fetcher is left, counter equal to started-but-unfinished. */
  ghost predicate WellUsed(u: Setup, s: State)
    requires |s.fetchers| == |u.cfg.secrets|
  {
    && !s.phase.Fault?
    && |s.buffer| <= |u.cfg.secrets|
    && s.counter == |s.spawned| - |s.finished|
    && (s.phase.Draining? || s.phase.Returned? ==> s.closed && s.counter == 0)
    && (forall i: nat :: i in s.spawned && i !in s.finished && !Terminal(s.phase) ==>
          !s.closed && s.counter > 0 && Enabled(u, s, Fetch(i)))
  }

  lemma InvMeansWellUsed(u: Setup, p: Plan, s: State)
    requires Inv(u, p, s)
    ensures WellUsed(u, s)
  {
    hide Phase1, Settle, Early, Respond;
    NoDupBounded(s.sent, |u.cfg.secrets|);
    if s.phase.Draining? || s.phase.Returned? {
      NoDupInclusion(s.spawned, s.finished);
    }
    forall i: nat | i in s.spawned && i !in s.finished && !Terminal(s.phase)
      ensures !s.closed && s.counter > 0 && Enabled(u, s, Fetch(i))
    {
      ActiveCanMove(u, p, s, i);
      ActivePhase(u, p, s, i);
    }
  }

  /** Capacity, closing and counting after every schedule. */
  lemma ChannelAndCounter(u: Setup, acts: seq<Action>)
    requires Feasible(u, Init(u), acts)
    ensures WellUsed(u, Exec(u, Init(u), acts))
  {
    InvAlways(u, acts);
    InvMeansWellUsed(u, PlanOf(u), Exec(u, Init(u), acts));
  }

  // -------------------------------------------------------------- termination

  function Remaining(fetchers: seq<Fetcher>): nat {
    if fetchers == [] then 0
    else Remaining(fetchers[..|fetchers| - 1]) + 4 - Rank(fetchers[|fetchers| - 1])
  }

  lemma {:induction false} RemainingAfter(fetchers: seq<Fetcher>, i: nat, now: Fetcher)
    requires i < |fetchers|
    ensures Remaining(fetchers[i := now]) == Remaining(fetchers) + Rank(fetchers[i]) - Rank(now)
  {
    var n := |fetchers| - 1;
    if i < n {
      RemainingAfter(fetchers[..n], i, now);
      assert fetchers[i := now][..n] == fetchers[..n][i := now];
    } else {
      assert fetchers[i := now][..n] == fetchers[..n];
    }
  }

  function Weight(n: nat, s: State): int {
    match s.phase
    case Classifying(k) => 2 * n + 4 + (n - k)
    case Dispatching(k) => n + 3 + (n - k)
    case Waiting => n + 2
    case Draining => n - s.drained + 1
    case _ => 0
  }

  function Measure(n: nat, s: State): int {
    Weight(n, s) + Remaining(s.fetchers)
  }

  lemma MeasureNonNegative(u: Setup, p: Plan, s: State)
    requires Inv(u, p, s)
    ensures Measure(|u.cfg.secrets|, s) >= 0
  {
    NoDupBounded(s.sent, |u.cfg.secrets|);
  }

  lemma HandlerDecreases(u: Setup, p: Plan, s: State)
    requires Inv(u, p, s) && Enabled(u, s, Handler)
    ensures Measure(|u.cfg.secrets|, HandlerStep(u, s)) < Measure(|u.cfg.secrets|, s)
  {
    var n := |u.cfg.secrets|;
    NoDupBounded(s.sent, n);
    if s.phase.Dispatching? && s.phase.next < n && !Skips(s.results, u.cfg.secrets[s.phase.next]) {
      RemainingAfter(s.fetchers, s.phase.next, Spawned);
    }
  }

  lemma FetcherDecreases(u: Setup, p: Plan, s: State, i: nat)
    requires Inv(u, p, s) && Enabled(u, s, Fetch(i))
    ensures Measure(|u.cfg.secrets|, FetcherStep(u, s, i)) < Measure(|u.cfg.secrets|, s)
  {
    hide OutcomeOf, RecordsOf, Phase1, Settle, Early, Logs, ChannelHolds, Remaining;
    ActivePhase(u, p, s, i);
    ActiveIsCounted(p, s, i);
    var now := FetcherStep(u, s, i).fetchers[i];
    RemainingAfter(s.fetchers, i, now);
    assert FetcherStep(u, s, i).fetchers == s.fetchers[i := now];
  }

  lemma ExitDecreases(u: Setup, p: Plan, s: State)
    requires Inv(u, p, s) && Enabled(u, s, Exit)
    ensures Measure(|u.cfg.secrets|, Next(u, s, Exit)) < Measure(|u.cfg.secrets|, s)
  {
    NoDupBounded(s.sent, |u.cfg.secrets|);
    assert Weight(|u.cfg.secrets|, s) > 0;
  }

  /** Every step, whoever takes it, brings the measure down. */
  lemma StepDecreases(u: Setup, p: Plan, s: State, a: Action)
    requires Inv(u, p, s) && Enabled(u, s, a)
    ensures Measure(|u.cfg.secrets|, Next(u, s, a)) < Measure(|u.cfg.secrets|, s)
  {
    match a
    case Exit => ExitDecreases(u, p, s);
    case Handler => HandlerDecreases(u, p, s);
    case Fetch(i) => FetcherDecreases(u, p, s, i);
  }

  lemma {:induction false} RunLength(u: Setup, p: Plan, s: State, acts: seq<Action>)
    requires PlanFits(u, p) && Inv(u, p, s) && Feasible(u, s, acts)
    ensures |acts| <= Measure(|u.cfg.secrets|, s)
    decreases |acts|
  {
    if acts == [] {
      MeasureNonNegative(u, p, s);
    } else {
      StepKeeps(u, p, s, acts[0]);
      StepDecreases(u, p, s, acts[0]);
      RunLength(u, p, Next(u, s, acts[0]), acts[1..]);
    }
  }

  lemma {:induction false} RemainingIdle(n: nat)
    ensures Remaining(seq(n, _ => Idle)) == 4 * n
  {
    if n == 0 {
    } else {
      RemainingIdle(n - 1);
      assert seq(n, _ => Idle)[..n - 1] == seq(n - 1, _ => Idle);
    }
  }

  /** Every schedule ends: a mount of `n` entries takes at most `7n + 4` steps. */
  lemma EveryRunIsShort(u: Setup, acts: seq<Action>)
    requires Feasible(u, Init(u), acts)
    ensures |acts| <= 7 * |u.cfg.secrets| + 4
  {
    var p := PlanOf(u);
    PlanOfFits(u);
    InitInv(u, p);
    RunLength(u, p, Init(u), acts);
    RemainingIdle(|u.cfg.secrets|);
  }

  // --------------------------------------------------------------- refinement

  /** Nothing more can happen. */
  ghost predicate Over(u: Setup, s: State)
    requires |s.fetchers| == |u.cfg.secrets|
  {
    forall a :: !Enabled(u, s, a)
  }

  lemma ReturnedOrder(u: Setup, p: Plan, s: State)
    requires Inv(u, p, s) && s.phase.Returned?
    ensures ValidOrder(p, s.sent)
  {
    hide Lists, ChannelHolds, ResultOf, Phase1;
    forall i | 0 <= i < |p.fates| && p.Delivers(i)
      ensures i in s.sent
    {
      assert s.fetchers[i].Finished?;
    }
  }

  /**
   Every run refines the sequential meaning: a run that returns has drained a complete
   order of deliveries, returns the answer of that order, and leaves the caches of phase
   1. A run that cannot go on has returned, unless a panic has ended the process.
   */
  lemma EveryRunRefines(u: Setup, acts: seq<Action>)
    requires Feasible(u, Init(u), acts)
    ensures
      var p, s := PlanOf(u), Exec(u, Init(u), acts);
      && p.Valid()
      && (s.phase.Returned? ==>
            ValidOrder(p, s.sent) && s.phase.result == ResultOf(p, s.sent) && s.clients == Phase1(u).clients)
      && (Over(u, s) ==> s.phase.Returned? || (s.phase.Exited? && !p.PanicFree()))
      && (p.PanicFree() && Over(u, s) ==> s.phase.Returned?)
  {
    hide PlanOf, Phase1, Settle, Early, Respond, Lists, ListsDeliveries, Next, Exec, Feasible;
    var p, s := PlanOf(u), Exec(u, Init(u), acts);
    PlanOfFits(u);
    InvAlways(u, acts);
    if Over(u, s) && !Terminal(s.phase) {
      var a := Progress(u, p, s);
      assert false;
    }
    if s.phase.Returned? {
      ReturnedOrder(u, p, s);
    }
  }

  // ------------------------------------------------------------------ metrics

  /** The recordings of the fetchers in `order`, one after the other. */
  ghost function RecordsAlong(u: Setup, order: seq<nat>): seq<Record>
    requires forall k :: 0 <= k < |order| ==> order[k] < |u.cfg.secrets|
  {
    if order == [] then []
    else
      var last := order[|order| - 1];
      RecordsAlong(u, order[..|order| - 1]) + RecordsOf(u.env, Phase1(u).clients, last, u.cfg.secrets[last])
  }

  lemma RecordsNext(u: Setup, order: seq<nat>, i: nat)
    requires forall k :: 0 <= k < |order| ==> order[k] < |u.cfg.secrets|
    requires i < |u.cfg.secrets|
    ensures RecordsAlong(u, order + [i])
         == RecordsAlong(u, order) + RecordsOf(u.env, Phase1(u).clients, i, u.cfg.secrets[i])
  {
  }

  /** One recording per delivery. */
  lemma {:induction false} OneRecordEach(u: Setup, order: seq<nat>)
    requires Deliverers(PlanOf(u), order)
    ensures |RecordsAlong(u, order)| == |order|
  {
    if order == [] {
    } else {
      var last := order[|order| - 1];
      OneRecordEach(u, order[..|order| - 1]);
      OneRecordPerDelivery(u.env, Phase1(u).clients, last, u.cfg.secrets[last]);
    }
  }

  /** The fetchers of `order` that have a client, the ones whose call is made. */
  ghost function WithClient(u: Setup, order: seq<nat>): (made: seq<nat>)
    requires forall k :: 0 <= k < |order| ==> order[k] < |u.cfg.secrets|
    ensures forall k :: 0 <= k < |made| ==>
              made[k] < |u.cfg.secrets|
              && ClientFor(Phase1(u).clients, RouteOf(u.cfg.secrets[made[k]].resourceName)).Some?
  {
    if order == [] then []
    else
      var last := order[|order| - 1];
      WithClient(u, order[..|order| - 1])
      + if ClientFor(Phase1(u).clients, RouteOf(u.cfg.secrets[last].resourceName)).Some? then [last] else []
  }

  /** A recording says what was asked, and how the call of fetcher `i` was answered. */
  ghost predicate RecordsCall(u: Setup, r: Record, i: nat)
    requires i < |u.cfg.secrets|
    requires ClientFor(Phase1(u).clients, RouteOf(u.cfg.secrets[i].resourceName)).Some?
  {
    var name := u.cfg.secrets[i].resourceName;
    var client := ClientFor(Phase1(u).clients, RouteOf(name)).value;
    match RouteOf(name)
    case SecretIn(_) =>
      && r.kind == "secretmanager_access_secret_version_requests"
      && (match u.env.access(i, client, name)
          case Err(GrpcStatus(code)) => r.status == code
          case _ => r.status == "ok")
    case ParameterIn(_) =>
      && r.kind == "parametermanager_render_parameter_version_requests"
      && (match u.env.render(i, client, name)
          case Err(GrpcStatus(code)) => r.status == code
          case _ => r.status == "ok")
    case Rejected(_) => false
  }

  lemma {:induction false} RecordsExact(u: Setup, order: seq<nat>)
    requires forall k :: 0 <= k < |order| ==> order[k] < |u.cfg.secrets|
    ensures |RecordsAlong(u, order)| == |WithClient(u, order)|
    ensures forall k :: 0 <= k < |WithClient(u, order)| ==> RecordsCall(u, RecordsAlong(u, order)[k], WithClient(u, order)[k])
  {
    if order == [] {
    } else {
      RecordsExact(u, order[..|order| - 1]);
    }
  }

  /** The recordings so far are those of the calls so far, in the order of the calls. */
  ghost predicate Recorded(u: Setup, s: State) {
    (forall k :: 0 <= k < |s.called| ==> s.called[k] < |u.cfg.secrets|) && s.metrics == RecordsAlong(u, s.called)
  }

  lemma StepRecords(u: Setup, p: Plan, s: State, a: Action)
    requires Inv(u, p, s) && Enabled(u, s, a) && Recorded(u, s)
    ensures Recorded(u, Next(u, s, a))
  {
    if a.Fetch? && s.fetchers[a.i].Spawned? {
      ActivePhase(u, p, s, a.i);
      RecordsNext(u, s.called, a.i);
    }
  }

  lemma {:induction false} RunRecords(u: Setup, p: Plan, s: State, acts: seq<Action>)
    requires PlanFits(u, p) && Inv(u, p, s) && Recorded(u, s) && Feasible(u, s, acts)
    ensures Recorded(u, Exec(u, s, acts))
    decreases |acts|
  {
    if acts == [] {
    } else {
      StepKeeps(u, p, s, acts[0]);
      StepRecords(u, p, s, acts[0]);
      RunRecords(u, p, Next(u, s, acts[0]), acts[1..]);
    }
  }

  /** After every schedule, panics included: the metrics hold one recording for each call
      made so far, in the order they were made, and recording k tells how call k was
      answered. */
  lemma RecordedAlways(u: Setup, acts: seq<Action>)
    requires Feasible(u, Init(u), acts)
    ensures Recorded(u, Exec(u, Init(u), acts))
    ensures
      var s := Exec(u, Init(u), acts);
      var made := WithClient(u, s.called);
      |s.metrics| == |made| && forall k :: 0 <= k < |made| ==> RecordsCall(u, s.metrics[k], made[k])
  {
    PlanOfFits(u);
    InitInv(u, PlanOf(u));
    RunRecords(u, PlanOf(u), Init(u), acts);
    RecordsExact(u, Exec(u, Init(u), acts).called);
  }

  // ------------------------------------------------------------- conservation

  lemma SameFetchers(p: Plan, s: State)
    requires FetchersFit(p, s) && Logs(p, s) && Quiet(p, s) && p.PanicFree()
    ensures forall i: nat :: i in s.spawned <==> p.Dispatched(i)
    ensures forall i: nat :: i in s.spawned <==> i in s.called
    ensures forall i: nat :: i in s.spawned <==> i in s.sent
    ensures forall i: nat :: i in s.spawned <==> i in s.finished
  {
  }

  /** Conservation: in a run that returns without a panic, the fetchers dispatched, the
      calls made, the recordings, the sends, the `Done`s and the items drained are as many,
      and belong to the same fetchers. */
  lemma Conservation(u: Setup, acts: seq<Action>)
    requires Feasible(u, Init(u), acts) && PlanOf(u).PanicFree()
    requires Exec(u, Init(u), acts).phase.Returned?
    ensures
      var p, s := PlanOf(u), Exec(u, Init(u), acts);
      && |s.spawned| == |s.called| == |s.metrics| == |s.sent| == |s.finished| == s.drained
      && Recorded(u, s)
      && NoDup(s.spawned) && NoDup(s.called) && NoDup(s.sent) && NoDup(s.finished)
      && (forall i: nat :: i in s.spawned <==> p.Dispatched(i))
      && (forall i: nat :: i in s.spawned <==> i in s.called)
      && (forall i: nat :: i in s.spawned <==> i in s.sent)
      && (forall i: nat :: i in s.spawned <==> i in s.finished)
  {
    var p, s := PlanOf(u), Exec(u, Init(u), acts);
    InvAlways(u, acts);
    SameFetchers(p, s);
    RecordedAlways(u, acts);
    OneRecordEach(u, s.called);
    NoDupInclusion(s.spawned, s.called);
    NoDupInclusion(s.called, s.spawned);
    NoDupInclusion(s.spawned, s.sent);
    NoDupInclusion(s.sent, s.spawned);
    NoDupInclusion(s.spawned, s.finished);
    NoDupInclusion(s.finished, s.spawned);
  }
}
