/**
 The server object and its mount handler, written imperatively and proved against the
 sequential meaning of a mount.

 The handler's goroutines run one at a time here, in an order chosen arbitrarily; all
 finer interleavings are the subject of `MountProtocol`.
 */
module MountServer {
  import opened Wrappers
  import opened Sequences
  import opened ResourceNames
  import opened ClientOptions
  import opened RegionalClients
  import opened Fetching
  import opened MountSpec
  import opened MountOrders
  import opened MountSetup
  import opened MountProtocol
  import opened MountSchedules
  import opened ErrorReport
  import opened Goroutines
  import opened Permissions

  // ------------------------------------------------------------------ replies

  datatype Reply =
    | Response(files: seq<File>, versions: seq<ObjectVersion>)
    | Failed(status: Status)
    | BadPermission
    | Missing(id: Identity)
    | Crashed

  /** How a whole mount request ends. */
  datatype MountReply = InvalidArgument | PermissionDenied | Handled(reply: Reply)

  /** A reply says what a result of the sequential meaning says. */
  ghost predicate Conveys(reply: Reply, result: MountResult) {
    match result
    case Mounted(files, versions) => reply == Response(files, versions)
    case AccessFailed(failures) => reply.Failed? && Reports(reply.status, failures)
    case InvalidPermission => reply == BadPermission
    case ResultMissing(id) => reply == Missing(id)
  }

  /** A file and an object version are what entry `i` asked for: its path or else its file
      name, its mode or else the permission, its own name, and the version and content of
      one call made for an entry of the same name, file name and path. */
  ghost predicate FileOf(env: Env, c: Clients, entries: seq<Entry>, i: nat, permission: int, file: File, version: ObjectVersion)
    requires i < |entries|
  {
    var e := entries[i];
    && file.path == (if e.path != "" then e.path else e.fileName)
    && file.mode as int == (if e.mode.Some? then e.mode.value as int else permission)
    && version.id == e.resourceName
    && exists j ::
         && 0 <= j < |entries|
         && entries[j].resourceName == e.resourceName && entries[j].fileName == e.fileName && entries[j].path == e.path
         && FetchedFor(env, c, j, entries[j], version.version, file.contents)
  }

  /** A response has a file and a version for every entry, and the permission is in range. */
  lemma ResponseFiles(u: Setup, order: seq<nat>, reply: Reply)
    requires PlanOf(u).Valid() && ValidOrder(PlanOf(u), order)
    requires reply.Response? && Conveys(reply, ResultOf(PlanOf(u), order))
    ensures u.cfg.permissions as int < 0x8000_0000 && |reply.files| == |reply.versions| == |u.cfg.secrets|
    ensures forall i :: 0 <= i < |u.cfg.secrets| ==>
              FileOf(u.env, Phase1(u).clients, u.cfg.secrets, i, u.cfg.permissions as int, reply.files[i], reply.versions[i])
  {
    hide FateOf, Phase1, Settle, FetchedFor;
    forall i | 0 <= i < |u.cfg.secrets|
      ensures FileOf(u.env, Phase1(u).clients, u.cfg.secrets, i, u.cfg.permissions as int, reply.files[i], reply.versions[i])
    {
      var j := NoMixing(PlanOf(u), order, i);
      SuccessIsFetched(u, j);
    }
  }

  lemma {:induction false} FirstMissingAt(entries: seq<Entry>, m: ResultMap, i: nat)
    requires i < |entries| && IdOf(entries[i]) !in m
    requires forall k :: 0 <= k < i ==> IdOf(entries[k]) in m
    ensures !AllPresent(entries, m) && FirstMissing(entries, m) == IdOf(entries[i])
    decreases |entries|
  {
    if i == 0 {
    } else {
      assert entries[1..][i - 1] == entries[i];
      FirstMissingAt(entries[1..], m, i - 1);
    }
  }

  /** One file and one version per entry, in list order; stop at a missing result. */
  method BuildResponse(cfg: MountConfig, resultMap: ResultMap) returns (reply: Reply)
    requires Failing(resultMap) == map[]
    ensures Conveys(reply, Respond(cfg, resultMap))
    ensures reply.Missing? ==>
              exists i :: 0 <= i < |cfg.secrets| && IdOf(cfg.secrets[i]) == reply.id && reply.id !in resultMap
                          && AllPresent(cfg.secrets[..i], resultMap)
  {
    if cfg.permissions > MAX_INT32 {
      return BadPermission;
    }
    var files: seq<File> := [];
    var versions: seq<ObjectVersion> := [];
    for i := 0 to |cfg.secrets|
      invariant AllPresent(cfg.secrets[..i], resultMap)
      invariant |files| == |versions| == i
      invariant forall k :: 0 <= k < i ==>
                  IdOf(cfg.secrets[k]) in resultMap
                  && files[k] == FileFor(cfg, cfg.secrets[k], resultMap[IdOf(cfg.secrets[k])])
                  && versions[k] == ObjectVersion(cfg.secrets[k].resourceName, resultMap[IdOf(cfg.secrets[k])].version)
    {
      var secret := cfg.secrets[i];
      var mode := cfg.permissions as int32;
      if secret.mode.Some? {
        mode := secret.mode.value;
      }
      var resourceKey := IdOf(secret);
      if resourceKey !in resultMap {
        FirstMissingAt(cfg.secrets, resultMap, i);
        return Missing(resourceKey);
      }
      var resource := resultMap[resourceKey];
      files := files + [File(secret.PathString(), mode, resource.payload)];
      versions := versions + [ObjectVersion(secret.resourceName, resource.version)];
    }
    reply := Response(files, versions);
  }

  // ------------------------------------------------------- bookkeeping of phase 2

  ghost function DispatchedBelow(p: Plan, k: nat): set<nat> {
    set i: nat | i < k && p.Dispatched(i)
  }

  /** Some started goroutines have delivered, in this order; the others are pending. */
  ghost predicate Ran(p: Plan, started: set<nat>, pending: set<nat>, order: seq<nat>) {
    && pending <= started
    && NoDup(order) && Deliverers(p, order)
    && (forall i :: i in order <==> i in started && i !in pending)
    && |order| + |pending| == |started|
  }

  lemma RanOneMore(p: Plan, started: set<nat>, pending: set<nat>, order: seq<nat>, i: nat)
    requires Ran(p, started, pending, order) && i in pending && p.Delivers(i)
    ensures Ran(p, started, pending - {i}, order + [i])
    ensures Resources(p, order + [i]) == Resources(p, order) + [p.fates[i].resource]
  {
  }

  lemma RanAll(p: Plan, started: set<nat>, order: seq<nat>)
    requires Ran(p, started, {}, order) && started == DispatchedBelow(p, |p.fates|)
    ensures ValidOrder(p, order) && p.PanicFree()
  {
    forall i | 0 <= i < |p.fates| && !p.fates[i].Turned?
      ensures i in order && p.Delivers(i)
    {
      assert p.Dispatched(i);
      assert i in started;
      var k :| 0 <= k < |order| && order[k] == i;
    }
  }

  lemma PlanAnswers(u: Setup, p: Plan, i: nat)
    requires PlanFits(u, p) && p.Dispatched(i)
    ensures i < |u.cfg.secrets| && !RouteOf(u.cfg.secrets[i].resourceName).Rejected?
    ensures FateMatches(p.fates[i], OutcomeOf(u.env, Phase1(u).clients, i, u.cfg.secrets[i]))
  {
    assert RejectsAlike(u, p, i);
  }

  /**
   To convey the answer of a complete order of deliveries, which is what the handler
   promises of its reply, is to convey the answer of an interleaved run.
   */
  lemma RepliesAreRuns(u: Setup, reply: Reply)
    ensures PlanOf(u).Valid()
    ensures (exists order :: ValidOrder(PlanOf(u), order) && Conveys(reply, ResultOf(PlanOf(u), order)))
       <==> exists acts, result :: Returns(u, acts, result) && Conveys(reply, result)
  {
    PlanOfValid(u);
    if order :| ValidOrder(PlanOf(u), order) && Conveys(reply, ResultOf(PlanOf(u), order)) {
      RunsAreOrders(u, ResultOf(PlanOf(u), order));
    }
    if acts, result :| Returns(u, acts, result) && Conveys(reply, result) {
      RunsAreOrders(u, result);
    }
  }

  lemma ReportConveys(p: Plan, order: seq<nat>, st: Status)
    requires p.Valid() && Deliverers(p, order)
    requires Failing(Settle(p, order)) != map[] && Reports(st, Failing(Settle(p, order)))
    ensures Conveys(Failed(st), ResultOf(p, order))
  {
  }

  /** Without a panic no result is missing, and a failure reports those of the order. */
  lemma ReplyMeets(p: Plan, order: seq<nat>, reply: Reply)
    requires p.Valid() && p.PanicFree() && ValidOrder(p, order) && Conveys(reply, ResultOf(p, order))
    ensures !reply.Missing? && !reply.Crashed?
    ensures reply.Failed? ==> Reports(reply.status, Failing(Settle(p, order)))
  {
    hide Reports, Settle;
    if ResultOf(p, order).ResultMissing? {
      MissingOnlyAfterPanic(p, order);
    }
  }

  // ------------------------------------------------------------------- server

  class Server {
    var secretClient: Option<Client>
    var parameterManagerClient: Option<Client>
    var regionalSecretClients: map<string, Option<Client>>
    var regionalParameterManagerClients: map<string, Option<Client>>
    const serverClientOptions: Slice
    // the constructor calls made so far, which tell one attempt from the next
    var constructions: seq<Call>

    constructor (secret: Option<Client>, parameter: Option<Client>, options: Slice)
      requires options.Valid()
      ensures Valid() && serverClientOptions == options
      ensures Holds() == Clients(secret, parameter, map[], map[], [])
    {
      secretClient := secret;
      parameterManagerClient := parameter;
      regionalSecretClients := map[];
      regionalParameterManagerClients := map[];
      serverClientOptions := options;
      constructions := [];
    }

    ghost predicate Valid() {
      serverClientOptions.Valid()
    }

    /** The clients the server holds, as one value. */
    function Holds(): Clients
      reads this
    {
      Clients(secretClient, parameterManagerClient, regionalSecretClients, regionalParameterManagerClients, constructions)
    }

    /** The base options every regional client is built from. */
    ghost function Base(): seq<ClientOption>
      requires Valid()
      reads serverClientOptions.backing
    {
      serverClientOptions.View()
    }

    /** Look a region up in one of the caches, constructing its client on a miss. */
    method EnsureClient(env: Env, service: Service, location: string, room: nat)
      requires Valid()
      modifies this, serverClientOptions.backing
      ensures Holds() == EnsureRegion(env.construct, old(Base()), old(Holds()), service, location)
      ensures Base() == old(Base())
    {
      var cache := match service
        case SecretManager => regionalSecretClients
        case ParameterManager => regionalParameterManagerClients;
      if location !in cache {
        var client := GetRegionalClient(service, location, serverClientOptions, env.construct, |constructions|, room);
        match service {
          case SecretManager => regionalSecretClients := regionalSecretClients[location := client];
          case ParameterManager => regionalParameterManagerClients := regionalParameterManagerClients[location := client];
        }
        constructions := constructions + [Call(service, location)];
      }
    }

    /** Classify one entry: an early error, or a client in the cache of its service. */
    method ClassifyEntry(env: Env, secret: Entry, resultMap: ResultMap, room: nat, ghost u: Setup, ghost k: nat)
      returns (results: ResultMap)
      requires Valid() && u.env == env && u.base == Base()
      requires k < |u.cfg.secrets| && secret == u.cfg.secrets[k]
      requires Classified(resultMap, Holds()) == ClassifyFirst(u, k)
      modifies this, serverClientOptions.backing
      ensures Classified(results, Holds()) == ClassifyFirst(u, k + 1)
      ensures Base() == old(Base())
    {
      results := resultMap;
      if IsSecretResource(secret.resourceName) {
        var location := ExtractLocationFromSecretResource(secret.resourceName);
        if location.Err? {
          results := results[IdOf(secret) := ErrorResource(IdOf(secret), Unroutable(BadName(location.error)))];
        } else {
          EnsureClient(env, SecretManager, location.value, room);
        }
      } else if IsParameterManagerResource(secret.resourceName) {
        var location := ExtractLocationFromParameterManagerResource(secret.resourceName);
        if location.Err? {
          results := results[IdOf(secret) := ErrorResource(IdOf(secret), Unroutable(BadName(location.error)))];
        } else {
          EnsureClient(env, ParameterManager, location.value, room);
        }
      } else {
        results := results[IdOf(secret) := ErrorResource(IdOf(secret), Unroutable(UnknownResourceType))];
      }
    }

    /** Phase 1: classify every entry, in list order. */
    method ClassifyAll(env: Env, cfg: MountConfig, room: nat, ghost u: Setup) returns (resultMap: ResultMap)
      requires Valid() && u == Setup(cfg, env, Base(), Holds())
      modifies this, serverClientOptions.backing
      ensures Classified(resultMap, Holds()) == Phase1(u)
      ensures Base() == u.base
    {
      resultMap := map[];
      for k := 0 to |cfg.secrets|
        invariant Classified(resultMap, Holds()) == ClassifyFirst(u, k)
        invariant Base() == u.base
      {
        resultMap := ClassifyEntry(env, cfg.secrets[k], resultMap, room, u, k);
      }
    }

    // ---------------------------------------------------------------- phase 2

    /** Start a goroutine for every entry without an early error, counting it first. */
    method StartFetchers(cfg: MountConfig, resultMap: ResultMap, wg: WaitGroup, ghost p: Plan) returns (started: set<nat>)
      requires p.Valid() && p.cfg == cfg && resultMap == Early(p) && wg.counter == 0
      modifies wg
      ensures started == DispatchedBelow(p, |p.fates|)
      ensures wg.counter == |started| <= |cfg.secrets|
    {
      hide EarlyFirst, Early;
      started := {};
      for k := 0 to |cfg.secrets|
        invariant started == DispatchedBelow(p, k)
        invariant wg.counter == |started| <= k
      {
        SkipsRejected(p, k);
        var id := IdOf(cfg.secrets[k]);
        if id in resultMap && resultMap[id].err.Some? {
          assert DispatchedBelow(p, k + 1) == started;
          continue;
        }
        wg.Add(1);
        assert DispatchedBelow(p, k + 1) == started + {k};
        started := started + {k};
      }
    }

    /** One goroutine: it fares as planned, is counted down, and records its call. */
    method RunFetcher(env: Env, i: nat, e: Entry, outputChannel: Channel, wg: WaitGroup, metrics: Metrics,
                      ghost u: Setup, ghost p: Plan, ghost log: seq<Record>, ghost order: seq<nat>)
      returns (panicked: bool)
      requires PlanFits(u, p) && env == u.env && Holds() == Phase1(u).clients
      requires p.Dispatched(i) && e == u.cfg.secrets[i]
      requires wg.counter > 0 && !outputChannel.closed && |outputChannel.buffer| < outputChannel.capacity
      requires Deliverers(p, order) && metrics.log == log + RecordsAlong(u, order)
      modifies outputChannel`buffer, wg, metrics
      ensures wg.counter == old(wg.counter) - 1
      ensures panicked <==> p.fates[i].Panicked?
      ensures !panicked ==>
                && p.Delivers(i)
                && outputChannel.buffer == old(outputChannel.buffer) + [p.fates[i].resource]
                && metrics.log == log + RecordsAlong(u, order + [i])
    {
      PlanAnswers(u, p, i);
      ModeIsIrrelevant(env, Holds(), i, e);
      RecordsNext(u, order, i);
      var fetcher := new ResourceFetcher(e);
      panicked := fetcher.Orchestrator(env, i, Holds(), outputChannel, wg, metrics);
    }

    /** Run the started goroutines to completion in an arbitrary order. A panic ends the process. */
    method RunFetchers(env: Env, started: set<nat>, outputChannel: Channel, wg: WaitGroup,
                       metrics: Metrics, ghost u: Setup, ghost p: Plan, secrets: seq<Entry>)
      returns (crashed: bool, ghost order: seq<nat>)
      requires PlanFits(u, p) && env == u.env && secrets == u.cfg.secrets && Holds() == Phase1(u).clients
      requires started == DispatchedBelow(p, |p.fates|)
      requires wg.counter == |started| <= outputChannel.capacity
      requires !outputChannel.closed && outputChannel.buffer == []
      modifies outputChannel`buffer, wg, metrics
      ensures crashed <==> !p.PanicFree()
      ensures !crashed ==>
                && ValidOrder(p, order)
                && outputChannel.buffer == Resources(p, order)
                && wg.counter == 0
                && metrics.log == old(metrics.log) + RecordsAlong(u, order)
    {
      var pending := started;
      order := [];
      while pending != {}
        invariant Ran(p, started, pending, order)
        invariant wg.counter == |pending|
        invariant outputChannel.buffer == Resources(p, order)
        invariant metrics.log == old(metrics.log) + RecordsAlong(u, order)
        decreases |pending|
      {
        var i :| i in pending;
        assert p.Dispatched(i);
        var panicked := RunFetcher(env, i, secrets[i], outputChannel, wg, metrics, u, p, old(metrics.log), order);
        if panicked {
          return true, order;
        }
        RanOneMore(p, started, pending, order, i);
        order := order + [i];
        pending := pending - {i};
      }
      crashed := false;
      RanAll(p, started, order);
    }

    /** Close the channel and move every item into the result map, oldest first. */
    method Collect(outputChannel: Channel, early: ResultMap, ghost p: Plan, ghost order: seq<nat>) returns (resultMap: ResultMap)
      requires p.Valid() && Deliverers(p, order) && early == Early(p)
      requires !outputChannel.closed && outputChannel.buffer == Resources(p, order)
      modifies outputChannel
      ensures resultMap == Settle(p, order)
    {
      resultMap := early;
      outputChannel.Close();
      ghost var drained := 0;
      assert order[..0] == [] && order[0..] == order;
      while outputChannel.buffer != []
        invariant outputChannel.closed
        invariant drained <= |order| && outputChannel.buffer == Resources(p, order[drained..])
        invariant resultMap == Settle(p, order[..drained])
        decreases |outputChannel.buffer|
      {
        TakeOne(p, order, drained);
        var item := outputChannel.Receive();
        resultMap := resultMap[KeyOf(item.value) := item.value];
        drained := drained + 1;
      }
      assert order[..drained] == order;
    }

    // ---------------------------------------------------------------- handler

    /**
     One mount event. Unless some fetcher panics, the reply conveys the result of a
     complete order of deliveries, each delivery was recorded once, and the caches hold
     what phase 1 asks for; the shared options are as they were. No result is missing.
     */
    method HandleMountEvent(env: Env, cfg: MountConfig, metrics: Metrics, room: nat) returns (reply: Reply, ghost order: seq<nat>)
      requires Valid()
      modifies this, serverClientOptions.backing, metrics
      ensures Base() == old(Base())
      ensures
        var u := Setup(cfg, env, old(Base()), old(Holds()));
        var p := PlanOf(u);
        && p.Valid()
        && Holds() == Phase1(u).clients
        && (reply.Crashed? <==> !p.PanicFree())
        && !reply.Missing?
        && (!reply.Crashed? ==>
              && ValidOrder(p, order)
              && Conveys(reply, ResultOf(p, order))
              && (reply.Failed? ==> Reports(reply.status, Failing(Settle(p, order))))
              && metrics.log == old(metrics.log) + RecordsAlong(u, order))
    {
      hide Settle, EarlyFirst, ClassifyFirst, FateOf, Respond, Conveys, Reports;
      ghost var u := Setup(cfg, env, Base(), Holds());
      ghost var p := PlanOf(u);
      PlanOfFits(u);
      var early := ClassifyAll(env, cfg, room, u);
      Phase1RecordsEarly(u, p, |cfg.secrets|);
      var wg := new WaitGroup();
      var outputChannel := new Channel(|cfg.secrets|);
      var started := StartFetchers(cfg, early, wg, p);
      var crashed;
      crashed, order := RunFetchers(env, started, outputChannel, wg, metrics, u, p, cfg.secrets);
      if crashed {
        return Crashed, order;
      }
      // wg.Wait() returns: the counter is zero
      var resultMap := Collect(outputChannel, early, p, order);
      var err := BuildErr(resultMap);
      if err.Some? {
        ReportConveys(p, order, err.value);
        ReplyMeets(p, order, Failed(err.value));
        return Failed(err.value), order;
      }
      reply := BuildResponse(cfg, resultMap);
      ReplyMeets(p, order, reply);
    }

    // ------------------------------------------------------------------ mount

    /**
     A mount request: read the permission, take the parsed configuration and the token
     source if there are any, and handle the event. A response gives every entry without
     a mode of its own exactly the requested number, which is then below 2^31; a request
     at or above 2^31 is never answered with files, whatever modes the entries carry.
     If every fetch succeeds, a permission below 2^31 is answered with files and a larger
     one refused. A handled request leaves the caches its names ask for; in any case nothing cached is
     lost or replaced, and caches built for their own endpoints stay so. Each delivery
     was recorded once. Once a region's client is remembered as nil, every request that
     names the region crashes.
     */
    method Mount(env: Env, permission: string, parsed: Option<seq<Entry>>, authorized: bool, metrics: Metrics, room: nat)
      returns (reply: MountReply)
      requires Valid()
      modifies this, serverClientOptions.backing, metrics
      ensures Base() == old(Base())
      ensures reply.InvalidArgument? <==> ParseUint32(permission).None? || parsed.None?
      ensures reply.PermissionDenied? <==> ParseUint32(permission).Some? && parsed.Some? && !authorized
      ensures reply.InvalidArgument? || reply.PermissionDenied? ==> Holds() == old(Holds()) && metrics.log == old(metrics.log)
      ensures reply.Handled? ==>
                Holds() == PrepareAll(env.construct, old(Base()), old(Holds()), Names(parsed.value))
      ensures Grows(old(Holds()), Holds())
      ensures Consistent(old(Base()), old(Holds())) ==> Consistent(Base(), Holds())
      ensures reply.Handled? && !reply.reply.Crashed? ==>
                var u := Setup(MountConfig(parsed.value, ParseUint32(permission).value), env, old(Base()), old(Holds()));
                PlanOf(u).Valid()
                && exists order ::
                     && ValidOrder(PlanOf(u), order)
                     && Conveys(reply.reply, ResultOf(PlanOf(u), order))
                     && (reply.reply.Failed? ==> Reports(reply.reply.status, Failing(Settle(PlanOf(u), order))))
                     && metrics.log == old(metrics.log) + RecordsAlong(u, order)
      ensures reply.Handled? ==>
                ((exists i :: 0 <= i < |parsed.value| && DeadRegion(old(Holds()), parsed.value[i].resourceName)) ==>
                   reply.reply.Crashed?)
      ensures reply.Handled? ==> !reply.reply.Missing?
      ensures reply.Handled? && reply.reply.Response? ==>
                && AllDigits(permission) && DecimalValue(permission) < 0x8000_0000
                && |reply.reply.files| == |reply.reply.versions| == |parsed.value|
                && forall i :: 0 <= i < |parsed.value| ==>
                     FileOf(env, Holds(), parsed.value, i, DecimalValue(permission), reply.reply.files[i], reply.reply.versions[i])
      ensures reply.Handled? && reply.reply.Response? ==>
                forall n: nat :: permission == ToDecimal(n) ==>
                  forall i :: 0 <= i < |parsed.value| && parsed.value[i].mode.None? ==> reply.reply.files[i].mode as int == n
      ensures reply.Handled? ==>
                var u := Setup(MountConfig(parsed.value, ParseUint32(permission).value), env, old(Base()), old(Holds()));
                (forall i :: 0 <= i < |parsed.value| ==> PlanOf(u).Succeeds(i)) ==>
                  if DecimalValue(permission) < 0x8000_0000 then reply.reply.Response? else reply.reply == BadPermission
    {
      var p := ReadPermission(permission);
      if p.None? || parsed.None? {
        return InvalidArgument;
      }
      if !authorized {
        return PermissionDenied;
      }
      var cfg := MountConfig(parsed.value, p.value);
      ghost var u := Setup(cfg, env, Base(), Holds());
      ghost var plan := PlanOf(u);
      Phase1Prepares(u, |cfg.secrets|);
      forall i | 0 <= i < |cfg.secrets| && DeadRegion(Holds(), cfg.secrets[i].resourceName)
        ensures plan.fates[i].Panicked?
      {
        DeadRegionPanics(u, i);
      }
      PrepareAllKeeps(env.construct, Base(), Holds(), Names(cfg.secrets));
      assert cfg.secrets[..|cfg.secrets|] == parsed.value;
      var handled, order := HandleMountEvent(env, cfg, metrics, room);
      reply := Handled(handled);
      if handled.Response? {
        ResponseFiles(u, order, handled);
        forall n: nat | permission == ToDecimal(n)
          ensures DecimalValue(permission) == n
        {
          DecimalRoundTrip(n);
        }
      }
      if forall i :: 0 <= i < |cfg.secrets| ==> plan.Succeeds(i) {
        AllGoodAnswer(plan, order);
      }
    }
  }
}
