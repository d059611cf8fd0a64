/**
 What a configuration alone decides: which ways of ending a mount are possible for it
 under some remote answers and some schedule, and for which configurations the promises
 made about failures can be broken. Decoders are arbitrary but fixed throughout.
 */
module MountInputs {
  import opened Wrappers
  import opened ResourceNames
  import opened ClientOptions
  import opened RegionalClients
  import opened Sequences
  import opened Fetching
  import opened MountSpec
  import opened MountOrders
  import opened MountSetup
  import opened MountProtocol
  import opened MountSchedules
  import opened ErrorReport

  /** A mount of this configuration whose payloads these decoders read. */
  ghost predicate Serves(u: Setup, json: Decoder, yaml: Decoder, cfg: MountConfig) {
    u.cfg == cfg && u.env.decodeJSON == json && u.env.decodeYAML == yaml
  }

  /** The first mount of a server that has its global clients. */
  predicate FirstMount(u: Setup) {
    && u.before.secret.Some? && u.before.parameter.Some?
    && u.before.regionalSecret == map[] && u.before.regionalParameter == map[]
  }

  // ------------------------------------------------------------ what entries can do

  ghost predicate CanSucceed(json: Decoder, yaml: Decoder, cfg: MountConfig, id: Identity) {
    exists j :: 0 <= j < |cfg.secrets| && IdOf(cfg.secrets[j]) == id && Selectable(json, yaml, cfg.secrets[j])
  }

  ghost predicate AllCanSucceed(json: Decoder, yaml: Decoder, cfg: MountConfig) {
    forall i :: 0 <= i < |cfg.secrets| ==> CanSucceed(json, yaml, cfg, IdOf(cfg.secrets[i]))
  }

  /** Some entry of the identity does not set both keys. */
  ghost predicate OneKeyAtMost(cfg: MountConfig, id: Identity) {
    exists j :: 0 <= j < |cfg.secrets| && IdOf(cfg.secrets[j]) == id && !BothKeys(cfg.secrets[j])
  }

  /** With decoders that can find any key, an identity can succeed exactly when one of
      its entries does not set both keys. */
  lemma CanSucceedByInspection(json: Decoder, yaml: Decoder, cfg: MountConfig, id: Identity)
    requires forall key :: key != "" ==> Findable(json, key) && Findable(yaml, key)
    ensures CanSucceed(json, yaml, cfg, id) <==> OneKeyAtMost(cfg, id)
  {
    if j :| 0 <= j < |cfg.secrets| && IdOf(cfg.secrets[j]) == id && !BothKeys(cfg.secrets[j]) {
      assert Selectable(json, yaml, cfg.secrets[j]);
    }
  }

  /** All fetchers of the identity can panic: its client can be nil, or its payload can
      be nil and every entry gets as far as looking at it. */
  ghost predicate CanVanish(cfg: MountConfig, id: Identity) {
    match RouteOf(id.resourceName)
    case SecretIn(location) =>
      location != "" || forall j :: 0 <= j < |cfg.secrets| && IdOf(cfg.secrets[j]) == id ==> !BothKeys(cfg.secrets[j])
    case ParameterIn(location) => location != ""
    case Rejected(_) => false
  }

  ghost predicate NoneRejected(cfg: MountConfig) {
    forall i :: 0 <= i < |cfg.secrets| ==> !RouteOf(cfg.secrets[i].resourceName).Rejected?
  }

  ghost predicate Duplicates(cfg: MountConfig) {
    exists i, j :: 0 <= i < j < |cfg.secrets| && IdOf(cfg.secrets[i]) == IdOf(cfg.secrets[j])
  }

  // -------------------------------------------------------------- chosen answers

  /** For each fetcher an error, or a payload that may be nil. */
  type Answers = nat -> Result<Option<Bytes>, RpcError>

  /** The environment that gives these answers; regional constructions all succeed or
      all fail. A rendered parameter is never nil. */
  function Answering(json: Decoder, yaml: Decoder, answers: Answers, built: bool): Env {
    Env(
      (i: nat, c, name) =>
        match answers(i)
        case Ok(payload) => Ok(SecretReply(name, payload))
        case Err(error) => Err(error),
      (i: nat, c, name) =>
        match answers(i)
        case Ok(payload) => Ok(ParameterReply(name, payload.GetOr("")))
        case Err(error) => Err(error),
      json,
      yaml,
      (service, attempt, options) => built)
  }

  /** A first mount with these answers. */
  function Asked(json: Decoder, yaml: Decoder, cfg: MountConfig, answers: Answers, built: bool): Setup {
    var none := Clients(Some(Client(SecretManager, [])), Some(Client(ParameterManager, [])), map[], map[], []);
    Setup(cfg, Answering(json, yaml, answers, built), [], none)
  }

  /** Everything cached has a client, or nothing has. */
  ghost predicate CachedAlike(c: Clients, built: bool) {
    forall service, region :: region in CacheOf(c, service) ==> (CacheOf(c, service)[region].Some? <==> built)
  }

  lemma EnsureRegionAlike(construct: Constructor, base: seq<ClientOption>, c: Clients, service: Service, region: string, built: bool)
    requires CachedAlike(c, built)
    requires forall s, attempt, options :: construct(s, attempt, options) == built
    ensures CachedAlike(EnsureRegion(construct, base, c, service, region), built)
  {
    var client := FreshClient(construct, |c.calls|, service, region, base);
    assert client.Some? <==> built;
    var after := EnsureRegion(construct, base, c, service, region);
    forall s, r | r in CacheOf(after, s)
      ensures CacheOf(after, s)[r].Some? <==> built
    {
      if !(s == service && r == region) {
        assert r in CacheOf(c, s);
      }
    }
  }

  lemma {:induction false} PrepareAllAlike(construct: Constructor, base: seq<ClientOption>, c: Clients, names: seq<string>, built: bool)
    requires CachedAlike(c, built)
    requires forall service, attempt, options :: construct(service, attempt, options) == built
    ensures CachedAlike(PrepareAll(construct, base, c, names), built)
  {
    if names == [] {
    } else {
      PrepareAllAlike(construct, base, c, names[..|names| - 1], built);
      var mid := PrepareAll(construct, base, c, names[..|names| - 1]);
      match RouteOf(names[|names| - 1])
      case SecretIn(location) => EnsureRegionAlike(construct, base, mid, SecretManager, location, built);
      case ParameterIn(location) => EnsureRegionAlike(construct, base, mid, ParameterManager, location, built);
      case Rejected(_) =>
    }
  }

  lemma RoutedIsCached(construct: Constructor, base: seq<ClientOption>, c: Clients, names: seq<string>, i: nat, service: Service, region: string)
    requires i < |names| && RoutedTo(names[i], service, region)
    ensures region in CacheOf(PrepareAll(construct, base, c, names), service)
  {
    AnyAt(names, n => RoutedTo(n, service, region), i);
    PrepareAllKeeps(construct, base, c, names);
  }

  lemma PreparedClient(construct: Constructor, base: seq<ClientOption>, c: Clients, names: seq<string>, i: nat, built: bool)
    requires c.secret.Some? && c.parameter.Some? && CachedAlike(c, built)
    requires i < |names| && !RouteOf(names[i]).Rejected?
    requires forall service, attempt, options :: construct(service, attempt, options) == built
    ensures ClientFor(PrepareAll(construct, base, c, names), RouteOf(names[i])).Some?
       <==> built || RouteOf(names[i]).location == ""
  {
    PrepareAllKeeps(construct, base, c, names);
    PrepareAllAlike(construct, base, c, names, built);
    var after := PrepareAll(construct, base, c, names);
    match RouteOf(names[i]) {
      case SecretIn(location) =>
        RoutedIsCached(construct, base, c, names, i, SecretManager, location);
        assert location in CacheOf(after, SecretManager);
      case ParameterIn(location) =>
        RoutedIsCached(construct, base, c, names, i, ParameterManager, location);
        assert location in CacheOf(after, ParameterManager);
      case Rejected(_) =>
    }
  }

  lemma AskedClient(json: Decoder, yaml: Decoder, cfg: MountConfig, answers: Answers, built: bool, i: nat)
    requires i < |cfg.secrets| && !RouteOf(cfg.secrets[i].resourceName).Rejected?
    ensures ClientFor(Phase1(Asked(json, yaml, cfg, answers, built)).clients, RouteOf(cfg.secrets[i].resourceName)).Some?
       <==> built || RouteOf(cfg.secrets[i].resourceName).location == ""
  {
    var u := Asked(json, yaml, cfg, answers, built);
    var names := Names(cfg.secrets[..|cfg.secrets|]);
    Phase1Prepares(u, |cfg.secrets|);
    PreparedClient(u.env.construct, u.base, u.before, names, i, built);
  }

  /** How an entry fares under chosen answers. */
  lemma AskedFate(json: Decoder, yaml: Decoder, cfg: MountConfig, answers: Answers, built: bool, i: nat)
    requires i < |cfg.secrets| && !RouteOf(cfg.secrets[i].resourceName).Rejected?
    ensures
      var p, e := PlanOf(Asked(json, yaml, cfg, answers, built)), cfg.secrets[i];
      var route := RouteOf(e.resourceName);
      if !built && route.location != "" then p.fates[i] == Panicked
      else match answers(i)
           case Err(error) => p.fates[i] == Delivery(ErrorResource(IdOf(e), RpcFailed(error)))
           case Ok(None) => route.SecretIn? && !BothKeys(e) ==> p.fates[i] == Panicked
           case Ok(Some(raw)) =>
             && p.Delivers(i)
             && (p.Succeeds(i) <==> !BothKeys(e) && SelectContent(Answering(json, yaml, answers, built), e, raw).Ok?)
  {
    AskedClient(json, yaml, cfg, answers, built, i);
  }

  // ---------------------------------------------------------------- example inputs

  /** A global secret, with no key and no mode. */
  function GlobalSecret(project: string, secret: string, version: string, fileName: string, path: string): Entry {
    Entry("projects/" + project + "/secrets/" + secret + "/versions/" + version, fileName, path, "", "", None)
  }

  lemma GlobalSecretRoute(project: string, secret: string, version: string, fileName: string, path: string)
    requires Component(project) && Component(secret) && Component(version)
    ensures RouteOf(GlobalSecret(project, secret, version, fileName, path).resourceName) == SecretIn("")
  {
    var name := "projects/" + project + "/secrets/" + secret + "/versions/" + version;
    BuildThenExtractGlobalSecret("", project, secret, version);
    assert "" + "projects/" + project + "/secrets/" + secret + "/versions/" + version == name;
  }

  // ------------------------------------------------------ when a failure can be masked

  /** Success is reported although the fetch of some entry delivered an error. */
  ghost predicate MasksFailure(u: Setup, acts: seq<Action>) {
    && Feasible(u, Init(u), acts)
    && Exec(u, Init(u), acts).phase.Returned?
    && Exec(u, Init(u), acts).phase.result.Mounted?
    && exists f: nat :: PlanOf(u).Fails(f)
  }

  ghost predicate CanMask(json: Decoder, yaml: Decoder, cfg: MountConfig) {
    exists u: Setup, acts: seq<Action> :: Serves(u, json, yaml, cfg) && MasksFailure(u, acts)
  }

  /**
   What a caller can see in a configuration that lets a mount succeed although an access
   failed: a permission in range, no rejected name, for every identity an entry that can
   succeed at all, and two entries of the same identity.
   */
  ghost predicate Maskable(json: Decoder, yaml: Decoder, cfg: MountConfig) {
    && cfg.permissions <= MAX_INT32
    && NoneRejected(cfg)
    && AllCanSucceed(json, yaml, cfg)
    && Duplicates(cfg)
  }

  lemma SuccessCanSucceed(u: Setup, j: nat)
    requires PlanOf(u).Succeeds(j)
    ensures CanSucceed(u.env.decodeJSON, u.env.decodeYAML, u.cfg, IdOf(u.cfg.secrets[j]))
  {
    SuccessIsFetched(u, j);
    SelectableExact(u.env, u.cfg.secrets[j]);
  }

  lemma MountedNeeds(u: Setup, order: seq<nat>)
    requires PlanOf(u).Valid() && ValidOrder(PlanOf(u), order) && ResultOf(PlanOf(u), order).Mounted?
    ensures u.cfg.permissions <= MAX_INT32 && NoneRejected(u.cfg)
    ensures AllCanSucceed(u.env.decodeJSON, u.env.decodeYAML, u.cfg)
  {
    var p := PlanOf(u);
    forall i | 0 <= i < |u.cfg.secrets|
      ensures !RouteOf(u.cfg.secrets[i].resourceName).Rejected?
      ensures CanSucceed(u.env.decodeJSON, u.env.decodeYAML, u.cfg, IdOf(u.cfg.secrets[i]))
    {
      var j := NoMixing(p, order, i);
      SuccessCanSucceed(u, j);
      assert IdOf(u.cfg.secrets[j]) == IdOf(u.cfg.secrets[i]);
    }
  }

  ghost predicate Satisfied(json: Decoder, yaml: Decoder, cfg: MountConfig, bad: nat, i: nat) {
    i != bad && i < |cfg.secrets| && Selectable(json, yaml, cfg.secrets[i])
  }

  /** The identity has an entry that is satisfied. */
  ghost predicate SatisfiedFor(json: Decoder, yaml: Decoder, cfg: MountConfig, bad: nat, id: Identity) {
    exists j :: 0 <= j < |cfg.secrets| && IdOf(cfg.secrets[j]) == id && Satisfied(json, yaml, cfg, bad, j)
  }

  ghost predicate AllSatisfied(json: Decoder, yaml: Decoder, cfg: MountConfig, bad: nat) {
    forall i :: 0 <= i < |cfg.secrets| ==> SatisfiedFor(json, yaml, cfg, bad, IdOf(cfg.secrets[i]))
  }

  /** A payload the entry can be satisfied with, if there is one, and an error to fetcher
      `bad` and to the others. */
  ghost function GoodBut(json: Decoder, yaml: Decoder, cfg: MountConfig, bad: nat): Answers {
    (i: nat) =>
      if Satisfied(json, yaml, cfg, bad, i) then Ok(Some(GoodPayload(json, yaml, cfg.secrets[i]))) else Err(PlainError)
  }

  lemma GoodButFate(json: Decoder, yaml: Decoder, cfg: MountConfig, bad: nat, i: nat)
    requires i < |cfg.secrets| && !RouteOf(cfg.secrets[i].resourceName).Rejected?
    ensures
      var p := PlanOf(Asked(json, yaml, cfg, GoodBut(json, yaml, cfg, bad), true));
      p.Delivers(i) && (p.Succeeds(i) <==> Satisfied(json, yaml, cfg, bad, i))
  {
    var answers := GoodBut(json, yaml, cfg, bad);
    AskedFate(json, yaml, cfg, answers, true, i);
    if Satisfied(json, yaml, cfg, bad, i) {
      SelectableExact(Answering(json, yaml, answers, true), cfg.secrets[i]);
    }
  }

  lemma BadIsUnsatisfied(json: Decoder, yaml: Decoder, cfg: MountConfig, bad: nat)
    ensures !Satisfied(json, yaml, cfg, bad, bad)
  {
  }

  /** If every identity has a satisfied entry, the mount can succeed, whether or not
      another fetch is left unsatisfied. */
  lemma GoodButMounts(json: Decoder, yaml: Decoder, cfg: MountConfig, bad: nat) returns (u: Setup)
    requires cfg.permissions <= MAX_INT32 && NoneRejected(cfg) && AllSatisfied(json, yaml, cfg, bad)
    ensures FirstMount(u) && Serves(u, json, yaml, cfg)
    ensures PlanOf(u).Valid() && CanMount(PlanOf(u)) && (bad < |cfg.secrets| ==> PlanOf(u).Fails(bad))
  {
    hide RouteOf, FateOf, Satisfied, GoodBut;
    u := Asked(json, yaml, cfg, GoodBut(json, yaml, cfg, bad), true);
    var p := PlanOf(u);
    PlanOfValid(u);
    forall k | 0 <= k < |cfg.secrets|
      ensures p.Delivers(k) && (p.Succeeds(k) <==> Satisfied(json, yaml, cfg, bad, k))
    {
      GoodButFate(json, yaml, cfg, bad, k);
    }
    forall k | 0 <= k < |p.fates|
      ensures p.Dispatched(k) && HasSuccess(p, p.Id(k))
    {
      assert p.Delivers(k);
      assert SatisfiedFor(json, yaml, cfg, bad, IdOf(cfg.secrets[k]));
      var j :| 0 <= j < |cfg.secrets| && IdOf(cfg.secrets[j]) == IdOf(cfg.secrets[k]) && Satisfied(json, yaml, cfg, bad, j);
      assert p.Succeeds(j) && p.Id(j) == p.Id(k);
    }
    if bad < |cfg.secrets| {
      BadIsUnsatisfied(json, yaml, cfg, bad);
      assert p.Delivers(bad) && !p.Succeeds(bad);
    }
  }

  lemma SpareIsSatisfied(json: Decoder, yaml: Decoder, cfg: MountConfig, bad: nat, a: nat, id: Identity)
    requires CanSucceed(json, yaml, cfg, id)
    requires bad < |cfg.secrets| ==>
               a < |cfg.secrets| && IdOf(cfg.secrets[a]) == IdOf(cfg.secrets[bad])
               && (a == bad ==> !Selectable(json, yaml, cfg.secrets[a]))
               && (a != bad ==> Selectable(json, yaml, cfg.secrets[a]))
    ensures SatisfiedFor(json, yaml, cfg, bad, id)
  {
    var c :| 0 <= c < |cfg.secrets| && IdOf(cfg.secrets[c]) == id && Selectable(json, yaml, cfg.secrets[c]);
    assert Satisfied(json, yaml, cfg, bad, if c != bad then c else a);
  }

  /** Which of two entries of one identity to leave unsatisfied. */
  lemma SpareOne(json: Decoder, yaml: Decoder, cfg: MountConfig) returns (bad: nat)
    requires AllCanSucceed(json, yaml, cfg) && Duplicates(cfg)
    ensures bad < |cfg.secrets| && AllSatisfied(json, yaml, cfg, bad)
  {
    hide CanSucceed, SatisfiedFor, Selectable;
    var a, b :| 0 <= a < b < |cfg.secrets| && IdOf(cfg.secrets[a]) == IdOf(cfg.secrets[b]);
    bad := if Selectable(json, yaml, cfg.secrets[a]) then b else a;
    forall i | 0 <= i < |cfg.secrets|
      ensures SatisfiedFor(json, yaml, cfg, bad, IdOf(cfg.secrets[i]))
    {
      SpareIsSatisfied(json, yaml, cfg, bad, a, IdOf(cfg.secrets[i]));
    }
  }

  lemma MaskedMeansTwo(p: Plan, order: seq<nat>, f: nat)
    requires p.Valid() && ValidOrder(p, order) && p.Fails(f) && ResultOf(p, order).Mounted?
    ensures Duplicates(p.cfg)
  {
    MaskedMeansDuplicate(p, order, f);
    var i, j :| 0 <= i < j < |p.fates| && p.Id(i) == p.Id(j);
  }

  lemma MaskingNeeds(u: Setup, acts: seq<Action>)
    requires MasksFailure(u, acts)
    ensures Maskable(u.env.decodeJSON, u.env.decodeYAML, u.cfg)
  {
    hide NoneRejected, AllCanSucceed, Duplicates, FateOf, Settle;
    var f: nat :| PlanOf(u).Fails(f);
    EveryRunRefines(u, acts);
    var order := Exec(u, Init(u), acts).sent;
    MountedNeeds(u, order);
    MaskedMeansTwo(PlanOf(u), order, f);
  }

  lemma MaskingArises(json: Decoder, yaml: Decoder, cfg: MountConfig) returns (u: Setup, acts: seq<Action>)
    requires Maskable(json, yaml, cfg)
    ensures Serves(u, json, yaml, cfg) && MasksFailure(u, acts)
  {
    hide NoneRejected, AllCanSucceed, AllSatisfied, Duplicates, PlanOf, Settle;
    var bad := SpareOne(json, yaml, cfg);
    u := GoodButMounts(json, yaml, cfg, bad);
    GoodLastMounts(PlanOf(u));
    acts := EveryOrderHasARun(u, Extreme(PlanOf(u), true));
  }

  /**
   "If any access failed, the mount fails" does not hold of every configuration. It can
   be broken, by some answers and some schedule, exactly for the configurations with a
   permission in range, no rejected name, an entry that can succeed for every identity,
   and two entries of the same identity.
   */
  lemma FailureCanBeMasked(json: Decoder, yaml: Decoder, cfg: MountConfig)
    ensures CanMask(json, yaml, cfg) <==> Maskable(json, yaml, cfg)
  {
    hide MasksFailure, Maskable;
    if u: Setup, acts: seq<Action> :| Serves(u, json, yaml, cfg) && MasksFailure(u, acts) {
      MaskingNeeds(u, acts);
    }
    if Maskable(json, yaml, cfg) {
      var u, acts := MaskingArises(json, yaml, cfg);
    }
  }

  /** The same, read off the configuration text: with decoders that can find any key, a
      failure can be masked exactly when the permission is in range, no name is rejected,
      every identity has an entry without both keys, and two entries share an identity. */
  lemma MaskingByInspection(json: Decoder, yaml: Decoder, cfg: MountConfig)
    requires forall key :: key != "" ==> Findable(json, key) && Findable(yaml, key)
    ensures CanMask(json, yaml, cfg)
       <==> && cfg.permissions <= MAX_INT32 && NoneRejected(cfg) && Duplicates(cfg)
            && forall i :: 0 <= i < |cfg.secrets| ==> OneKeyAtMost(cfg, IdOf(cfg.secrets[i]))
  {
    hide CanMask, NoneRejected, Duplicates, CanSucceed, OneKeyAtMost;
    FailureCanBeMasked(json, yaml, cfg);
    forall i | 0 <= i < |cfg.secrets|
      ensures CanSucceed(json, yaml, cfg, IdOf(cfg.secrets[i])) <==> OneKeyAtMost(cfg, IdOf(cfg.secrets[i]))
    {
      CanSucceedByInspection(json, yaml, cfg, IdOf(cfg.secrets[i]));
    }
  }

  /** The same global secret configured twice. */
  function TwoAlike(project: string, secret: string, version: string, fileName: string, path: string, permissions: uint32): MountConfig {
    var e := GlobalSecret(project, secret, version, fileName, path);
    MountConfig([e, e], permissions)
  }

  /** Such a configuration is maskable, whatever the decoders. */
  lemma TwoAlikeMaskable(json: Decoder, yaml: Decoder, project: string, secret: string, version: string,
                         fileName: string, path: string, permissions: uint32)
    requires Component(project) && Component(secret) && Component(version) && permissions <= MAX_INT32
    ensures Maskable(json, yaml, TwoAlike(project, secret, version, fileName, path, permissions))
  {
    var cfg := TwoAlike(project, secret, version, fileName, path, permissions);
    GlobalSecretRoute(project, secret, version, fileName, path);
    assert Selectable(json, yaml, cfg.secrets[0]);
    assert IdOf(cfg.secrets[0]) == IdOf(cfg.secrets[1]);
  }

  /**
   A run that masks a failure: one global secret configured twice, without keys. One of
   its two fetches fails, and the mount returns a file for each entry all the same.
   */
  lemma MaskedRun(json: Decoder, yaml: Decoder, project: string, secret: string, version: string,
                  fileName: string, path: string, permissions: uint32)
    returns (u: Setup, acts: seq<Action>)
    requires Component(project) && Component(secret) && Component(version) && permissions <= MAX_INT32
    ensures Serves(u, json, yaml, TwoAlike(project, secret, version, fileName, path, permissions)) && MasksFailure(u, acts)
    ensures |Exec(u, Init(u), acts).phase.result.files| == 2
  {
    var cfg := TwoAlike(project, secret, version, fileName, path, permissions);
    TwoAlikeMaskable(json, yaml, project, secret, version, fileName, path, permissions);
    FailureCanBeMasked(json, yaml, cfg);
    u, acts :| Serves(u, json, yaml, cfg) && MasksFailure(u, acts);
    var j := MountedMeansFetched(u, acts, 0);
  }

  // ----------------------------------------------------- when a detail can be left out

  /** A run that reports failed access, and a report of it. */
  ghost predicate Reported(u: Setup, acts: seq<Action>, st: Status) {
    && Feasible(u, Init(u), acts)
    && Exec(u, Init(u), acts).phase.Returned?
    && Exec(u, Init(u), acts).phase.result.AccessFailed?
    && Reports(st, Exec(u, Init(u), acts).phase.result.failures)
  }

  /** The report lacks the error of some rejected or failing entry. */
  ghost predicate Omits(u: Setup, acts: seq<Action>, st: Status) {
    Reported(u, acts, st) && PlanOf(u).Valid() && !ListsAll(PlanOf(u), st)
  }

  /** It has more or fewer details than entries were rejected or failed. */
  ghost predicate Miscounts(u: Setup, acts: seq<Action>, st: Status) {
    Reported(u, acts, st) && |st.details| != TroubledCount(PlanOf(u).fates)
  }

  ghost predicate CanOmit(json: Decoder, yaml: Decoder, cfg: MountConfig) {
    exists u: Setup, acts: seq<Action>, st :: Serves(u, json, yaml, cfg) && Omits(u, acts, st)
  }

  ghost predicate CanMiscount(json: Decoder, yaml: Decoder, cfg: MountConfig) {
    exists u: Setup, acts: seq<Action>, st :: Serves(u, json, yaml, cfg) && Miscounts(u, acts, st)
  }

  /** Two entries share an identity, and their name has a route. */
  ghost predicate RoutedDuplicates(cfg: MountConfig) {
    exists i, j :: 0 <= i < j < |cfg.secrets| && IdOf(cfg.secrets[i]) == IdOf(cfg.secrets[j])
                   && !RouteOf(cfg.secrets[i].resourceName).Rejected?
  }

  /** Errors only, one kind to fetcher `odd` and another to the rest. */
  function Refusals(odd: nat): Answers {
    (i: nat) => Err(GrpcStatus(if i == odd then "PermissionDenied" else "Unavailable"))
  }

  /** Under errors only every entry is in trouble, and every order reports failed access. */
  lemma RefusedFates(json: Decoder, yaml: Decoder, cfg: MountConfig, odd: nat)
    requires cfg.secrets != []
    ensures
      var p := PlanOf(Asked(json, yaml, cfg, Refusals(odd), true));
      && p.Valid()
      && (forall i :: 0 <= i < |p.fates| ==> Troubled(p.fates[i]))
      && (forall i :: 0 <= i < |p.fates| && !RouteOf(cfg.secrets[i].resourceName).Rejected? ==>
            TroubleOf(p.fates[i]) == RpcFailed(GrpcStatus(if i == odd then "PermissionDenied" else "Unavailable")))
      && (forall order :: ValidOrder(p, order) ==> ResultOf(p, order).AccessFailed?)
  {
    var u := Asked(json, yaml, cfg, Refusals(odd), true);
    var p := PlanOf(u);
    PlanOfValid(u);
    forall i | 0 <= i < |p.fates|
      ensures Troubled(p.fates[i])
      ensures !RouteOf(cfg.secrets[i].resourceName).Rejected? ==>
                TroubleOf(p.fates[i]) == RpcFailed(GrpcStatus(if i == odd then "PermissionDenied" else "Unavailable"))
    {
      if !RouteOf(cfg.secrets[i].resourceName).Rejected? {
        AskedFate(json, yaml, cfg, Refusals(odd), true, i);
      }
    }
    assert Troubled(p.fates[0]);
    assert Fatal(p, 0);
    MustFail(p);
  }

  /** A report over a complete order is the report of a run. */
  lemma ReportedRun(u: Setup, order: seq<nat>, st: Status) returns (acts: seq<Action>)
    requires PlanOf(u).Valid() && ValidOrder(PlanOf(u), order) && ResultOf(PlanOf(u), order).AccessFailed?
    requires Reports(st, Failing(Settle(PlanOf(u), order)))
    ensures Reported(u, acts, st)
  {
    acts := EveryOrderHasARun(u, order);
  }

  lemma ReportedOrder(u: Setup, acts: seq<Action>, st: Status) returns (order: seq<nat>)
    requires Reported(u, acts, st)
    ensures PlanOf(u).Valid() && ValidOrder(PlanOf(u), order) && Reports(st, Failing(Settle(PlanOf(u), order)))
  {
    hide FateOf, Settle, Failing, Reports;
    EveryRunRefines(u, acts);
    order := Exec(u, Init(u), acts).sent;
  }

  lemma DisagreeingIsDuplicate(u: Setup)
    requires PlanOf(u).Valid() && !AgreeingFailures(PlanOf(u))
    ensures RoutedDuplicates(u.cfg)
  {
    hide RouteOf, FateOf;
    var p := PlanOf(u);
    PlanRejectsAlike(u);
    var i, j :| 0 <= i < |p.fates| && 0 <= j < |p.fates| && Troubled(p.fates[i]) && p.Id(i) == p.Id(j) && !p.fates[j].Panicked?
                && !(Troubled(p.fates[j]) && TroubleOf(p.fates[j]) == TroubleOf(p.fates[i]));
    assert RejectsAlike(u, p, i) && RejectsAlike(u, p, j);
    assert IdOf(u.cfg.secrets[i]) == IdOf(u.cfg.secrets[j]);
    var a, b := if i < j then i else j, if i < j then j else i;
    assert a < b && IdOf(u.cfg.secrets[a]) == IdOf(u.cfg.secrets[b]) && !RouteOf(u.cfg.secrets[a].resourceName).Rejected?;
  }

  lemma OmissionNeeds(u: Setup, acts: seq<Action>, st: Status)
    requires Omits(u, acts, st)
    ensures RoutedDuplicates(u.cfg)
  {
    hide Reported, ListsAll, AgreeingFailures, RoutedDuplicates, PlanOf, Settle, Failing;
    var order := ReportedOrder(u, acts, st);
    EveryFailureListed(PlanOf(u));
    DisagreeingIsDuplicate(u);
  }

  lemma OmissionArises(json: Decoder, yaml: Decoder, cfg: MountConfig) returns (u: Setup, acts: seq<Action>, st: Status)
    requires RoutedDuplicates(cfg)
    ensures Serves(u, json, yaml, cfg) && Omits(u, acts, st)
  {
    hide RouteOf, Reports, ListsAll, Failing, Settle, FateOf, TroubleOf;
    var i, j :| 0 <= i < j < |cfg.secrets| && IdOf(cfg.secrets[i]) == IdOf(cfg.secrets[j])
                && !RouteOf(cfg.secrets[i].resourceName).Rejected?;
    u := Asked(json, yaml, cfg, Refusals(i), true);
    var p := PlanOf(u);
    RefusedFates(json, yaml, cfg, i);
    assert p.Id(i) == p.Id(j) && TroubleOf(p.fates[i]) != TroubleOf(p.fates[j]);
    EveryFailureListed(p);
    var order: seq<nat>;
    order, st :| ValidOrder(p, order) && Reports(st, Failing(Settle(p, order))) && !ListsAll(p, st);
    acts := ReportedRun(u, order, st);
  }

  /**
   "Includes each individual status error" does not hold of every configuration either:
   some run's error leaves out the error of a rejected or failing entry, if and only if
   two entries share an identity and their name has a route.
   */
  lemma DetailCanBeOmitted(json: Decoder, yaml: Decoder, cfg: MountConfig)
    ensures CanOmit(json, yaml, cfg) <==> RoutedDuplicates(cfg)
  {
    hide Omits, RoutedDuplicates;
    if u: Setup, acts: seq<Action>, st :| Serves(u, json, yaml, cfg) && Omits(u, acts, st) {
      OmissionNeeds(u, acts, st);
    }
    if RoutedDuplicates(cfg) {
      var u, acts, st := OmissionArises(json, yaml, cfg);
    }
  }

  lemma MiscountNeeds(u: Setup, acts: seq<Action>, st: Status)
    requires Miscounts(u, acts, st)
    ensures Duplicates(u.cfg)
  {
    hide Reported, LoneFailures, TroubledCount, FateOf, Settle, Failing;
    var p := PlanOf(u);
    var order := ReportedOrder(u, acts, st);
    OneDetailPerFailingEntry(p);
    var i, j :| 0 <= i < j < |p.fates| && p.Id(i) == p.Id(j);
  }

  lemma MiscountArises(json: Decoder, yaml: Decoder, cfg: MountConfig) returns (u: Setup, acts: seq<Action>, st: Status)
    requires Duplicates(cfg)
    ensures Serves(u, json, yaml, cfg) && Miscounts(u, acts, st)
  {
    hide RouteOf, Reports, Failing, Settle, FateOf, TroubleOf, TroubledCount;
    var i, j :| 0 <= i < j < |cfg.secrets| && IdOf(cfg.secrets[i]) == IdOf(cfg.secrets[j]);
    u := Asked(json, yaml, cfg, Refusals(i), true);
    var p := PlanOf(u);
    RefusedFates(json, yaml, cfg, i);
    assert Troubled(p.fates[i]) && Troubled(p.fates[j]) && p.Id(i) == p.Id(j);
    OneDetailPerFailingEntry(p);
    var order: seq<nat>;
    order, st :| ValidOrder(p, order) && Reports(st, Failing(Settle(p, order))) && |st.details| != TroubledCount(p.fates);
    acts := ReportedRun(u, order, st);
  }

  /** The number of details of some run is not the number of rejected and failing entries
      if and only if two entries share an identity. */
  lemma DetailsCanBeMiscounted(json: Decoder, yaml: Decoder, cfg: MountConfig)
    ensures CanMiscount(json, yaml, cfg) <==> Duplicates(cfg)
  {
    hide Miscounts, Duplicates;
    if u: Setup, acts: seq<Action>, st :| Serves(u, json, yaml, cfg) && Miscounts(u, acts, st) {
      MiscountNeeds(u, acts, st);
    }
    if Duplicates(cfg) {
      var u, acts, st := MiscountArises(json, yaml, cfg);
    }
  }

  /** A run whose error leaves a failure out: one global secret configured twice. */
  lemma OmittingRun(json: Decoder, yaml: Decoder, project: string, secret: string, version: string,
                    fileName: string, path: string, permissions: uint32)
    returns (u: Setup, acts: seq<Action>, st: Status)
    requires Component(project) && Component(secret) && Component(version)
    ensures Serves(u, json, yaml, TwoAlike(project, secret, version, fileName, path, permissions)) && Omits(u, acts, st)
  {
    var cfg := TwoAlike(project, secret, version, fileName, path, permissions);
    GlobalSecretRoute(project, secret, version, fileName, path);
    assert IdOf(cfg.secrets[0]) == IdOf(cfg.secrets[1]);
    DetailCanBeOmitted(json, yaml, cfg);
    u, acts, st :| Serves(u, json, yaml, cfg) && Omits(u, acts, st);
  }

  // ------------------------------------------- which answers a first mount can give

  /** Some answers and some schedule of a first mount return a result of this kind. */
  ghost predicate CanReturn(json: Decoder, yaml: Decoder, cfg: MountConfig, kind: MountResult -> bool) {
    exists u: Setup, acts: seq<Action>, result ::
      FirstMount(u) && Serves(u, json, yaml, cfg) && Returns(u, acts, result) && kind(result)
  }

  /** No name is rejected, and every identity can succeed or vanish. */
  ghost predicate Avoidable(json: Decoder, yaml: Decoder, cfg: MountConfig) {
    && NoneRejected(cfg)
    && forall i :: 0 <= i < |cfg.secrets| ==>
         CanVanish(cfg, IdOf(cfg.secrets[i])) || CanSucceed(json, yaml, cfg, IdOf(cfg.secrets[i]))
  }

  lemma GlobalClientsStay(u: Setup)
    ensures Phase1(u).clients.secret == u.before.secret && Phase1(u).clients.parameter == u.before.parameter
  {
    var n := |u.cfg.secrets|;
    Phase1Prepares(u, n);
    PrepareAllKeeps(u.env.construct, u.base, u.before, Names(u.cfg.secrets[..n]));
  }

  lemma VanishingNeeds(u: Setup, i: nat)
    requires FirstMount(u) && PlanOf(u).Valid() && i < |u.cfg.secrets| && AllPanic(PlanOf(u), PlanOf(u).Id(i))
    ensures CanVanish(u.cfg, IdOf(u.cfg.secrets[i]))
  {
    var p, id := PlanOf(u), IdOf(u.cfg.secrets[i]);
    GlobalClientsStay(u);
    assert p.Id(i) == id && p.fates[i].Panicked?;
    forall j | 0 <= j < |u.cfg.secrets| && IdOf(u.cfg.secrets[j]) == id && RouteOf(id.resourceName) == SecretIn("")
      ensures !BothKeys(u.cfg.secrets[j])
    {
      assert p.Id(j) == id && p.fates[j].Panicked?;
    }
  }

  lemma AvoidanceNeeds(u: Setup)
    requires FirstMount(u) && PlanOf(u).Valid()
    requires forall i :: 0 <= i < |PlanOf(u).fates| ==> !Fatal(PlanOf(u), i)
    ensures Avoidable(u.env.decodeJSON, u.env.decodeYAML, u.cfg)
  {
    var p := PlanOf(u);
    PlanRejectsAlike(u);
    forall i | 0 <= i < |u.cfg.secrets|
      ensures !RouteOf(u.cfg.secrets[i].resourceName).Rejected?
      ensures CanVanish(u.cfg, IdOf(u.cfg.secrets[i]))
              || CanSucceed(u.env.decodeJSON, u.env.decodeYAML, u.cfg, IdOf(u.cfg.secrets[i]))
    {
      assert RejectsAlike(u, p, i) && !Fatal(p, i);
      if AllPanic(p, p.Id(i)) {
        VanishingNeeds(u, i);
      } else {
        var j :| 0 <= j < |p.fates| && p.Id(j) == p.Id(i) && !p.fates[j].Panicked?;
        assert !Fatal(p, j);
        var k: nat :| p.Succeeds(k) && p.Id(k) == p.Id(i);
        SuccessCanSucceed(u, k);
      }
    }
  }

  /** A nil payload wherever it makes a whole identity vanish, else a good one. */
  ghost function Vanishing(json: Decoder, yaml: Decoder, cfg: MountConfig): Answers {
    (i: nat) =>
      if i < |cfg.secrets| && CanVanish(cfg, IdOf(cfg.secrets[i])) then Ok(None)
      else if Satisfied(json, yaml, cfg, |cfg.secrets|, i) then Ok(Some(GoodPayload(json, yaml, cfg.secrets[i])))
      else Err(PlainError)
  }

  lemma VanishingFate(json: Decoder, yaml: Decoder, cfg: MountConfig, i: nat)
    requires NoneRejected(cfg) && i < |cfg.secrets|
    ensures
      var p := PlanOf(Asked(json, yaml, cfg, Vanishing(json, yaml, cfg), false));
      if CanVanish(cfg, IdOf(cfg.secrets[i])) then p.fates[i] == Panicked
      else Selectable(json, yaml, cfg.secrets[i]) ==> p.Succeeds(i)
  {
    var answers := Vanishing(json, yaml, cfg);
    var e := cfg.secrets[i];
    assert IdOf(e).resourceName == e.resourceName;
    AskedFate(json, yaml, cfg, answers, false, i);
    if !CanVanish(cfg, IdOf(e)) && Selectable(json, yaml, e) {
      assert answers(i) == Ok(Some(GoodPayload(json, yaml, e)));
      SelectableExact(Answering(json, yaml, answers, false), e);
    }
  }

  lemma VanishingAvoids(json: Decoder, yaml: Decoder, cfg: MountConfig) returns (u: Setup)
    requires Avoidable(json, yaml, cfg)
    ensures FirstMount(u) && Serves(u, json, yaml, cfg) && PlanOf(u).Valid()
    ensures forall i :: 0 <= i < |PlanOf(u).fates| ==> !Fatal(PlanOf(u), i)
    ensures forall i :: 0 <= i < |cfg.secrets| && CanVanish(cfg, IdOf(cfg.secrets[i])) ==>
              AllPanic(PlanOf(u), PlanOf(u).Id(i))
  {
    u := Asked(json, yaml, cfg, Vanishing(json, yaml, cfg), false);
    var p := PlanOf(u);
    PlanOfValid(u);
    PlanRejectsAlike(u);
    forall i | 0 <= i < |cfg.secrets|
      ensures if CanVanish(cfg, IdOf(cfg.secrets[i])) then p.fates[i] == Panicked
              else Selectable(json, yaml, cfg.secrets[i]) ==> p.Succeeds(i)
    {
      VanishingFate(json, yaml, cfg, i);
    }
    forall i | 0 <= i < |cfg.secrets|
      ensures !Fatal(p, i)
    {
      assert RejectsAlike(u, p, i);
      if !CanVanish(cfg, IdOf(cfg.secrets[i])) {
        var j :| 0 <= j < |cfg.secrets| && IdOf(cfg.secrets[j]) == IdOf(cfg.secrets[i]) && Selectable(json, yaml, cfg.secrets[j]);
        assert p.Succeeds(j) && p.Id(j) == p.Id(i);
      }
    }
  }

  /** Some first mount ends otherwise than in failed access if and only if no name is
      rejected and every identity can succeed or vanish. */
  lemma FailureAvoidable(json: Decoder, yaml: Decoder, cfg: MountConfig)
    ensures CanReturn(json, yaml, cfg, (result: MountResult) => !result.AccessFailed?) <==> Avoidable(json, yaml, cfg)
  {
    if u: Setup, acts: seq<Action>, result :|
      FirstMount(u) && Serves(u, json, yaml, cfg) && Returns(u, acts, result) && !result.AccessFailed?
    {
      EveryRunRefines(u, acts);
      MustFail(PlanOf(u));
      AvoidanceNeeds(u);
    }
    if Avoidable(json, yaml, cfg) {
      var u := VanishingAvoids(json, yaml, cfg);
      var p := PlanOf(u);
      MustFail(p);
      var order :| ValidOrder(p, order) && !ResultOf(p, order).AccessFailed?;
      var acts := EveryOrderHasARun(u, order);
      assert Returns(u, acts, ResultOf(p, order));
    }
  }

  /** Some first mount answers "result missing" if and only if, besides, the permission is
      in range and some identity can vanish. */
  lemma MissingReachable(json: Decoder, yaml: Decoder, cfg: MountConfig)
    ensures CanReturn(json, yaml, cfg, (result: MountResult) => result.ResultMissing?)
       <==> && cfg.permissions <= MAX_INT32 && Avoidable(json, yaml, cfg)
            && exists i :: 0 <= i < |cfg.secrets| && CanVanish(cfg, IdOf(cfg.secrets[i]))
  {
    if u: Setup, acts: seq<Action>, result :|
      FirstMount(u) && Serves(u, json, yaml, cfg) && Returns(u, acts, result) && result.ResultMissing?
    {
      var p := PlanOf(u);
      EveryRunRefines(u, acts);
      MayMiss(p);
      AvoidanceNeeds(u);
      var i :| 0 <= i < |p.fates| && AllPanic(p, p.Id(i));
      VanishingNeeds(u, i);
    }
    if cfg.permissions <= MAX_INT32 && Avoidable(json, yaml, cfg) {
      if i :| 0 <= i < |cfg.secrets| && CanVanish(cfg, IdOf(cfg.secrets[i])) {
        var u := VanishingAvoids(json, yaml, cfg);
        var p := PlanOf(u);
        assert AllPanic(p, p.Id(i));
        MayMiss(p);
        var order :| ValidOrder(p, order) && ResultOf(p, order).ResultMissing?;
        var acts := EveryOrderHasARun(u, order);
        assert Returns(u, acts, ResultOf(p, order));
      }
    }
  }

  /** Some first mount succeeds if and only if the permission is in range, no name is
      rejected and every identity has an entry that can succeed. */
  lemma MountReachable(json: Decoder, yaml: Decoder, cfg: MountConfig)
    ensures CanReturn(json, yaml, cfg, (result: MountResult) => result.Mounted?)
       <==> cfg.permissions <= MAX_INT32 && NoneRejected(cfg) && AllCanSucceed(json, yaml, cfg)
  {
    hide NoneRejected, CanSucceed, SatisfiedFor, PlanOf, Settle;
    var n := |cfg.secrets|;
    if u: Setup, acts: seq<Action>, result :|
      FirstMount(u) && Serves(u, json, yaml, cfg) && Returns(u, acts, result) && result.Mounted?
    {
      EveryRunRefines(u, acts);
      MountedNeeds(u, Exec(u, Init(u), acts).sent);
    }
    if cfg.permissions <= MAX_INT32 && NoneRejected(cfg) && AllCanSucceed(json, yaml, cfg) {
      forall i | 0 <= i < n
        ensures SatisfiedFor(json, yaml, cfg, n, IdOf(cfg.secrets[i]))
      {
        SpareIsSatisfied(json, yaml, cfg, n, n, IdOf(cfg.secrets[i]));
      }
      var u := GoodButMounts(json, yaml, cfg, n);
      var order := Extreme(PlanOf(u), true);
      GoodLastMounts(PlanOf(u));
      var acts := EveryOrderHasARun(u, order);
      assert Returns(u, acts, ResultOf(PlanOf(u), order));
    }
  }

  lemma OneVanishes(json: Decoder, yaml: Decoder, cfg: MountConfig)
    requires |cfg.secrets| == 1 && RouteOf(cfg.secrets[0].resourceName) == SecretIn("") && !BothKeys(cfg.secrets[0])
    ensures CanVanish(cfg, IdOf(cfg.secrets[0])) && Avoidable(json, yaml, cfg)
  {
    hide RouteOf, CanSucceed;
  }

  /** A run that answers "result missing": one global secret without keys, configured
      once, whose remote call succeeds with a nil payload. */
  lemma MissingRun(json: Decoder, yaml: Decoder, project: string, secret: string, version: string,
                   fileName: string, path: string, permissions: uint32)
    returns (u: Setup, acts: seq<Action>)
    requires Component(project) && Component(secret) && Component(version) && permissions <= MAX_INT32
    ensures FirstMount(u)
    ensures Serves(u, json, yaml, MountConfig([GlobalSecret(project, secret, version, fileName, path)], permissions))
    ensures Returns(u, acts, ResultMissing(IdOf(GlobalSecret(project, secret, version, fileName, path))))
  {
    var cfg := MountConfig([GlobalSecret(project, secret, version, fileName, path)], permissions);
    GlobalSecretRoute(project, secret, version, fileName, path);
    OneVanishes(json, yaml, cfg);
    hide GlobalSecret, Avoidable, CanVanish, FateOf, Settle;
    MissingReachable(json, yaml, cfg);
    var result;
    u, acts, result :| FirstMount(u) && Serves(u, json, yaml, cfg) && Returns(u, acts, result) && result.ResultMissing?;
    EveryRunRefines(u, acts);
    MissingOnlyAfterPanic(PlanOf(u), Exec(u, Init(u), acts).sent);
  }
}
