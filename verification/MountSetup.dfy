/**
 One mount with its environment: phase 1 over the configured entries, and how each
 entry fares under the answers the environment gives.
 */
module MountSetup {
  import opened ResourceNames
  import opened ClientOptions
  import opened RegionalClients
  import opened Fetching
  import opened MountSpec

  /** A mount request: its configuration, its environment, the shared client options
      and the clients the server holds when it arrives. */
  datatype Setup = Setup(cfg: MountConfig, env: Env, base: seq<ClientOption>, before: Clients)

  // ------------------------------------------------------------------ phase 1

  datatype Classified = Classified(results: ResultMap, clients: Clients)

  function ClassifyOne(u: Setup, c: Classified, e: Entry): Classified {
    match RouteOf(e.resourceName)
    case Rejected(reason) => c.(results := c.results[IdOf(e) := ErrorResource(IdOf(e), Unroutable(reason))])
    case _ => c.(clients := PrepareName(u.env.construct, u.base, c.clients, e.resourceName))
  }

  function ClassifyFirst(u: Setup, k: nat): Classified
    requires k <= |u.cfg.secrets|
  {
    if k == 0 then Classified(map[], u.before)
    else ClassifyOne(u, ClassifyFirst(u, k - 1), u.cfg.secrets[k - 1])
  }

  /** Phase 1 as a whole. */
  function Phase1(u: Setup): Classified {
    ClassifyFirst(u, |u.cfg.secrets|)
  }

  function Names(entries: seq<Entry>): seq<string> {
    seq(|entries|, i requires 0 <= i < |entries| => entries[i].resourceName)
  }

  /** Phase 1 leaves the caches that its names ask for, in list order. */
  lemma {:induction false} Phase1Prepares(u: Setup, k: nat)
    requires k <= |u.cfg.secrets|
    ensures ClassifyFirst(u, k).clients == PrepareAll(u.env.construct, u.base, u.before, Names(u.cfg.secrets[..k]))
  {
    if k == 0 {
    } else {
      Phase1Prepares(u, k - 1);
      assert Names(u.cfg.secrets[..k])[..k - 1] == Names(u.cfg.secrets[..k - 1]);
    }
  }

  // -------------------------------------------------------------------- fates

  function Answer(u: Setup, i: nat): Outcome
    requires i < |u.cfg.secrets|
  {
    OutcomeOf(u.env, Phase1(u).clients, i, u.cfg.secrets[i])
  }

  function FateOf(u: Setup, i: nat): Fate
    requires i < |u.cfg.secrets|
  {
    match RouteOf(u.cfg.secrets[i].resourceName)
    case Rejected(reason) => Turned(reason)
    case _ =>
      match Answer(u, i)
      case Delivered(resource) => Delivery(resource)
      case _ => Panicked
  }

  function PlanOf(u: Setup): Plan {
    Plan(u.cfg, seq(|u.cfg.secrets|, i requires 0 <= i < |u.cfg.secrets| => FateOf(u, i)))
  }

  lemma PlanOfValid(u: Setup)
    ensures PlanOf(u).Valid()
  {
    var p := PlanOf(u);
    forall i | 0 <= i < |p.fates| && p.fates[i].Delivery?
      ensures KeyOf(p.fates[i].resource) == IdOf(u.cfg.secrets[i])
    {
      DeliveryIsOwn(u.env, Phase1(u).clients, i, u.cfg.secrets[i]);
    }
  }

  /** The plan rejects entry `i` exactly when, and for the reason that, its route does. */
  predicate RejectsAlike(u: Setup, p: Plan, i: nat)
    requires i < |u.cfg.secrets| == |p.fates|
  {
    match RouteOf(u.cfg.secrets[i].resourceName)
    case Rejected(reason) => p.fates[i] == Turned(reason)
    case _ => !p.fates[i].Turned?
  }

  lemma PlanRejectsAlike(u: Setup)
    ensures forall i :: 0 <= i < |u.cfg.secrets| ==> RejectsAlike(u, PlanOf(u), i)
  {
  }

  lemma RejectedRecord(u: Setup, p: Plan, k: nat, c: Classified)
    requires p.cfg == u.cfg && k < |u.cfg.secrets| == |p.fates| && RejectsAlike(u, p, k)
    ensures ClassifyOne(u, c, u.cfg.secrets[k]).results ==
              if p.fates[k].Turned? then c.results[p.Id(k) := ErrorResource(p.Id(k), Unroutable(p.fates[k].reason))]
              else c.results
  {
  }

  /** What phase 1 records is what the fates of the entries call for. */
  lemma {:induction false} Phase1RecordsEarly(u: Setup, p: Plan, k: nat)
    requires p.cfg == u.cfg && k <= |u.cfg.secrets| == |p.fates|
    requires forall i :: 0 <= i < |u.cfg.secrets| ==> RejectsAlike(u, p, i)
    ensures ClassifyFirst(u, k).results == EarlyFirst(p, k)
  {
    hide RouteOf, ClassifyOne, RejectsAlike;
    if k == 0 {
    } else {
      Phase1RecordsEarly(u, p, k - 1);
      RejectedRecord(u, p, k - 1, ClassifyFirst(u, k - 1));
    }
  }

  /**
   Phase 1 records an error for exactly the identities whose name has no route, with the
   reason the classifiers and extractors give, and nothing else.
   */
  lemma Phase1RecordsExactly(u: Setup, id: Identity)
    ensures id in Phase1(u).results
       <==> exists i :: 0 <= i < |u.cfg.secrets| && IdOf(u.cfg.secrets[i]) == id && RouteOf(id.resourceName).Rejected?
    ensures id in Phase1(u).results ==>
              Phase1(u).results[id] == ErrorResource(id, Unroutable(RouteOf(id.resourceName).reason))
  {
    var p := PlanOf(u);
    PlanOfValid(u);
    PlanRejectsAlike(u);
    Phase1RecordsEarly(u, p, |u.cfg.secrets|);
    EarlyExact(p, |p.fates|);
    if id in Phase1(u).results {
      var i :| 0 <= i < |p.fates| && p.fates[i].Turned? && p.Id(i) == id;
      assert RejectsAlike(u, p, i);
    }
    if i :| 0 <= i < |u.cfg.secrets| && IdOf(u.cfg.secrets[i]) == id && RouteOf(id.resourceName).Rejected? {
      assert RejectsAlike(u, p, i) && p.Id(i) == id;
    }
  }

  /** A successful fate holds what a remote call for that entry returned. */
  lemma SuccessIsFetched(u: Setup, i: nat)
    requires PlanOf(u).Succeeds(i)
    ensures FetchedFor(u.env, Phase1(u).clients, i, u.cfg.secrets[i],
                       PlanOf(u).fates[i].resource.version, PlanOf(u).fates[i].resource.payload)
  {
    DeliveryIsOwn(u.env, Phase1(u).clients, i, u.cfg.secrets[i]);
  }

  /** A regional name whose client is cached as nil always makes its fetcher panic. */
  lemma DeadRegionPanics(u: Setup, i: nat)
    requires i < |u.cfg.secrets| && DeadRegion(u.before, u.cfg.secrets[i].resourceName)
    ensures PlanOf(u).fates[i] == Panicked
  {
    var n := |u.cfg.secrets|;
    Phase1Prepares(u, n);
    PrepareAllKeeps(u.env.construct, u.base, u.before, Names(u.cfg.secrets[..n]));
    DeadStaysDead(u.before, Phase1(u).clients, u.cfg.secrets[i].resourceName);
  }
}
