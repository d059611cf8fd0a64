/**
 The sequential meaning of one mount, given how each configured entry fares: what a
 given order of deliveries leaves in the result map, and the answer built from it.
 */
module MountSpec {
  import opened Wrappers
  import opened Sequences
  import opened ResourceNames
  import opened Fetching

  datatype MountConfig = MountConfig(secrets: seq<Entry>, permissions: uint32)

  type ResultMap = map<Identity, Resource>

  /** How one entry fares: rejected by phase 1, lost to a panic in its fetcher, or
      delivered as a resource that may carry an error. */
  datatype Fate = Turned(reason: RouteError) | Panicked | Delivery(resource: Resource)

  datatype Plan = Plan(cfg: MountConfig, fates: seq<Fate>) {
    /** The identity of entry `i`. */
    function Id(i: nat): Identity
      requires i < |cfg.secrets|
    {
      IdOf(cfg.secrets[i])
    }

    /** One fate per entry; deliveries carry their entry's identity; and rejection,
        which looks at the name only, is the same for entries of the same identity. */
    ghost predicate Valid() {
      && |fates| == |cfg.secrets|
      && (forall i :: 0 <= i < |fates| && fates[i].Delivery? ==> KeyOf(fates[i].resource) == IdOf(cfg.secrets[i]))
      && (forall i, j ::
            0 <= i < |fates| && 0 <= j < |fates| && fates[i].Turned? && IdOf(cfg.secrets[i]) == IdOf(cfg.secrets[j]) ==>
              fates[j] == fates[i])
    }

    /** Entries that get a fetcher. */
    predicate Dispatched(i: nat) {
      i < |fates| && !fates[i].Turned?
    }

    /** Entries whose fetcher delivers a result instead of panicking. */
    predicate Delivers(i: nat) {
      i < |fates| && fates[i].Delivery?
    }

    predicate Succeeds(i: nat) {
      i < |fates| && fates[i].Delivery? && fates[i].resource.err.None?
    }

    predicate Fails(i: nat) {
      i < |fates| && fates[i].Delivery? && fates[i].resource.err.Some?
    }

    ghost predicate PanicFree() {
      forall i :: 0 <= i < |fates| ==> !fates[i].Panicked?
    }

    /** No two entries with a fetcher share (resource name, file name, path). */
    ghost predicate DistinctIdentities() {
      forall i, j :: 0 <= i < j < |fates| && j < |cfg.secrets| && Dispatched(i) && Dispatched(j) ==>
        IdOf(cfg.secrets[i]) != IdOf(cfg.secrets[j])
    }
  }

  // ------------------------------------------------------------- early results

  /** The error results phase 1 records for the first `k` entries. */
  function EarlyFirst(p: Plan, k: nat): ResultMap
    requires k <= |p.fates| == |p.cfg.secrets|
  {
    if k == 0 then map[]
    else
      var earlier := EarlyFirst(p, k - 1);
      match p.fates[k - 1]
      case Turned(reason) => earlier[p.Id(k - 1) := ErrorResource(p.Id(k - 1), Unroutable(reason))]
      case _ => earlier
  }

  function Early(p: Plan): ResultMap
    requires |p.fates| == |p.cfg.secrets|
  {
    EarlyFirst(p, |p.fates|)
  }

  /** Exactly the rejected identities are recorded, each with its own reason. */
  lemma {:induction false} EarlyExact(p: Plan, k: nat)
    requires p.Valid() && k <= |p.fates|
    ensures forall i :: 0 <= i < k && p.fates[i].Turned? ==>
              p.Id(i) in EarlyFirst(p, k)
              && EarlyFirst(p, k)[p.Id(i)] == ErrorResource(p.Id(i), Unroutable(p.fates[i].reason))
    ensures forall id :: id in EarlyFirst(p, k) ==> exists i :: 0 <= i < k && p.fates[i].Turned? && p.Id(i) == id
  {
    if k == 0 {
    } else {
      EarlyExact(p, k - 1);
      forall i | 0 <= i < k && p.fates[i].Turned?
        ensures p.Id(i) in EarlyFirst(p, k)
        ensures EarlyFirst(p, k)[p.Id(i)] == ErrorResource(p.Id(i), Unroutable(p.fates[i].reason))
      {
        if i < k - 1 && p.Id(i) == p.Id(k - 1) {
          assert p.fates[k - 1] == p.fates[i];
        }
      }
      forall id | id in EarlyFirst(p, k)
        ensures exists i :: 0 <= i < k && p.fates[i].Turned? && p.Id(i) == id
      {
        if id !in EarlyFirst(p, k - 1) {
          assert p.fates[k - 1].Turned? && p.Id(k - 1) == id;
        }
      }
    }
  }

  // --------------------------------------------------------- orders of delivery

  ghost predicate Deliverers(p: Plan, order: seq<nat>) {
    forall k :: 0 <= k < |order| ==> p.Delivers(order[k])
  }

  /** A complete order of deliveries: every fetcher that delivers, once. */
  ghost predicate ValidOrder(p: Plan, order: seq<nat>) {
    && NoDup(order)
    && Deliverers(p, order)
    && forall i :: 0 <= i < |p.fates| && p.Delivers(i) ==> i in order
  }

  /** The result map after phase 1 and the deliveries of `order`, drained in that order. */
  ghost function Settle(p: Plan, order: seq<nat>): ResultMap
    requires |p.fates| == |p.cfg.secrets| && Deliverers(p, order)
  {
    if order == [] then Early(p)
    else
      var r := p.fates[order[|order| - 1]].resource;
      Settle(p, order[..|order| - 1])[KeyOf(r) := r]
  }

  // ------------------------------------------------------------------- answer

  datatype File = File(path: string, mode: int32, contents: Bytes)

  datatype ObjectVersion = ObjectVersion(id: string, version: string)

  datatype MountResult =
    | Mounted(files: seq<File>, versions: seq<ObjectVersion>)
    | AccessFailed(failures: map<Identity, FetchError>)
    | InvalidPermission
    | ResultMissing(id: Identity)

  /** Every identity whose result carries an error, with that error. */
  function Failing(m: ResultMap): map<Identity, FetchError> {
    map id | id in m && m[id].err.Some? :: m[id].err.value
  }

  function FileFor(cfg: MountConfig, e: Entry, r: Resource): File
    requires cfg.permissions <= MAX_INT32
  {
    File(e.PathString(), e.mode.GetOr(cfg.permissions as int32), r.payload)
  }

  predicate AllPresent(entries: seq<Entry>, m: ResultMap) {
    forall i :: 0 <= i < |entries| ==> IdOf(entries[i]) in m
  }

  function FirstMissing(entries: seq<Entry>, m: ResultMap): Identity
    requires !AllPresent(entries, m)
  {
    if IdOf(entries[0]) !in m then IdOf(entries[0])
    else
      assert !AllPresent(entries[1..], m) by {
        var i :| 0 <= i < |entries| && IdOf(entries[i]) !in m;
        assert entries[1..][i - 1] == entries[i];
      }
      FirstMissing(entries[1..], m)
  }

  /** Errors first, then the permission check, then one file and one version per entry. */
  function Respond(cfg: MountConfig, m: ResultMap): MountResult {
    if Failing(m) != map[] then AccessFailed(Failing(m))
    else if cfg.permissions > MAX_INT32 then InvalidPermission
    else if !AllPresent(cfg.secrets, m) then ResultMissing(FirstMissing(cfg.secrets, m))
    else
      Mounted(
        seq(|cfg.secrets|, i requires 0 <= i < |cfg.secrets| => FileFor(cfg, cfg.secrets[i], m[IdOf(cfg.secrets[i])])),
        seq(|cfg.secrets|, i requires 0 <= i < |cfg.secrets| =>
          ObjectVersion(cfg.secrets[i].resourceName, m[IdOf(cfg.secrets[i])].version)))
  }

  /** The answer of a mount whose results were delivered in the given order. */
  ghost function ResultOf(p: Plan, order: seq<nat>): MountResult
    requires |p.fates| == |p.cfg.secrets| && Deliverers(p, order)
  {
    Respond(p.cfg, Settle(p, order))
  }

  // ---------------------------------------------------------- the last one wins

  /** The last fetcher in `order` that serves `id`. */
  ghost function LastFor(p: Plan, order: seq<nat>, id: Identity): (last: Option<nat>)
    requires |p.fates| == |p.cfg.secrets| && Deliverers(p, order)
    ensures last.Some? ==> last.value in order && p.Delivers(last.value) && p.Id(last.value) == id
  {
    if order == [] then None
    else
      var last := order[|order| - 1];
      if p.Id(last) == id then Some(last) else LastFor(p, order[..|order| - 1], id)
  }

  lemma {:induction false} LastForFinds(p: Plan, order: seq<nat>, id: Identity)
    requires p.Valid() && Deliverers(p, order)
    ensures LastFor(p, order, id).None? <==> forall k :: 0 <= k < |order| ==> p.Id(order[k]) != id
  {
    if order == [] {
    } else {
      LastForFinds(p, order[..|order| - 1], id);
    }
  }

  /** The map after draining: the last delivery for an identity, or what phase 1 left. */
  lemma {:induction false} SettleLookup(p: Plan, order: seq<nat>, id: Identity)
    requires p.Valid() && Deliverers(p, order)
    ensures
      match LastFor(p, order, id)
      case Some(i) => id in Settle(p, order) && Settle(p, order)[id] == p.fates[i].resource
      case None => (id in Settle(p, order) <==> id in Early(p))
                   && (id in Settle(p, order) ==> Settle(p, order)[id] == Early(p)[id])
  {
    if order == [] {
    } else {
      SettleLookup(p, order[..|order| - 1], id);
    }
  }

  /** Identities with an early error are never dispatched, and no delivery replaces one. */
  lemma EarlyErrorsSurvive(p: Plan, order: seq<nat>, i: nat)
    requires p.Valid() && Deliverers(p, order)
    requires i < |p.fates| && p.fates[i].Turned?
    ensures p.Id(i) in Settle(p, order)
    ensures Settle(p, order)[p.Id(i)] == ErrorResource(p.Id(i), Unroutable(p.fates[i].reason))
    ensures forall j :: 0 <= j < |p.fates| && p.Id(j) == p.Id(i) ==> !p.Dispatched(j)
  {
    EarlyExact(p, |p.fates|);
    SettleLookup(p, order, p.Id(i));
  }

  /** Which identities end with an error: those rejected, and those whose last delivery
      carries one. Nothing unconfigured is in the map. */
  lemma FinalMap(p: Plan, order: seq<nat>, id: Identity)
    requires p.Valid() && Deliverers(p, order)
    ensures id in Settle(p, order) ==> exists i :: 0 <= i < |p.fates| && p.Id(i) == id
    ensures id in Settle(p, order) && Settle(p, order)[id].err.Some?
       <==> (exists i :: 0 <= i < |p.fates| && p.Id(i) == id && p.fates[i].Turned?)
            || (LastFor(p, order, id).Some? && p.Fails(LastFor(p, order, id).value))
  {
    EarlyExact(p, |p.fates|);
    SettleLookup(p, order, id);
  }

  lemma NoFailureLeft(m: ResultMap)
    requires Failing(m) == map[]
    ensures forall id :: id in m ==> m[id].err.None?
  {
    forall id | id in m
      ensures m[id].err.None?
    {
      assert id !in Failing(m);
    }
  }

  // ------------------------------------------------------------ failure rules

  /**
   The exact failure rule, duplicates included: the mount reports failed access if and
   only if phase 1 rejected some name, or for some identity the last delivery of the
   order carries an error.
   */
  lemma FailureRule(p: Plan, order: seq<nat>)
    requires p.Valid() && Deliverers(p, order)
    ensures ResultOf(p, order).AccessFailed?
       <==> (exists i :: 0 <= i < |p.fates| && p.fates[i].Turned?)
            || (exists id :: LastFor(p, order, id).Some? && p.Fails(LastFor(p, order, id).value))
  {
    var m := Settle(p, order);
    if i :| 0 <= i < |p.fates| && p.fates[i].Turned? {
      FinalMap(p, order, p.Id(i));
      assert p.Id(i) in Failing(m);
    }
    if id :| LastFor(p, order, id).Some? && p.Fails(LastFor(p, order, id).value) {
      FinalMap(p, order, id);
      assert id in Failing(m);
    }
    if Failing(m) != map[] {
      var id :| id in Failing(m);
      FinalMap(p, order, id);
    }
  }

  lemma {:induction false} FirstMissingIsMissing(entries: seq<Entry>, m: ResultMap)
    requires !AllPresent(entries, m)
    ensures FirstMissing(entries, m) !in m
    ensures exists i :: 0 <= i < |entries| && IdOf(entries[i]) == FirstMissing(entries, m) && AllPresent(entries[..i], m)
    decreases |entries|
  {
    if IdOf(entries[0]) in m {
      assert !AllPresent(entries[1..], m) by {
        var i :| 0 <= i < |entries| && IdOf(entries[i]) !in m;
        assert entries[1..][i - 1] == entries[i];
      }
      FirstMissingIsMissing(entries[1..], m);
      var i :| 0 <= i < |entries[1..]| && IdOf(entries[1..][i]) == FirstMissing(entries[1..], m) && AllPresent(entries[1..][..i], m);
      assert entries[i + 1] == entries[1..][i];
      assert entries[..i + 1] == [entries[0]] + entries[1..][..i];
    } else {
      assert AllPresent(entries[..0], m);
    }
  }

  /** Some entry of the identity was rejected or has a fetcher that delivers. */
  ghost predicate Heard(p: Plan, id: Identity) {
    exists j :: 0 <= j < |p.fates| && j < |p.cfg.secrets| && p.Id(j) == id && !p.fates[j].Panicked?
  }

  lemma PresentIsHeard(p: Plan, order: seq<nat>, id: Identity)
    requires p.Valid() && Deliverers(p, order) && id in Settle(p, order)
    ensures Heard(p, id)
  {
    SettleLookup(p, order, id);
    EarlyExact(p, |p.fates|);
    if LastFor(p, order, id).None? {
      var i :| 0 <= i < |p.fates| && p.fates[i].Turned? && p.Id(i) == id;
    }
  }

  /**
   No missing result: over a complete order the "result missing" answer is given only
   when every fetcher of that identity panicked, and it names the first such entry.
   */
  lemma MissingOnlyAfterPanic(p: Plan, order: seq<nat>)
    requires p.Valid() && ValidOrder(p, order) && ResultOf(p, order).ResultMissing?
    ensures forall i :: 0 <= i < |p.fates| && p.Id(i) == ResultOf(p, order).id ==> p.fates[i].Panicked?
    ensures exists i :: 0 <= i < |p.fates| && p.Id(i) == ResultOf(p, order).id && forall k :: 0 <= k < i ==> Heard(p, p.Id(k))
    ensures !p.PanicFree()
  {
    var m := Settle(p, order);
    var id := FirstMissing(p.cfg.secrets, m);
    FirstMissingIsMissing(p.cfg.secrets, m);
    SettleLookup(p, order, id);
    LastForFinds(p, order, id);
    EarlyExact(p, |p.fates|);
    forall i | 0 <= i < |p.fates| && p.Id(i) == id
      ensures p.fates[i].Panicked?
    {
      assert !p.Delivers(i);
    }
    var i :| 0 <= i < |p.cfg.secrets| && IdOf(p.cfg.secrets[i]) == id && AllPresent(p.cfg.secrets[..i], m);
    assert p.Id(i) == id;
    forall k | 0 <= k < i
      ensures Heard(p, p.Id(k))
    {
      assert p.cfg.secrets[..i][k] == p.cfg.secrets[k];
      PresentIsHeard(p, order, p.Id(k));
    }
  }

  /** When no failure is left, the permission decides first: it is refused exactly from
      2^31 on. */
  lemma PermissionRule(p: Plan, order: seq<nat>)
    requires p.Valid() && Deliverers(p, order)
    ensures ResultOf(p, order).InvalidPermission?
       <==> !ResultOf(p, order).AccessFailed? && p.cfg.permissions as int >= 0x8000_0000
  {
  }

  /**
   No mixing: on success, entry `i` has its own path, mode and name, and its contents
   and version come together from one successful fetch of an entry with its identity.
   */
  lemma NoMixing(p: Plan, order: seq<nat>, i: nat) returns (j: nat)
    requires p.Valid() && ValidOrder(p, order) && ResultOf(p, order).Mounted?
    requires i < |p.fates|
    ensures p.Dispatched(i) && p.Succeeds(j) && p.Id(j) == p.Id(i)
    ensures p.cfg.secrets[j].resourceName == p.cfg.secrets[i].resourceName
            && p.cfg.secrets[j].fileName == p.cfg.secrets[i].fileName
            && p.cfg.secrets[j].path == p.cfg.secrets[i].path
    ensures
      var r := ResultOf(p, order);
      var e := p.cfg.secrets[i];
      && |r.files| == |r.versions| == |p.cfg.secrets|
      && r.files[i].path == (if e.path != "" then e.path else e.fileName)
      && r.files[i].mode as int == (if e.mode.Some? then e.mode.value as int else p.cfg.permissions as int)
      && r.files[i].contents == p.fates[j].resource.payload
      && r.versions[i] == ObjectVersion(e.resourceName, p.fates[j].resource.version)
  {
    var m := Settle(p, order);
    NoFailureLeft(m);
    EarlyExact(p, |p.fates|);
    SettleLookup(p, order, p.Id(i));
    assert IdOf(p.cfg.secrets[i]) in m;
    j := LastFor(p, order, p.Id(i)).value;
  }
}
