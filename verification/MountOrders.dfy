/**
 How the answer of a mount depends on the order of deliveries: not at all when the
 dispatched identities are distinct; otherwise exactly as characterised here.
 */
module MountOrders {
  import opened Wrappers
  import opened Sequences
  import opened Fetching
  import opened MountSpec

  // -------------------------------------------------- entries fetched one by one

  predicate Troubled(fate: Fate) {
    fate.Turned? || (fate.Delivery? && fate.resource.err.Some?)
  }

  function TroubleOf(fate: Fate): FetchError
    requires Troubled(fate)
  {
    match fate
    case Turned(reason) => Unroutable(reason)
    case Delivery(resource) => resource.err.value
  }

  /** The errors met when the first `k` entries are fetched one at a time, in list order. */
  function FailuresOneByOne(p: Plan, k: nat): map<Identity, FetchError>
    requires k <= |p.fates| == |p.cfg.secrets|
  {
    if k == 0 then map[]
    else
      var earlier := FailuresOneByOne(p, k - 1);
      if Troubled(p.fates[k - 1]) then earlier[p.Id(k - 1) := TroubleOf(p.fates[k - 1])] else earlier
  }

  /** The files gathered one at a time when every fetch succeeds. */
  function FilesOneByOne(p: Plan, k: nat): seq<File>
    requires p.cfg.permissions <= MAX_INT32
    requires k <= |p.fates| == |p.cfg.secrets| && forall i :: 0 <= i < k ==> p.Succeeds(i)
  {
    if k == 0 then []
    else
      assert p.Succeeds(k - 1);
      FilesOneByOne(p, k - 1) + [FileFor(p.cfg, p.cfg.secrets[k - 1], p.fates[k - 1].resource)]
  }

  function VersionsOneByOne(p: Plan, k: nat): seq<ObjectVersion>
    requires k <= |p.fates| == |p.cfg.secrets| && forall i :: 0 <= i < k ==> p.Succeeds(i)
  {
    if k == 0 then []
    else
      assert p.Succeeds(k - 1);
      VersionsOneByOne(p, k - 1) + [ObjectVersion(p.cfg.secrets[k - 1].resourceName, p.fates[k - 1].resource.version)]
  }

  lemma {:induction false} NoFailureMeansSuccess(p: Plan, k: nat)
    requires p.Valid() && p.PanicFree() && k <= |p.fates| && FailuresOneByOne(p, k) == map[]
    ensures forall i :: 0 <= i < k ==> p.Succeeds(i)
  {
    if k == 0 {
    } else {
      assert p.Id(k - 1) !in FailuresOneByOne(p, k);
      assert !Troubled(p.fates[k - 1]);
      NoFailureMeansSuccess(p, k - 1);
    }
  }

  /** The simple sequential mount: no goroutines, no channel; failures gathered by identity. */
  ghost function OneByOne(p: Plan): MountResult
    requires p.Valid() && p.PanicFree()
  {
    var n := |p.fates|;
    if FailuresOneByOne(p, n) != map[] then AccessFailed(FailuresOneByOne(p, n))
    else if p.cfg.permissions > MAX_INT32 then InvalidPermission
    else
      NoFailureMeansSuccess(p, n);
      Mounted(FilesOneByOne(p, n), VersionsOneByOne(p, n))
  }

  lemma {:induction false} FailuresOneByOneExact(p: Plan, k: nat)
    requires p.Valid() && p.DistinctIdentities() && k <= |p.fates|
    ensures forall i :: 0 <= i < k && Troubled(p.fates[i]) ==>
              p.Id(i) in FailuresOneByOne(p, k) && FailuresOneByOne(p, k)[p.Id(i)] == TroubleOf(p.fates[i])
    ensures forall id :: id in FailuresOneByOne(p, k) ==>
              exists i :: 0 <= i < k && Troubled(p.fates[i]) && p.Id(i) == id
  {
    if k == 0 {
    } else {
      FailuresOneByOneExact(p, k - 1);
      var now := FailuresOneByOne(p, k);
      forall i | 0 <= i < k && Troubled(p.fates[i])
        ensures p.Id(i) in now && now[p.Id(i)] == TroubleOf(p.fates[i])
      {
        if i < k - 1 && p.Id(i) == p.Id(k - 1) {
          assert !(p.Dispatched(i) && p.Dispatched(k - 1));
          assert p.fates[i] == p.fates[k - 1];
        }
      }
      forall id | id in now
        ensures exists i :: 0 <= i < k && Troubled(p.fates[i]) && p.Id(i) == id
      {
        if id !in FailuresOneByOne(p, k - 1) {
          assert Troubled(p.fates[k - 1]) && p.Id(k - 1) == id;
        }
      }
    }
  }

  /** With distinct identities, the last delivery for an entry is its own. */
  lemma DistinctLast(p: Plan, order: seq<nat>, i: nat)
    requires p.Valid() && p.DistinctIdentities() && ValidOrder(p, order) && p.Delivers(i)
    ensures LastFor(p, order, p.Id(i)) == Some(i)
    ensures p.Id(i) in Settle(p, order) && Settle(p, order)[p.Id(i)] == p.fates[i].resource
  {
    LastForFinds(p, order, p.Id(i));
    var k :| 0 <= k < |order| && order[k] == i;
    var j := LastFor(p, order, p.Id(i)).value;
    assert p.Dispatched(i) && p.Dispatched(j);
    SettleLookup(p, order, p.Id(i));
  }

  lemma DistinctFailures(p: Plan, order: seq<nat>)
    requires p.Valid() && p.DistinctIdentities() && ValidOrder(p, order)
    ensures Failing(Settle(p, order)) == FailuresOneByOne(p, |p.fates|)
  {
    var n := |p.fates|;
    var m, f := Settle(p, order), FailuresOneByOne(p, n);
    FailuresOneByOneExact(p, n);
    forall i | 0 <= i < n && Troubled(p.fates[i])
      ensures p.Id(i) in Failing(m) && Failing(m)[p.Id(i)] == TroubleOf(p.fates[i])
    {
      if p.fates[i].Turned? {
        EarlyErrorsSurvive(p, order, i);
      } else {
        DistinctLast(p, order, i);
      }
    }
    forall id | id in Failing(m)
      ensures id in f
    {
      FinalMap(p, order, id);
      if LastFor(p, order, id).Some? && p.Fails(LastFor(p, order, id).value) {
        assert Troubled(p.fates[LastFor(p, order, id).value]);
      }
    }
    assert Failing(m).Keys == f.Keys;
  }

  lemma {:induction false} GatheredOneByOne(p: Plan, k: nat)
    requires p.cfg.permissions <= MAX_INT32
    requires k <= |p.fates| == |p.cfg.secrets| && forall j :: 0 <= j < k ==> p.Succeeds(j)
    ensures |FilesOneByOne(p, k)| == |VersionsOneByOne(p, k)| == k
    ensures forall i :: 0 <= i < k ==>
              p.Succeeds(i) && FilesOneByOne(p, k)[i] == FileFor(p.cfg, p.cfg.secrets[i], p.fates[i].resource)
    ensures forall i :: 0 <= i < k ==>
              p.Succeeds(i) && VersionsOneByOne(p, k)[i] == ObjectVersion(p.cfg.secrets[i].resourceName, p.fates[i].resource.version)
  {
    if k == 0 {
    } else {
      GatheredOneByOne(p, k - 1);
    }
  }

  /**
   With distinct identities and a fixed fate per entry, every order of deliveries gives
   what fetching the entries one by one in list order gives.
   */
  lemma DistinctIdentitiesOrderFree(p: Plan, order: seq<nat>)
    requires p.Valid() && p.PanicFree() && p.DistinctIdentities() && ValidOrder(p, order)
    ensures ResultOf(p, order) == OneByOne(p)
  {
    var n := |p.fates|;
    var m := Settle(p, order);
    DistinctFailures(p, order);
    if Failing(m) == map[] && p.cfg.permissions <= MAX_INT32 {
      NoFailureMeansSuccess(p, n);
      forall i | 0 <= i < n
        ensures p.Succeeds(i) && p.Id(i) in m && m[p.Id(i)] == p.fates[i].resource
      {
        assert p.Succeeds(i);
        DistinctLast(p, order, i);
      }
      GatheredOneByOne(p, n);
      assert AllPresent(p.cfg.secrets, m) by {
        assert forall i :: 0 <= i < n ==> p.Id(i) == IdOf(p.cfg.secrets[i]);
      }
      assert ResultOf(p, order).files == FilesOneByOne(p, n);
      assert ResultOf(p, order).versions == VersionsOneByOne(p, n);
    }
  }

  // ------------------------------------------------------- counting the failures

  function TroubledCount(fates: seq<Fate>): nat {
    if fates == [] then 0
    else TroubledCount(fates[..|fates| - 1]) + if Troubled(fates[|fates| - 1]) then 1 else 0
  }

  /** The entries below `k` that are rejected or whose fetch fails. */
  ghost function TroubledBelow(p: Plan, k: nat): set<nat>
    requires k <= |p.fates|
  {
    set i: nat | i < k && Troubled(p.fates[i])
  }

  lemma {:induction false} TroubledCountExact(p: Plan, k: nat)
    requires k <= |p.fates|
    ensures |TroubledBelow(p, k)| == TroubledCount(p.fates[..k])
  {
    if k == 0 {
      assert TroubledBelow(p, k) == {};
    } else {
      TroubledCountExact(p, k - 1);
      assert p.fates[..k][..k - 1] == p.fates[..k - 1];
      assert TroubledBelow(p, k) == TroubledBelow(p, k - 1) + if Troubled(p.fates[k - 1]) then {k - 1} else {};
    }
  }

  ghost function IdsOf(p: Plan, entries: set<nat>): set<Identity>
    requires forall i :: i in entries ==> i < |p.cfg.secrets|
  {
    set i | i in entries :: p.Id(i)
  }

  /** There are no more identities than entries, and as many exactly when no two entries
      share one. */
  lemma {:induction false} IdsCardinality(p: Plan, entries: set<nat>)
    requires forall i :: i in entries ==> i < |p.cfg.secrets|
    ensures |IdsOf(p, entries)| <= |entries|
    ensures |IdsOf(p, entries)| == |entries|
       <==> forall i, j :: i in entries && j in entries && p.Id(i) == p.Id(j) ==> i == j
  {
    if entries == {} {
      assert IdsOf(p, entries) == {};
    } else {
      var x :| x in entries;
      var rest := entries - {x};
      IdsCardinality(p, rest);
      assert IdsOf(p, entries) == IdsOf(p, rest) + {p.Id(x)};
      if p.Id(x) in IdsOf(p, rest) {
        var y :| y in rest && p.Id(y) == p.Id(x);
        assert x in entries && y in entries && x != y;
      }
    }
  }

  /** Only rejected and failing entries can leave a failure in the map. */
  lemma FailingIsTroubled(p: Plan, order: seq<nat>)
    requires p.Valid() && Deliverers(p, order)
    ensures Failing(Settle(p, order)).Keys <= IdsOf(p, TroubledBelow(p, |p.fates|))
  {
    forall id | id in Failing(Settle(p, order))
      ensures id in IdsOf(p, TroubledBelow(p, |p.fates|))
    {
      FinalMap(p, order, id);
      var i: nat :| i < |p.fates| && p.Id(i) == id && Troubled(p.fates[i]);
      assert i in TroubledBelow(p, |p.fates|);
    }
  }

  // ------------------------------------------------- what some order can achieve

  /** The delivering entries below `k` that succeed, or those that fail. */
  function Pick(p: Plan, k: nat, good: bool): seq<nat>
    requires k <= |p.fates|
  {
    if k == 0 then []
    else Pick(p, k - 1, good) + if p.Delivers(k - 1) && p.Succeeds(k - 1) == good then [k - 1] else []
  }

  lemma {:induction false} PickExact(p: Plan, k: nat, good: bool)
    requires k <= |p.fates|
    ensures NoDup(Pick(p, k, good))
    ensures forall i :: i in Pick(p, k, good) <==> 0 <= i < k && p.Delivers(i) && p.Succeeds(i) == good
  {
    if k == 0 {
    } else {
      PickExact(p, k - 1, good);
    }
  }

  /** All failures delivered before all successes, or the other way round. */
  function Extreme(p: Plan, goodLast: bool): seq<nat> {
    Pick(p, |p.fates|, !goodLast) + Pick(p, |p.fates|, goodLast)
  }

  lemma {:induction false} LastForAppend(p: Plan, a: seq<nat>, b: seq<nat>, id: Identity)
    requires p.Valid() && Deliverers(p, a) && Deliverers(p, b)
    ensures Deliverers(p, a + b)
    ensures LastFor(p, a + b, id) == if LastFor(p, b, id).Some? then LastFor(p, b, id) else LastFor(p, a, id)
  {
    if b == [] {
      assert a + b == a;
    } else {
      LastForAppend(p, a, b[..|b| - 1], id);
      assert (a + b)[..|a + b| - 1] == a + b[..|b| - 1];
    }
  }

  lemma ExtremeValid(p: Plan, goodLast: bool)
    ensures ValidOrder(p, Extreme(p, goodLast))
    ensures Deliverers(p, Pick(p, |p.fates|, goodLast)) && Deliverers(p, Pick(p, |p.fates|, !goodLast))
  {
    var n := |p.fates|;
    var a, b := Pick(p, n, !goodLast), Pick(p, n, goodLast);
    PickExact(p, n, goodLast);
    PickExact(p, n, !goodLast);
    forall k | 0 <= k < |a|
      ensures p.Delivers(a[k]) && a[k] !in b
    {
      assert a[k] in a;
    }
    forall k | 0 <= k < |b|
      ensures p.Delivers(b[k])
    {
      assert b[k] in b;
    }
  }

  /** In an extreme order, an identity with a fetch of the favoured kind ends with one. */
  lemma ExtremeLast(p: Plan, goodLast: bool, j: nat)
    requires p.Valid() && p.Delivers(j) && p.Succeeds(j) == goodLast
    ensures ValidOrder(p, Extreme(p, goodLast))
    ensures LastFor(p, Extreme(p, goodLast), p.Id(j)).Some?
    ensures p.Succeeds(LastFor(p, Extreme(p, goodLast), p.Id(j)).value) == goodLast
  {
    var n := |p.fates|;
    var a, b := Pick(p, n, !goodLast), Pick(p, n, goodLast);
    ExtremeValid(p, goodLast);
    PickExact(p, n, goodLast);
    LastForAppend(p, a, b, p.Id(j));
    LastForFinds(p, b, p.Id(j));
    assert j in b;
  }

  ghost predicate HasSuccess(p: Plan, id: Identity)
    requires p.Valid()
  {
    exists j: nat :: p.Succeeds(j) && p.Id(j) == id
  }

  ghost predicate CanMount(p: Plan)
    requires p.Valid()
  {
    && p.cfg.permissions <= MAX_INT32
    && forall i :: 0 <= i < |p.fates| ==> p.Dispatched(i) && HasSuccess(p, p.Id(i))
  }

  /** Delivering the failures first mounts everything, if anything can. */
  lemma GoodLastMounts(p: Plan)
    requires p.Valid() && CanMount(p)
    ensures ValidOrder(p, Extreme(p, true)) && ResultOf(p, Extreme(p, true)).Mounted?
  {
    hide Settle, Extreme, FirstMissing;
    var order := Extreme(p, true);
    ExtremeValid(p, true);
    FailureRule(p, order);
    forall i | 0 <= i < |p.fates|
      ensures IdOf(p.cfg.secrets[i]) in Settle(p, order)
      ensures LastFor(p, order, p.Id(i)).Some? && p.Succeeds(LastFor(p, order, p.Id(i)).value)
    {
      assert p.Dispatched(i) && HasSuccess(p, p.Id(i));
      var j: nat :| p.Succeeds(j) && p.Id(j) == p.Id(i);
      ExtremeLast(p, true, j);
      SettleLookup(p, order, p.Id(i));
    }
    forall id | LastFor(p, order, id).Some?
      ensures !p.Fails(LastFor(p, order, id).value)
    {
      var i := LastFor(p, order, id).value;
      assert LastFor(p, order, p.Id(i)).Some?;
    }
  }

  /** When every fetch succeeds, every order mounts with a permission below 2^31, and
      answers that the permission is invalid with a larger one. */
  lemma AllGoodAnswer(p: Plan, order: seq<nat>)
    requires p.Valid() && forall i :: 0 <= i < |p.fates| ==> p.Succeeds(i)
    ensures p.PanicFree()
    ensures ValidOrder(p, order) ==>
              if p.cfg.permissions as int < 0x8000_0000 then ResultOf(p, order).Mounted?
              else ResultOf(p, order) == InvalidPermission
  {
    forall i | 0 <= i < |p.fates|
      ensures !p.fates[i].Turned? && !p.fates[i].Panicked?
    {
      assert p.Succeeds(i);
    }
    if ValidOrder(p, order) {
      FailureRule(p, order);
      PermissionRule(p, order);
      forall id | LastFor(p, order, id).Some?
        ensures !p.Fails(LastFor(p, order, id).value)
      {
        assert p.Succeeds(LastFor(p, order, id).value);
      }
      if ResultOf(p, order).ResultMissing? {
        MissingOnlyAfterPanic(p, order);
      }
    }
  }

  /** Some order of deliveries mounts everything if and only if the permission is in
      range, no name is rejected, and every identity has a successful fetch. */
  lemma MaySucceed(p: Plan)
    requires p.Valid()
    ensures (exists order :: ValidOrder(p, order) && ResultOf(p, order).Mounted?) <==> CanMount(p)
  {
    if order :| ValidOrder(p, order) && ResultOf(p, order).Mounted? {
      forall i | 0 <= i < |p.fates|
        ensures p.Dispatched(i) && HasSuccess(p, p.Id(i))
      {
        var j := NoMixing(p, order, i);
      }
    }
    if CanMount(p) {
      GoodLastMounts(p);
    }
  }

  /** Some order of deliveries reports failed access if and only if some name is
      rejected or some fetch fails. */
  lemma MayFail(p: Plan)
    requires p.Valid()
    ensures (exists order :: ValidOrder(p, order) && ResultOf(p, order).AccessFailed?)
       <==> exists i :: 0 <= i < |p.fates| && Troubled(p.fates[i])
  {
    if order :| ValidOrder(p, order) && ResultOf(p, order).AccessFailed? {
      FailureRule(p, order);
      if i :| 0 <= i < |p.fates| && p.fates[i].Turned? {
        assert Troubled(p.fates[i]);
      } else {
        var id :| LastFor(p, order, id).Some? && p.Fails(LastFor(p, order, id).value);
        assert Troubled(p.fates[LastFor(p, order, id).value]);
      }
    }
    if i :| 0 <= i < |p.fates| && Troubled(p.fates[i]) {
      var order := Extreme(p, false);
      ExtremeValid(p, false);
      FailureRule(p, order);
      if p.fates[i].Delivery? {
        ExtremeLast(p, false, i);
        assert p.Fails(LastFor(p, order, p.Id(i)).value);
      }
      assert ResultOf(p, order).AccessFailed?;
    }
  }

  /** A failure no order can hide: a rejected name, or an identity without a success. */
  ghost predicate Fatal(p: Plan, i: nat)
    requires p.Valid() && i < |p.fates|
  {
    p.fates[i].Turned? || (p.Fails(i) && !HasSuccess(p, p.Id(i)))
  }

  /** Every order of deliveries reports failed access if and only if some name is
      rejected, or some identity has a failing fetch and no successful one. */
  lemma MustFail(p: Plan)
    requires p.Valid()
    ensures (forall order :: ValidOrder(p, order) ==> ResultOf(p, order).AccessFailed?)
       <==> exists i :: 0 <= i < |p.fates| && Fatal(p, i)
  {
    if i :| 0 <= i < |p.fates| && Fatal(p, i) {
      forall order | ValidOrder(p, order)
        ensures ResultOf(p, order).AccessFailed?
      {
        FailureRule(p, order);
        if p.Fails(i) {
          LastForFinds(p, order, p.Id(i));
          assert i in order;
          assert p.Fails(LastFor(p, order, p.Id(i)).value);
        }
      }
    } else {
      var order := Extreme(p, true);
      ExtremeValid(p, true);
      FailureRule(p, order);
      forall id | LastFor(p, order, id).Some?
        ensures !p.Fails(LastFor(p, order, id).value)
      {
        var i := LastFor(p, order, id).value;
        assert !Fatal(p, i);
        if HasSuccess(p, id) {
          var j: nat :| p.Succeeds(j) && p.Id(j) == id;
          ExtremeLast(p, true, j);
        }
      }
      forall i | 0 <= i < |p.fates|
        ensures !p.fates[i].Turned?
      {
        assert !Fatal(p, i);
      }
      assert !ResultOf(p, order).AccessFailed?;
    }
  }

  /** A failed fetch goes unreported only when another entry has the same identity. */
  lemma MaskedMeansDuplicate(p: Plan, order: seq<nat>, f: nat)
    requires p.Valid() && ValidOrder(p, order) && p.Fails(f) && !ResultOf(p, order).AccessFailed?
    ensures !p.DistinctIdentities() && HasSuccess(p, p.Id(f))
  {
    FailureRule(p, order);
    LastForFinds(p, order, p.Id(f));
    assert f in order;
    var last := LastFor(p, order, p.Id(f)).value;
    assert p.Succeeds(last);
    assert p.Dispatched(f) && p.Dispatched(last);
  }

  ghost predicate AllPanic(p: Plan, id: Identity)
    requires p.Valid()
  {
    forall j :: 0 <= j < |p.fates| && p.Id(j) == id ==> p.fates[j].Panicked?
  }

  lemma GoodLastHidesFailures(p: Plan) returns (order: seq<nat>)
    requires p.Valid() && forall i :: 0 <= i < |p.fates| ==> !Fatal(p, i)
    ensures ValidOrder(p, order) && !ResultOf(p, order).AccessFailed?
  {
    MustFail(p);
    order :| ValidOrder(p, order) && !ResultOf(p, order).AccessFailed?;
  }

  /** Some order answers "result missing" if and only if nothing fatal and no permission
      error comes first, and every fetcher of some configured identity panicked. */
  lemma MayMiss(p: Plan)
    requires p.Valid()
    ensures (exists order :: ValidOrder(p, order) && ResultOf(p, order).ResultMissing?)
       <==> p.cfg.permissions <= MAX_INT32
            && (forall i :: 0 <= i < |p.fates| ==> !Fatal(p, i))
            && exists i :: 0 <= i < |p.fates| && AllPanic(p, p.Id(i))
  {
    hide Settle, LastFor, FirstMissing, EarlyFirst;
    if order :| ValidOrder(p, order) && ResultOf(p, order).ResultMissing? {
      MissingOnlyAfterPanic(p, order);
      MustFail(p);
      var i :| 0 <= i < |p.fates| && p.Id(i) == ResultOf(p, order).id;
      assert AllPanic(p, p.Id(i));
    }
    if p.cfg.permissions <= MAX_INT32 && (forall i :: 0 <= i < |p.fates| ==> !Fatal(p, i)) {
      if i :| 0 <= i < |p.fates| && AllPanic(p, p.Id(i)) {
        var order := GoodLastHidesFailures(p);
        EarlyExact(p, |p.fates|);
        SettleLookup(p, order, p.Id(i));
        assert IdOf(p.cfg.secrets[i]) !in Settle(p, order);
        assert ResultOf(p, order).ResultMissing?;
      }
    }
  }
}
