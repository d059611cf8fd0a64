/**
 The aggregated error of a mount: every failing identity, once, in the order in which
 the result map happens to be walked.
 */
module ErrorReport {
  import opened Wrappers
  import opened Sequences
  import opened Fetching
  import opened MountSpec
  import opened MountOrders

  datatype Message = Message(id: Identity, error: FetchError)

  /** The aggregated error: a message and a detail for every failing identity. */
  datatype Status = Status(msgs: seq<Message>, details: seq<FetchError>)

  ghost predicate Truthful(msgs: seq<Message>, failing: map<Identity, FetchError>) {
    forall k :: 0 <= k < |msgs| ==> msgs[k].id in failing && failing[msgs[k].id] == msgs[k].error
  }

  ghost predicate Once(msgs: seq<Message>) {
    forall j, k :: 0 <= j < k < |msgs| ==> msgs[j].id != msgs[k].id
  }

  ghost predicate Mentions(msgs: seq<Message>, id: Identity) {
    exists k :: 0 <= k < |msgs| && msgs[k].id == id
  }

  /** Messages and details correspond pairwise, and list each failure exactly once, in
      whatever order the map was walked. */
  ghost predicate Reports(st: Status, failing: map<Identity, FetchError>) {
    && |st.msgs| == |st.details| == |failing|
    && (forall k :: 0 <= k < |st.msgs| ==> st.msgs[k].error == st.details[k])
    && Truthful(st.msgs, failing)
    && Once(st.msgs)
    && forall id :: id in failing ==> Mentions(st.msgs, id)
  }

  lemma {:induction false} CountDistinct(s: seq<Message>, m: Message)
    requires forall j, k :: 0 <= j < k < |s| ==> s[j] != s[k]
    ensures multiset(s)[m] == if m in s then 1 else 0
  {
    if s == [] {
    } else {
      var init, last := s[..|s| - 1], s[|s| - 1];
      CountDistinct(init, m);
      assert s == init + [last];
      assert last !in init;
    }
  }

  lemma CountInReport(st: Status, failing: map<Identity, FetchError>, m: Message)
    requires Reports(st, failing)
    ensures multiset(st.msgs)[m] == if m.id in failing && failing[m.id] == m.error then 1 else 0
  {
    CountDistinct(st.msgs, m);
    if m.id in failing && failing[m.id] == m.error {
      assert Mentions(st.msgs, m.id);
      var k :| 0 <= k < |st.msgs| && st.msgs[k].id == m.id;
      assert st.msgs[k] == m;
    }
  }

  /** Two walks of the same map report the same failures up to a permutation. */
  lemma ReportsUpToOrder(a: Status, b: Status, failing: map<Identity, FetchError>)
    requires Reports(a, failing) && Reports(b, failing)
    ensures multiset(a.msgs) == multiset(b.msgs)
  {
    forall m: Message
      ensures multiset(a.msgs)[m] == multiset(b.msgs)[m]
    {
      CountInReport(a, failing, m);
      CountInReport(b, failing, m);
    }
  }

  /** The failures among some of the keys. */
  ghost function FailingAmong(m: ResultMap, keys: set<Identity>): map<Identity, FetchError> {
    map id | id in m && id in keys && m[id].err.Some? :: m[id].err.value
  }

  lemma FailingStep(m: ResultMap, keys: set<Identity>, id: Identity)
    requires id in m && id !in keys
    ensures FailingAmong(m, keys + {id})
         == if m[id].err.Some? then FailingAmong(m, keys)[id := m[id].err.value] else FailingAmong(m, keys)
    ensures id !in FailingAmong(m, keys)
  {
  }

  /** The report after one more key of the map. */
  function Walk(st: Status, name: Identity, r: Resource): Status {
    match r.err
    case None => st
    case Some(error) => Status(st.msgs + [Message(name, error)], st.details + [error])
  }

  lemma WalkStart(m: ResultMap)
    ensures Reports(Status([], []), FailingAmong(m, {}))
  {
  }

  lemma MapGrows(m: map<Identity, FetchError>, name: Identity, error: FetchError)
    requires name !in m
    ensures |m[name := error]| == |m| + 1
  {
  }

  lemma AddMention(msgs: seq<Message>, m: Message, id: Identity)
    requires id == m.id || Mentions(msgs, id)
    ensures Mentions(msgs + [m], id)
  {
    if id == m.id {
      assert (msgs + [m])[|msgs|].id == id;
    } else {
      var k :| 0 <= k < |msgs| && msgs[k].id == id;
      assert (msgs + [m])[k].id == id;
    }
  }

  lemma AddReport(st: Status, seen: map<Identity, FetchError>, name: Identity, error: FetchError)
    requires Reports(st, seen) && name !in seen
    ensures Reports(Status(st.msgs + [Message(name, error)], st.details + [error]), seen[name := error])
  {
    hide Mentions;
    var msgs := st.msgs + [Message(name, error)];
    MapGrows(seen, name, error);
    forall id: Identity | id == name || id in seen
      ensures Mentions(msgs, id)
    {
      AddMention(st.msgs, Message(name, error), id);
    }
    assert Truthful(msgs, seen[name := error]);
    assert Once(msgs);
  }

  lemma WalkStep(m: ResultMap, walked: set<Identity>, name: Identity, st: Status)
    requires name in m && name !in walked && Reports(st, FailingAmong(m, walked))
    ensures Reports(Walk(st, name, m[name]), FailingAmong(m, walked + {name}))
  {
    FailingStep(m, walked, name);
    if m[name].err.Some? {
      AddReport(st, FailingAmong(m, walked), name, m[name].err.value);
    }
  }

  lemma WalkEnd(m: ResultMap, st: Status)
    requires Reports(st, FailingAmong(m, m.Keys))
    ensures Reports(st, Failing(m)) && (st.msgs == [] <==> Failing(m) == map[])
  {
    assert FailingAmong(m, m.Keys) == Failing(m);
  }

  /** Walk the result map in any order and collect the errors. */
  method BuildErr(resultMap: ResultMap) returns (err: Option<Status>)
    ensures err.None? <==> Failing(resultMap) == map[]
    ensures err.Some? ==> Reports(err.value, Failing(resultMap))
  {
    var st := Status([], []);
    var hasErr := false;
    var remaining := resultMap.Keys;
    WalkStart(resultMap);
    assert resultMap.Keys - remaining == {};
    while remaining != {}
      invariant remaining <= resultMap.Keys
      invariant Reports(st, FailingAmong(resultMap, resultMap.Keys - remaining))
      invariant hasErr <==> st.msgs != []
      decreases |remaining|
    {
      var name :| name in remaining;
      WalkStep(resultMap, resultMap.Keys - remaining, name, st);
      assert resultMap.Keys - (remaining - {name}) == resultMap.Keys - remaining + {name};
      if resultMap[name].err.Some? {
        hasErr := true;
        st := Walk(st, name, resultMap[name]);
      }
      remaining := remaining - {name};
    }
    assert resultMap.Keys - remaining == resultMap.Keys;
    WalkEnd(resultMap, st);
    err := if hasErr then Some(st) else None;
  }

  // --------------------------------------------- what the report says of each entry

  /** Any failures can be reported. */
  lemma {:induction false} ReportExists(failing: map<Identity, FetchError>) returns (st: Status)
    ensures Reports(st, failing)
    decreases |failing|
  {
    if failing == map[] {
      st := Status([], []);
    } else {
      var id :| id in failing;
      var rest := map k | k in failing && k != id :: failing[k];
      assert rest[id := failing[id]] == failing;
      MapGrows(rest, id, failing[id]);
      var earlier := ReportExists(rest);
      AddReport(earlier, rest, id, failing[id]);
      st := Status(earlier.msgs + [Message(id, failing[id])], earlier.details + [failing[id]]);
    }
  }

  /** No rejected or failing entry shares its identity with another entry, unless the
      fetcher of that one panics. */
  ghost predicate LoneFailures(p: Plan)
    requires p.Valid()
  {
    forall i, j ::
      0 <= i < |p.fates| && 0 <= j < |p.fates| && i != j && Troubled(p.fates[i]) && p.Id(i) == p.Id(j) ==>
        p.fates[j].Panicked?
  }

  /** A complete order that delivers every failure before every success. */
  ghost function ExtremeOrder(p: Plan): (order: seq<nat>)
    requires p.Valid()
    ensures ValidOrder(p, order) && order == Extreme(p, true)
  {
    ExtremeValid(p, true);
    Extreme(p, true)
  }

  /** Delivered after all failures, a success leaves none for its identity. */
  lemma SuccessHides(p: Plan, j: nat)
    requires p.Valid() && p.Succeeds(j)
    ensures p.Id(j) !in Failing(Settle(p, ExtremeOrder(p)))
  {
    ExtremeLast(p, true, j);
    SettleLookup(p, ExtremeOrder(p), p.Id(j));
  }

  lemma LoneIsReported(p: Plan, order: seq<nat>, i: nat)
    requires p.Valid() && ValidOrder(p, order) && LoneFailures(p) && i < |p.fates| && Troubled(p.fates[i])
    ensures p.Id(i) in Failing(Settle(p, order))
  {
    if p.fates[i].Turned? {
      EarlyErrorsSurvive(p, order, i);
    } else {
      LastForFinds(p, order, p.Id(i));
      assert i in order;
      SettleLookup(p, order, p.Id(i));
    }
  }

  lemma LoneMeansRightCount(p: Plan, order: seq<nat>)
    requires p.Valid() && ValidOrder(p, order) && LoneFailures(p)
    ensures |Failing(Settle(p, order))| == TroubledCount(p.fates)
  {
    hide Failing, Settle, TroubledCount;
    var troubled := TroubledBelow(p, |p.fates|);
    TroubledCountExact(p, |p.fates|);
    assert p.fates[..|p.fates|] == p.fates;
    IdsCardinality(p, troubled);
    FailingIsTroubled(p, order);
    forall i | i in troubled
      ensures p.Id(i) in Failing(Settle(p, order))
    {
      LoneIsReported(p, order, i);
    }
    assert Failing(Settle(p, order)).Keys == IdsOf(p, troubled);
  }

  /** The number of details is right in every order only if every rejected or failing
      entry has an identity of its own, which then stays in the map. */
  lemma RightCountMeansLone(p: Plan)
    requires p.Valid()
    requires |Failing(Settle(p, ExtremeOrder(p)))| == TroubledCount(p.fates)
    ensures LoneFailures(p)
  {
    hide Settle, Failing, ExtremeOrder, TroubledCount;
    var order := ExtremeOrder(p);
    var troubled := TroubledBelow(p, |p.fates|);
    var failing := Failing(Settle(p, order));
    FailingIsTroubled(p, order);
    TroubledCountExact(p, |p.fates|);
    assert p.fates[..|p.fates|] == p.fates;
    IdsCardinality(p, troubled);
    CardinalityMonotone(failing.Keys, IdsOf(p, troubled));
    forall i, j | 0 <= i < |p.fates| && 0 <= j < |p.fates| && i != j && Troubled(p.fates[i]) && p.Id(i) == p.Id(j)
      ensures p.fates[j].Panicked?
    {
      assert i in troubled && (j in troubled <==> Troubled(p.fates[j]));
      if p.fates[j].Delivery? {
        SuccessHides(p, j);
        CardinalityMonotone(failing.Keys, IdsOf(p, troubled) - {p.Id(j)});
        assert false;
      }
    }
  }

  /**
   One detail per failing entry: the aggregated error has exactly as many details as
   entries are rejected or fail, in every order of deliveries, if and only if none of
   those shares its identity with another entry; in particular when all are distinct.
   */
  lemma OneDetailPerFailingEntry(p: Plan)
    requires p.Valid()
    ensures (forall order, st :: ValidOrder(p, order) && Reports(st, Failing(Settle(p, order))) ==>
               |st.details| == TroubledCount(p.fates))
       <==> LoneFailures(p)
    ensures (forall i, j :: 0 <= i < j < |p.fates| ==> p.Id(i) != p.Id(j)) ==> LoneFailures(p)
  {
    hide Failing, Settle, TroubledCount;
    if LoneFailures(p) {
      forall order | ValidOrder(p, order)
        ensures |Failing(Settle(p, order))| == TroubledCount(p.fates)
      {
        LoneMeansRightCount(p, order);
      }
    }
    if forall order, st :: ValidOrder(p, order) && Reports(st, Failing(Settle(p, order))) ==>
         |st.details| == TroubledCount(p.fates)
    {
      var st := ReportExists(Failing(Settle(p, ExtremeOrder(p))));
      RightCountMeansLone(p);
    }
  }

  /** The report has this error for this identity. */
  ghost predicate ListsError(st: Status, id: Identity, error: FetchError) {
    exists k :: 0 <= k < |st.msgs| && k < |st.details| && st.msgs[k] == Message(id, error) && st.details[k] == error
  }

  ghost predicate ListsAll(p: Plan, st: Status)
    requires p.Valid()
  {
    forall i :: 0 <= i < |p.fates| && Troubled(p.fates[i]) ==> ListsError(st, p.Id(i), TroubleOf(p.fates[i]))
  }

  /** Whenever an entry is rejected or its fetch fails, every entry of its identity whose
      fetcher does not panic has the same error. */
  ghost predicate AgreeingFailures(p: Plan)
    requires p.Valid()
  {
    forall i, j ::
      0 <= i < |p.fates| && 0 <= j < |p.fates| && Troubled(p.fates[i]) && p.Id(i) == p.Id(j) && !p.fates[j].Panicked? ==>
        Troubled(p.fates[j]) && TroubleOf(p.fates[j]) == TroubleOf(p.fates[i])
  }

  lemma AgreeingIsListed(p: Plan, order: seq<nat>, st: Status, i: nat)
    requires p.Valid() && ValidOrder(p, order) && Reports(st, Failing(Settle(p, order)))
    requires AgreeingFailures(p) && i < |p.fates| && Troubled(p.fates[i])
    ensures ListsError(st, p.Id(i), TroubleOf(p.fates[i]))
  {
    var id := p.Id(i);
    if p.fates[i].Turned? {
      EarlyErrorsSurvive(p, order, i);
    } else {
      LastForFinds(p, order, id);
      assert i in order;
      SettleLookup(p, order, id);
      assert Troubled(p.fates[LastFor(p, order, id).value]);
    }
    assert id in Failing(Settle(p, order)) && Failing(Settle(p, order))[id] == TroubleOf(p.fates[i]);
    assert Mentions(st.msgs, id);
  }

  lemma ListedMeansAgreeing(p: Plan, st: Status)
    requires p.Valid() && Reports(st, Failing(Settle(p, ExtremeOrder(p)))) && ListsAll(p, st)
    ensures AgreeingFailures(p)
  {
    forall i, j | 0 <= i < |p.fates| && 0 <= j < |p.fates| && Troubled(p.fates[i]) && p.Id(i) == p.Id(j) && !p.fates[j].Panicked?
      ensures Troubled(p.fates[j]) && TroubleOf(p.fates[j]) == TroubleOf(p.fates[i])
    {
      assert ListsError(st, p.Id(i), TroubleOf(p.fates[i]));
      if Troubled(p.fates[j]) {
        assert ListsError(st, p.Id(j), TroubleOf(p.fates[j]));
      } else {
        SuccessHides(p, j);
        assert false;
      }
    }
  }

  /**
   "Includes each individual status error": whatever the order of deliveries and of the
   walk, the aggregated error has the error of every rejected or failing entry, if and
   only if entries of one identity never fare differently when one of them fails.
   */
  lemma EveryFailureListed(p: Plan)
    requires p.Valid()
    ensures (forall order, st :: ValidOrder(p, order) && Reports(st, Failing(Settle(p, order))) ==> ListsAll(p, st))
       <==> AgreeingFailures(p)
  {
    hide Failing, Settle, Reports, AgreeingFailures, ListsError;
    if AgreeingFailures(p) {
      forall order, st | ValidOrder(p, order) && Reports(st, Failing(Settle(p, order)))
        ensures ListsAll(p, st)
      {
        forall i | 0 <= i < |p.fates| && Troubled(p.fates[i])
          ensures ListsError(st, p.Id(i), TroubleOf(p.fates[i]))
        {
          AgreeingIsListed(p, order, st, i);
        }
      }
    }
    if forall order, st :: ValidOrder(p, order) && Reports(st, Failing(Settle(p, order))) ==> ListsAll(p, st) {
      var st := ReportExists(Failing(Settle(p, ExtremeOrder(p))));
      ListedMeansAgreeing(p, st);
    }
  }
}
