/**
 The audience of a workload identity token: how a fleet credentials file is split into
 pool and provider, how the audience is put together again, and which token is used.
 */
module WorkloadIdentity {
  import opened Wrappers

  const NAMESPACE: string := "identitynamespace:"

  /** The text before and after the first colon. */
  function Cut(s: string): Option<(string, string)> {
    if s == "" then None
    else if s[0] == ':' then Some(("", s[1..]))
    else match Cut(s[1..])
      case None => None
      case Some((before, after)) => Some(([s[0]] + before, after))
  }

  /** Split at the first two colons only; fewer than three pieces when there are fewer colons. */
  function SplitThree(s: string): seq<string> {
    match Cut(s)
    case None => [s]
    case Some((first, rest)) =>
      match Cut(rest)
      case None => [first, rest]
      case Some((second, third)) => [first, second, third]
  }

  /** What the identity lookup yields: pool and provider, or a ready-made audience. */
  datatype Lookup = Lookup(idPool: string, idProvider: string, audience: string)

  function FleetWorkloadIdentity(fileAudience: string): Lookup {
    var split := SplitThree(fileAudience);
    if |split| < 3 then Lookup("", "", fileAudience) else Lookup(split[1], split[2], "")
  }

  /** The audience of the token request. */
  function Audience(found: Lookup): string {
    if found.audience == "" then NAMESPACE + found.idPool + ":" + found.idProvider else found.audience
  }

  function Colons(s: string): nat {
    if s == "" then 0 else (if s[0] == ':' then 1 else 0) + Colons(s[1..])
  }

  lemma {:induction false} CutExact(s: string)
    ensures Cut(s).None? <==> Colons(s) == 0
    ensures Cut(s).Some? ==>
              var (before, after) := Cut(s).value;
              s == before + ":" + after && ':' !in before && Colons(after) == Colons(s) - 1
  {
    if s != "" && s[0] != ':' {
      CutExact(s[1..]);
      if Cut(s[1..]).Some? {
        var (before, after) := Cut(s[1..]).value;
        assert s == [s[0]] + s[1..];
        assert s == [s[0]] + before + ":" + after;
      }
    } else if s != "" {
      assert s == "" + ":" + s[1..];
    }
  }

  /** Everything after the first colon. */
  function AfterFirstColon(s: string): string {
    match Cut(s)
    case None => ""
    case Some((_, after)) => after
  }

  lemma Regroup(a: string, b: string, c: string)
    ensures a + b + ":" + c == a + (b + ":" + c)
  {
  }

  /**
   On the fleet path, an audience with two colons or more is rebuilt as the fixed
   namespace and everything after its first colon, however many colons follow; any
   other non-empty audience passes unchanged, and an empty one becomes a bare frame.
   The pool is what stands between the first two colons, the provider what follows.
   */
  lemma AudienceRebuilt(fileAudience: string)
    ensures Audience(FleetWorkloadIdentity(fileAudience))
         == if Colons(fileAudience) >= 2 then "identitynamespace:" + AfterFirstColon(fileAudience)
            else if fileAudience != "" then fileAudience
            else "identitynamespace::"
    ensures
      var found := FleetWorkloadIdentity(fileAudience);
      if Colons(fileAudience) >= 2
      then AfterFirstColon(fileAudience) == found.idPool + ":" + found.idProvider && ':' !in found.idPool
      else found.idPool == "" && found.idProvider == ""
  {
    CutExact(fileAudience);
    match Cut(fileAudience)
    case None =>
    case Some((first, rest)) =>
      CutExact(rest);
      match Cut(rest)
      case None =>
      case Some((second, third)) => Regroup(NAMESPACE, second, third);
  }

  lemma {:induction false} FirstColonUnique(s: string, before: string, after: string)
    requires s == before + ":" + after && ':' !in before
    ensures Cut(s) == Some((before, after))
    decreases |before|
  {
    if before == "" {
      assert s[1..] == after;
    } else {
      assert s[0] == before[0];
      assert s[0] in before;
      assert s[1..] == before[1..] + ":" + after;
      FirstColonUnique(s[1..], before[1..], after);
      assert [before[0]] + before[1..] == before;
    }
  }

  lemma NamespaceCut(s: string)
    requires NAMESPACE <= s
    ensures NAMESPACE + AfterFirstColon(s) == s
  {
    var head, tail := "identitynamespace", s[|NAMESPACE|..];
    assert NAMESPACE == head + ":";
    assert s == NAMESPACE + tail;
    FirstColonUnique(s, head, tail);
  }

  /** The audience survives the round trip exactly when it is not empty and, if it has
      two colons, starts with the namespace. */
  lemma AudienceRoundTrip(fileAudience: string)
    ensures Audience(FleetWorkloadIdentity(fileAudience)) == fileAudience
       <==> fileAudience != "" && (Colons(fileAudience) >= 2 ==> "identitynamespace:" <= fileAudience)
  {
    AudienceRebuilt(fileAudience);
    CutExact(fileAudience);
    if Colons(fileAudience) >= 2 && NAMESPACE <= fileAudience {
      NamespaceCut(fileAudience);
    }
  }

  // --------------------------------------------------------- token of the driver

  /** The tokens the driver sent, by audience; walked in no fixed order. */
  type Tokens = map<string, string>

  predicate Usable(tokens: Tokens, idPool: string, audience: string, key: string) {
    key in tokens && (key == idPool || key == audience)
  }

  /** The first usable token met while walking the map. */
  method ExtractSAToken(tokens: Tokens, idPool: string, audience: string) returns (token: Option<string>)
    ensures token.Some? ==>
              (idPool in tokens && token.value == tokens[idPool]) || (audience in tokens && token.value == tokens[audience])
    ensures token.None? <==> idPool !in tokens && audience !in tokens
  {
    var remaining := tokens.Keys;
    while remaining != {}
      invariant remaining <= tokens.Keys
      invariant forall key :: key in tokens && key !in remaining ==> !Usable(tokens, idPool, audience, key)
      decreases |remaining|
    {
      var k :| k in remaining;
      if k == idPool || k == audience {
        assert Usable(tokens, idPool, audience, k);
        return Some(tokens[k]);
      }
      remaining := remaining - {k};
    }
    assert !Usable(tokens, idPool, audience, idPool) && !Usable(tokens, idPool, audience, audience);
    token := None;
  }

  /** The walk order cannot matter exactly when pool and audience do not both name
      tokens that differ. */
  lemma TokenChoiceUnique(tokens: Tokens, idPool: string, audience: string)
    ensures (forall a, b :: Usable(tokens, idPool, audience, a) && Usable(tokens, idPool, audience, b) ==> tokens[a] == tokens[b])
       <==> (idPool in tokens && audience in tokens ==> tokens[idPool] == tokens[audience])
  {
  }
}
