/**
 Resource names: the four patterns that classify a configured name, and the
 location they yield.

 A Go string is a sequence of bytes; here a byte is written as the `char` with
 that code, so that `|s|` is Go's `len(s)`. Every statement below holds for all
 sequences of `char`, hence for all byte strings.
 */
module ResourceNames {
  import opened Wrappers

  const LOCATION_LENGTH_LIMIT: nat := 30

  const PROJECTS: string := "projects"

  // ---------------------------------------------------------------- patterns

  /** What a pattern asks of one slash-separated part: a fixed word, or `([^/]+)`. */
  datatype Slot = Word(text: string) | Capture

  /**
   A pattern stands for the regular expression `projects/<slot>/.../<slot>$`:
   not anchored at the start, anchored at the end of the text.
   */
  type Pattern = seq<Slot>

  const REGIONAL_SECRET: Pattern :=
    [Capture, Word("locations"), Capture, Word("secrets"), Capture, Word("versions"), Capture]
  const GLOBAL_SECRET: Pattern :=
    [Capture, Word("secrets"), Capture, Word("versions"), Capture]
  const GLOBAL_PARAMETER: Pattern :=
    [Capture, Word("locations"), Word("global"), Word("parameters"), Capture, Word("versions"), Capture]
  const REGIONAL_PARAMETER: Pattern :=
    [Capture, Word("locations"), Capture, Word("parameters"), Capture, Word("versions"), Capture]

  predicate SlashFreeWords(p: Pattern) {
    forall k :: 0 <= k < |p| ==> p[k].Word? ==> '/' !in p[k].text
  }

  /** `[^/]+`: at least one byte, none of them a slash. */
  predicate Component(part: string) {
    part != "" && '/' !in part
  }

  predicate Fits(slot: Slot, part: string) {
    match slot
    case Word(text) => part == text
    case Capture => Component(part)
  }

  predicate AllFit(p: Pattern, parts: seq<string>) {
    |p| == |parts| && forall k :: 0 <= k < |p| ==> Fits(p[k], parts[k])
  }

  /** Each part preceded by a slash. */
  function Tail(parts: seq<string>): string {
    if parts == [] then "" else "/" + parts[0] + Tail(parts[1..])
  }

  /**
   The relational meaning of a pattern: the match starts at `start`, runs to the
   end of the text, and `parts` are the texts taken by its slots, in order.
   */
  ghost predicate MatchAt(p: Pattern, s: string, start: nat, parts: seq<string>) {
    && start <= |s|
    && AllFit(p, parts)
    && s[start..] == PROJECTS + Tail(parts)
  }

  ghost predicate MatchesWith(p: Pattern, s: string, parts: seq<string>) {
    exists start :: MatchAt(p, s, start, parts)
  }

  /** The match the regexp package reports: no match starts further left. */
  ghost predicate LeftmostMatch(p: Pattern, s: string, start: nat, parts: seq<string>) {
    && MatchAt(p, s, start, parts)
    && forall earlier, other :: MatchAt(p, s, earlier, other) ==> start <= earlier
  }

  // ------------------------------------------------------------ segment parser

  /** The text cut at every slash; always at least one segment. */
  function Split(s: string): (segments: seq<string>)
    ensures |segments| > 0
    ensures forall k :: 0 <= k < |segments| ==> '/' !in segments[k]
  {
    if s == "" then [""]
    else
      var rest := Split(s[1..]);
      if s[0] == '/' then [""] + rest else [[s[0]] + rest[0]] + rest[1..]
  }

  predicate EndsWith(s: string, suffix: string) {
    |suffix| <= |s| && s[|s| - |suffix|..] == suffix
  }

  /**
   The executable form of a pattern: look at the last `|p|` segments, and ask of
   the one before them only that it ends in `projects`.
   */
  function Parse(p: Pattern, s: string): (parts: Option<seq<string>>) {
    var segments := Split(s);
    var first := |segments| - |p|;
    if first >= 1 && EndsWith(segments[first - 1], PROJECTS) && AllFit(p, segments[first..])
    then Some(segments[first..])
    else None
  }

  // ------------------------------------------- the parser is the regular expression

  /** The segments after one more byte at the front. */
  function Pushed(c: char, segments: seq<string>): seq<string>
    requires segments != []
  {
    if c == '/' then [""] + segments else [[c] + segments[0]] + segments[1..]
  }

  lemma PushedAppend(c: char, a: seq<string>, b: seq<string>)
    requires a != []
    ensures Pushed(c, a + b) == Pushed(c, a) + b
  {
    assert (a + b)[1..] == a[1..] + b;
  }

  lemma SplitFirst(c: char, s: string)
    ensures Split([c] + s) == Pushed(c, Split(s))
  {
    assert ([c] + s)[1..] == s;
  }

  lemma {:induction false} SplitAtSlash(a: string, b: string)
    ensures Split(a + "/" + b) == Split(a) + Split(b)
  {
    if a == "" {
      assert a + "/" + b == ['/'] + b;
      SplitFirst('/', b);
    } else {
      hide Split, Pushed;
      var c, rest := a[0], a[1..];
      calc {
        Split(a + "/" + b);
        { assert a + "/" + b == [c] + (rest + "/" + b); SplitFirst(c, rest + "/" + b); }
        Pushed(c, Split(rest + "/" + b));
        { SplitAtSlash(rest, b); }
        Pushed(c, Split(rest) + Split(b));
        { PushedAppend(c, Split(rest), Split(b)); }
        Pushed(c, Split(rest)) + Split(b);
        { assert a == [c] + rest; SplitFirst(c, rest); }
        Split(a) + Split(b);
      }
    }
  }

  lemma {:induction false} SplitSlashFree(s: string)
    requires '/' !in s
    ensures Split(s) == [s]
  {
    if s == "" {
    } else {
      assert s[0] in s;
      SplitSlashFree(s[1..]);
      assert [s[0]] + s[1..] == s;
    }
  }

  lemma {:induction false} SplitTail(a: string, parts: seq<string>)
    requires forall k :: 0 <= k < |parts| ==> '/' !in parts[k]
    ensures Split(a + Tail(parts)) == Split(a) + parts
    decreases |parts|
  {
    if parts == [] {
      assert a + Tail(parts) == a;
    } else {
      var longer := a + "/" + parts[0];
      assert a + Tail(parts) == longer + Tail(parts[1..]);
      SplitTail(longer, parts[1..]);
      SplitAtSlash(a, parts[0]);
      SplitSlashFree(parts[0]);
      assert Split(a) + [parts[0]] + parts[1..] == Split(a) + parts;
    }
  }

  /** Cutting loses nothing: the first segment followed by the others is the text. */
  lemma {:induction false} SplitInverse(s: string)
    ensures Split(s)[0] + Tail(Split(s)[1..]) == s
  {
    if s == "" {
    } else {
      SplitInverse(s[1..]);
      var rest := Split(s[1..]);
      if s[0] == '/' {
        assert Split(s)[1..] == rest;
      } else {
        assert Split(s)[1..] == rest[1..];
      }
    }
  }

  /** The text up to and including segment `k`, and what follows it. */
  lemma {:induction false} CutAfterSegment(s: string, k: nat) returns (front: string)
    requires k < |Split(s)|
    ensures s == front + Tail(Split(s)[k + 1..])
    ensures EndsWith(front, Split(s)[k])
  {
    var segments := Split(s);
    if k == 0 {
      SplitInverse(s);
      front := segments[0];
    } else {
      var shorter := CutAfterSegment(s, k - 1);
      front := shorter + "/" + segments[k];
      assert segments[k..][1..] == segments[k + 1..];
      assert Tail(segments[k..]) == "/" + segments[k] + Tail(segments[k + 1..]);
    }
  }

  lemma FittingPartsSlashFree(p: Pattern, parts: seq<string>)
    requires SlashFreeWords(p) && AllFit(p, parts)
    ensures forall k :: 0 <= k < |parts| ==> '/' !in parts[k]
  {
  }

  lemma EndsWithTransitive(s: string, t: string, u: string)
    requires EndsWith(s, t) && EndsWith(t, u)
    ensures EndsWith(s, u)
  {
  }

  lemma SlashFreeLastSegment(front: string, word: string)
    requires EndsWith(front, word) && '/' !in word
    ensures EndsWith(Split(front)[|Split(front)| - 1], word)
    decreases |front|
  {
    if |front| == |word| {
      assert front == word;
      SplitSlashFree(front);
    } else {
      SlashFreeLastSegment(front[1..], word);
      var rest := Split(front[1..]);
      var last := rest[|rest| - 1];
      if front[0] != '/' && |rest| == 1 {
        assert Split(front)[0] == [front[0]] + last;
      } else {
        assert Split(front)[|Split(front)| - 1] == last;
      }
    }
  }

  /** A match is found by the parser, and its start is fixed by the parts. */
  lemma MatchIsParsed(p: Pattern, s: string, start: nat, parts: seq<string>)
    requires SlashFreeWords(p) && MatchAt(p, s, start, parts)
    ensures Parse(p, s) == Some(parts)
    ensures start + |PROJECTS| + |Tail(parts)| == |s|
  {
    FittingPartsSlashFree(p, parts);
    var front := s[..start] + PROJECTS;
    assert s == s[..start] + s[start..];
    assert s == front + Tail(parts);
    SplitTail(front, parts);
    SlashFreeLastSegment(front, PROJECTS);
    var segments := Split(s);
    var first := |segments| - |p|;
    assert segments[first..] == parts;
    assert segments[first - 1] == Split(front)[|Split(front)| - 1];
  }

  lemma ParsedIsMatch(p: Pattern, s: string, parts: seq<string>) returns (start: nat)
    requires Parse(p, s) == Some(parts)
    ensures MatchAt(p, s, start, parts)
  {
    var segments := Split(s);
    var first := |segments| - |p|;
    var front := CutAfterSegment(s, first - 1);
    EndsWithTransitive(front, segments[first - 1], PROJECTS);
    start := |front| - |PROJECTS|;
    assert front == front[..start] + PROJECTS;
    assert s[start..] == PROJECTS + Tail(parts);
  }

  /** The relational semantics and the slash-segment parser are the same function. */
  lemma ParserIsRegex(p: Pattern, s: string, parts: seq<string>)
    requires SlashFreeWords(p)
    ensures Parse(p, s) == Some(parts) <==> MatchesWith(p, s, parts)
  {
    if Parse(p, s) == Some(parts) {
      var start := ParsedIsMatch(p, s, parts);
    }
    if MatchesWith(p, s, parts) {
      var start :| MatchAt(p, s, start, parts);
      MatchIsParsed(p, s, start, parts);
    }
  }

  /** A text matches in at most one way: one start, one tuple of captures. */
  lemma MatchUnique(p: Pattern, s: string, start: nat, parts: seq<string>, start': nat, parts': seq<string>)
    requires SlashFreeWords(p)
    requires MatchAt(p, s, start, parts) && MatchAt(p, s, start', parts')
    ensures start == start' && parts == parts'
  {
    MatchIsParsed(p, s, start, parts);
    MatchIsParsed(p, s, start', parts');
  }

  /** The pattern matches the whole text, as if it were anchored at the start as well. */
  ghost predicate HasForm(p: Pattern, s: string) {
    exists parts :: MatchAt(p, s, 0, parts)
  }

  /** A match takes the whole text exactly when there is no segment before the one that
      ends in `projects`, and that one is nothing else. */
  lemma WholeFormExact(p: Pattern, s: string, parts: seq<string>)
    requires SlashFreeWords(p) && MatchesWith(p, s, parts)
    ensures MatchAt(p, s, 0, parts) <==> |Split(s)| == |p| + 1 && Split(s)[0] == PROJECTS
  {
    if MatchAt(p, s, 0, parts) {
      FittingPartsSlashFree(p, parts);
      assert s == PROJECTS + Tail(parts);
      SplitTail(PROJECTS, parts);
      SplitSlashFree(PROJECTS);
    }
    if |Split(s)| == |p| + 1 && Split(s)[0] == PROJECTS {
      ParserIsRegex(p, s, parts);
      SplitInverse(s);
      assert s[0..] == s;
    }
  }

  lemma FormExact(p: Pattern, s: string)
    requires SlashFreeWords(p)
    ensures HasForm(p, s) <==> Parse(p, s).Some? && |Split(s)| == |p| + 1 && Split(s)[0] == PROJECTS
  {
    if parts :| MatchAt(p, s, 0, parts) {
      MatchIsParsed(p, s, 0, parts);
      WholeFormExact(p, s, parts);
    }
    if Parse(p, s).Some? {
      ParserIsRegex(p, s, Parse(p, s).value);
      WholeFormExact(p, s, Parse(p, s).value);
    }
  }

  /** So the leftmost-match rule never decides anything. */
  lemma LeftmostRuleIrrelevant(p: Pattern, s: string, start: nat, parts: seq<string>)
    requires SlashFreeWords(p)
    ensures LeftmostMatch(p, s, start, parts) <==> MatchAt(p, s, start, parts)
  {
    if MatchAt(p, s, start, parts) {
      forall earlier, other | MatchAt(p, s, earlier, other)
        ensures start <= earlier
      {
        MatchUnique(p, s, start, parts, earlier, other);
      }
    }
  }

  // -------------------------------------------------- the patterns as written

  lemma TailOf5(a: string, b: string, c: string, d: string, e: string)
    ensures Tail([a, b, c, d, e]) == "/" + a + "/" + b + "/" + c + "/" + d + "/" + e
  {
    assert [a, b, c, d, e][1..] == [b, c, d, e];
    assert [b, c, d, e][1..] == [c, d, e];
    assert [c, d, e][1..] == [d, e];
    assert [d, e][1..] == [e];
    assert [e][1..] == [];
    assert Tail([e]) == "/" + e;
    assert Tail([d, e]) == "/" + d + "/" + e;
    assert Tail([c, d, e]) == "/" + c + "/" + d + "/" + e;
    assert Tail([b, c, d, e]) == "/" + b + "/" + c + "/" + d + "/" + e;
  }

  lemma TailOf7(a: string, b: string, c: string, d: string, e: string, f: string, g: string)
    ensures Tail([a, b, c, d, e, f, g])
         == "/" + a + "/" + b + "/" + c + "/" + d + "/" + e + "/" + f + "/" + g
  {
    assert [a, b, c, d, e, f, g][1..] == [b, c, d, e, f, g];
    assert [b, c, d, e, f, g][1..] == [c, d, e, f, g];
    TailOf5(c, d, e, f, g);
    assert Tail([b, c, d, e, f, g]) == "/" + b + Tail([c, d, e, f, g]);
    assert Tail([a, b, c, d, e, f, g]) == "/" + a + Tail([b, c, d, e, f, g]);
  }

  lemma FiveTexts(a: string, b: string, c: string)
    ensures PROJECTS + Tail([a, "secrets", b, "versions", c])
         == "projects/" + a + "/secrets/" + b + "/versions/" + c
  {
    TailOf5(a, "secrets", b, "versions", c);
    assert "/" + a + "/" + "secrets" + "/" == "/" + a + "/secrets/";
  }

  lemma SevenTexts(a: string, l: string, kind: string, kindText: string, b: string, c: string)
    requires kindText == "/" + kind + "/"
    ensures PROJECTS + Tail([a, "locations", l, kind, b, "versions", c])
         == "projects/" + a + "/locations/" + l + kindText + b + "/versions/" + c
  {
    TailOf7(a, "locations", l, kind, b, "versions", c);
    var t1, w1 := "/" + a, "projects/" + a;
    assert PROJECTS + t1 == w1;
    var t2, w2 := t1 + "/" + "locations" + "/", w1 + "/locations/";
    assert PROJECTS + t2 == w2;
    var t3, w3 := t2 + l, w2 + l;
    assert PROJECTS + t3 == w3;
    var t4, w4 := t3 + "/" + kind + "/", w3 + kindText;
    assert PROJECTS + t4 == w4;
    var t5, w5 := t4 + b, w4 + b;
    assert PROJECTS + t5 == w5;
    var t6, w6 := t5 + "/" + "versions" + "/", w5 + "/versions/";
    assert PROJECTS + t6 == w6;
    assert PROJECTS + (t6 + c) == w6 + c;
  }

  lemma FiveFit(a: string, b: string, c: string)
    ensures AllFit(GLOBAL_SECRET, [a, "secrets", b, "versions", c])
       <==> Component(a) && Component(b) && Component(c)
  {
    var parts := [a, "secrets", b, "versions", c];
    if AllFit(GLOBAL_SECRET, parts) {
      assert Fits(GLOBAL_SECRET[0], parts[0]) && Fits(GLOBAL_SECRET[2], parts[2]) && Fits(GLOBAL_SECRET[4], parts[4]);
    }
  }

  lemma SevenParts(p: Pattern, parts: seq<string>)
    requires |p| == |parts| == 7
    ensures AllFit(p, parts)
       <==> Fits(p[0], parts[0]) && Fits(p[1], parts[1]) && Fits(p[2], parts[2]) && Fits(p[3], parts[3])
            && Fits(p[4], parts[4]) && Fits(p[5], parts[5]) && Fits(p[6], parts[6])
  {
  }

  lemma SevenFit(a: string, l: string, b: string, c: string)
    ensures AllFit(REGIONAL_SECRET, [a, "locations", l, "secrets", b, "versions", c])
       <==> Component(a) && Component(l) && Component(b) && Component(c)
    ensures AllFit(REGIONAL_PARAMETER, [a, "locations", l, "parameters", b, "versions", c])
       <==> Component(a) && Component(l) && Component(b) && Component(c)
    ensures AllFit(GLOBAL_PARAMETER, [a, "locations", "global", "parameters", b, "versions", c])
       <==> Component(a) && Component(b) && Component(c)
  {
    SevenParts(REGIONAL_SECRET, [a, "locations", l, "secrets", b, "versions", c]);
    SevenParts(REGIONAL_PARAMETER, [a, "locations", l, "parameters", b, "versions", c]);
    SevenParts(GLOBAL_PARAMETER, [a, "locations", "global", "parameters", b, "versions", c]);
  }

  /** The four patterns, spelled out as the texts they accept. */
  lemma PatternsReadAsWritten(s: string, start: nat, a: string, l: string, b: string, c: string)
    requires start <= |s|
    ensures MatchAt(GLOBAL_SECRET, s, start, [a, "secrets", b, "versions", c])
       <==> Component(a) && Component(b) && Component(c)
            && s[start..] == "projects/" + a + "/secrets/" + b + "/versions/" + c
    ensures MatchAt(REGIONAL_SECRET, s, start, [a, "locations", l, "secrets", b, "versions", c])
       <==> Component(a) && Component(l) && Component(b) && Component(c)
            && s[start..] == "projects/" + a + "/locations/" + l + "/secrets/" + b + "/versions/" + c
    ensures MatchAt(REGIONAL_PARAMETER, s, start, [a, "locations", l, "parameters", b, "versions", c])
       <==> Component(a) && Component(l) && Component(b) && Component(c)
            && s[start..] == "projects/" + a + "/locations/" + l + "/parameters/" + b + "/versions/" + c
    ensures MatchAt(GLOBAL_PARAMETER, s, start, [a, "locations", "global", "parameters", b, "versions", c])
       <==> Component(a) && Component(b) && Component(c)
            && s[start..] == "projects/" + a + "/locations/" + "global" + "/parameters/" + b + "/versions/" + c
  {
    FiveTexts(a, b, c);
    FiveFit(a, b, c);
    SevenTexts(a, l, "secrets", "/secrets/", b, c);
    SevenTexts(a, l, "parameters", "/parameters/", b, c);
    SevenTexts(a, "global", "parameters", "/parameters/", b, c);
    SevenFit(a, l, b, c);
  }

  lemma PatternsSlashFree()
    ensures SlashFreeWords(GLOBAL_SECRET) && SlashFreeWords(REGIONAL_SECRET)
    ensures SlashFreeWords(GLOBAL_PARAMETER) && SlashFreeWords(REGIONAL_PARAMETER)
  {
    assert '/' !in "secrets" && '/' !in "versions" && '/' !in "locations";
    assert '/' !in "parameters" && '/' !in "global";
  }

  // ---------------------------------------------------------- classification

  datatype NameError = InvalidLocation | InvalidName

  predicate MatchString(p: Pattern, s: string) {
    Parse(p, s).Some?
  }

  predicate IsSecretResource(resource: string) {
    MatchString(GLOBAL_SECRET, resource) || MatchString(REGIONAL_SECRET, resource)
  }

  predicate IsParameterManagerResource(resource: string) {
    MatchString(GLOBAL_PARAMETER, resource) || MatchString(REGIONAL_PARAMETER, resource)
  }

  /** The second capture of a regional pattern, bounded by the length limit. */
  function BoundedLocation(location: string): Result<string, NameError> {
    if |location| > LOCATION_LENGTH_LIMIT then Err(InvalidLocation) else Ok(location)
  }

  function ExtractLocationFromSecretResource(resource: string): (r: Result<string, NameError>) {
    if Parse(GLOBAL_SECRET, resource).Some? then Ok("")
    else match Parse(REGIONAL_SECRET, resource)
      case Some(parts) => BoundedLocation(parts[2])
      case None => Err(InvalidName)
  }

  function ExtractLocationFromParameterManagerResource(resource: string): (r: Result<string, NameError>) {
    if Parse(GLOBAL_PARAMETER, resource).Some? then Ok("")
    else match Parse(REGIONAL_PARAMETER, resource)
      case Some(parts) => BoundedLocation(parts[2])
      case None => Err(InvalidName)
  }

  // --------------------------------------------------------- pattern lattice

  /** How the patterns overlap: secrets and parameters never, global secrets and
      regional secrets never, global parameters always inside regional ones. */
  lemma PatternLattice(s: string)
    ensures !(IsSecretResource(s) && IsParameterManagerResource(s))
    ensures !(MatchString(GLOBAL_SECRET, s) && MatchString(REGIONAL_SECRET, s))
    ensures MatchString(GLOBAL_PARAMETER, s)
       <==> MatchString(REGIONAL_PARAMETER, s) && Parse(REGIONAL_PARAMETER, s).value[2] == "global"
    ensures IsParameterManagerResource(s) <==> MatchString(REGIONAL_PARAMETER, s)
  {
    var g := Split(s);
    var n := |g|;
    if n >= 8 {
      SevenParts(REGIONAL_SECRET, g[n - 7..]);
      SevenParts(REGIONAL_PARAMETER, g[n - 7..]);
      SevenParts(GLOBAL_PARAMETER, g[n - 7..]);
    }
    if MatchString(GLOBAL_SECRET, s) {
      assert Fits(GLOBAL_SECRET[1], g[n - 5..][1]);
      if n >= 8 && g[n - 6] == "locations" {
        assert EndsWith(g[n - 6], PROJECTS);
        assert "locations"[1..] != PROJECTS;
      }
    }
  }

  /** For names its own classifier accepts, extraction fails exactly on a location
      over the limit; "invalid name" is never the answer. */
  lemma ExtractorAgreesWithClassifier(s: string)
    ensures IsSecretResource(s) ==>
              (ExtractLocationFromSecretResource(s).Err? <==>
               Parse(REGIONAL_SECRET, s).Some? && |Parse(REGIONAL_SECRET, s).value[2]| > 30)
    ensures IsParameterManagerResource(s) ==>
              (ExtractLocationFromParameterManagerResource(s).Err? <==>
               Parse(REGIONAL_PARAMETER, s).value[2] != "global"
               && |Parse(REGIONAL_PARAMETER, s).value[2]| > 30)
    ensures IsSecretResource(s) <==> ExtractLocationFromSecretResource(s) != Err(InvalidName)
    ensures IsParameterManagerResource(s) <==> ExtractLocationFromParameterManagerResource(s) != Err(InvalidName)
  {
    PatternLattice(s);
  }

  /** A location that comes out is "" for a global name, and otherwise a non-empty,
      slash-free text within the limit. */
  lemma ExtractedLocation(s: string)
    ensures ExtractLocationFromSecretResource(s).Ok? ==>
              var l := ExtractLocationFromSecretResource(s).value;
              (l == "" <==> MatchString(GLOBAL_SECRET, s)) && (l == "" || Component(l)) && |l| <= 30
    ensures ExtractLocationFromParameterManagerResource(s).Ok? ==>
              var l := ExtractLocationFromParameterManagerResource(s).value;
              (l == "" <==> MatchString(GLOBAL_PARAMETER, s)) && (l == "" || Component(l))
              && |l| <= 30 && l != "global"
  {
    PatternLattice(s);
    if Parse(REGIONAL_SECRET, s).Some? {
      assert Fits(REGIONAL_SECRET[2], Parse(REGIONAL_SECRET, s).value[2]);
    }
    if Parse(REGIONAL_PARAMETER, s).Some? {
      assert Fits(REGIONAL_PARAMETER[2], Parse(REGIONAL_PARAMETER, s).value[2]);
    }
  }

  // -------------------------------------------------------- build and extract

  /** Extracting from a name built from a prefix and components gives the location back. */
  lemma BuildThenExtractSecret(prefix: string, project: string, location: string, secret: string, version: string)
    requires Component(project) && Component(location) && Component(secret) && Component(version)
    ensures
      var name := prefix + "projects/" + project + "/locations/" + location + "/secrets/" + secret + "/versions/" + version;
      IsSecretResource(name) && !IsParameterManagerResource(name)
      && ExtractLocationFromSecretResource(name)
         == if |location| <= 30 then Ok(location) else Err(InvalidLocation)
  {
    hide Parse, AllFit, MatchAt, SlashFreeWords;
    PatternsSlashFree();
    var body := "projects/" + project + "/locations/" + location + "/secrets/" + secret + "/versions/" + version;
    var name := prefix + "projects/" + project + "/locations/" + location + "/secrets/" + secret + "/versions/" + version;
    assert name == prefix + body;
    assert name[|prefix|..] == body;
    PatternsReadAsWritten(name, |prefix|, project, location, secret, version);
    MatchIsParsed(REGIONAL_SECRET, name, |prefix|, [project, "locations", location, "secrets", secret, "versions", version]);
    PatternLattice(name);
  }

  lemma BuildThenExtractGlobalSecret(prefix: string, project: string, secret: string, version: string)
    requires Component(project) && Component(secret) && Component(version)
    ensures
      var name := prefix + "projects/" + project + "/secrets/" + secret + "/versions/" + version;
      IsSecretResource(name) && !IsParameterManagerResource(name)
      && ExtractLocationFromSecretResource(name) == Ok("")
  {
    hide Parse, AllFit, MatchAt, SlashFreeWords;
    PatternsSlashFree();
    var body := "projects/" + project + "/secrets/" + secret + "/versions/" + version;
    var name := prefix + "projects/" + project + "/secrets/" + secret + "/versions/" + version;
    assert name == prefix + body;
    assert name[|prefix|..] == body;
    PatternsReadAsWritten(name, |prefix|, project, "x", secret, version);
    MatchIsParsed(GLOBAL_SECRET, name, |prefix|, [project, "secrets", secret, "versions", version]);
    PatternLattice(name);
  }

  /** For parameters the location `global` is the one that does not come back. */
  lemma BuildThenExtractParameter(prefix: string, project: string, location: string, parameter: string, version: string)
    requires Component(project) && Component(location) && Component(parameter) && Component(version)
    ensures
      var name := prefix + "projects/" + project + "/locations/" + location + "/parameters/" + parameter + "/versions/" + version;
      IsParameterManagerResource(name) && !IsSecretResource(name)
      && ExtractLocationFromParameterManagerResource(name)
         == if location == "global" then Ok("")
            else if |location| <= 30 then Ok(location) else Err(InvalidLocation)
  {
    hide Parse, AllFit, MatchAt, SlashFreeWords;
    PatternsSlashFree();
    var body := "projects/" + project + "/locations/" + location + "/parameters/" + parameter + "/versions/" + version;
    var name := prefix + "projects/" + project + "/locations/" + location + "/parameters/" + parameter + "/versions/" + version;
    assert name == prefix + body;
    assert name[|prefix|..] == body;
    PatternsReadAsWritten(name, |prefix|, project, location, parameter, version);
    MatchIsParsed(REGIONAL_PARAMETER, name, |prefix|, [project, "locations", location, "parameters", parameter, "versions", version]);
    PatternLattice(name);
  }

  // ------------------------------------------------------------------ routing

  datatype RouteError = BadName(error: NameError) | UnknownResourceType

  /** Where a name is fetched from; `""` is the global location. */
  datatype Route = SecretIn(location: string) | ParameterIn(location: string) | Rejected(reason: RouteError)

  /** The test-then-extract chain shared by the mount handler and its fetchers. */
  function RouteOf(name: string): (route: Route) {
    if IsSecretResource(name) then
      match ExtractLocationFromSecretResource(name)
      case Ok(location) => SecretIn(location)
      case Err(error) => Rejected(BadName(error))
    else if IsParameterManagerResource(name) then
      match ExtractLocationFromParameterManagerResource(name)
      case Ok(location) => ParameterIn(location)
      case Err(error) => Rejected(BadName(error))
    else Rejected(UnknownResourceType)
  }

  ghost predicate Matched(p: Pattern, s: string) {
    exists parts :: MatchesWith(p, s, parts)
  }

  /** Some match of the pattern takes `location` in its second capture. */
  ghost predicate MatchedAt(p: Pattern, s: string, location: string) {
    exists parts :: MatchesWith(p, s, parts) && |parts| > 2 && parts[2] == location
  }

  lemma ParsedOrUnmatched(p: Pattern, s: string)
    requires SlashFreeWords(p)
    ensures Matched(p, s) <==> Parse(p, s).Some?
    ensures forall location :: |p| > 2 ==> (MatchedAt(p, s, location) <==> Parse(p, s).Some? && Parse(p, s).value[2] == location)
  {
    forall parts
      ensures Parse(p, s) == Some(parts) <==> MatchesWith(p, s, parts)
    {
      ParserIsRegex(p, s, parts);
    }
  }

  /** When a name is fetched as a secret, said with the regular expressions alone. */
  lemma SecretRouteExact(s: string, l: string)
    ensures RouteOf(s) == SecretIn(l)
       <==> if l == "" then Matched(GLOBAL_SECRET, s)
            else MatchedAt(REGIONAL_SECRET, s, l) && |l| <= 30
  {
    hide Parse, Matched, MatchedAt, SlashFreeWords, Component;
    PatternsSlashFree();
    PatternLattice(s);
    ExtractedLocation(s);
    ParsedOrUnmatched(GLOBAL_SECRET, s);
    ParsedOrUnmatched(REGIONAL_SECRET, s);
  }

  /** When a name is fetched as a parameter. */
  lemma ParameterRouteExact(s: string, l: string)
    ensures RouteOf(s) == ParameterIn(l)
       <==> if l == "" then Matched(GLOBAL_PARAMETER, s)
            else MatchedAt(REGIONAL_PARAMETER, s, l) && l != "global" && |l| <= 30
  {
    hide Parse, Matched, MatchedAt, SlashFreeWords, Component;
    PatternsSlashFree();
    PatternLattice(s);
    ExtractedLocation(s);
    ParsedOrUnmatched(GLOBAL_PARAMETER, s);
    ParsedOrUnmatched(REGIONAL_PARAMETER, s);
  }

  lemma ParseLength(p: Pattern, s: string)
    ensures Parse(p, s).Some? ==> |Parse(p, s).value| == |p|
  {
  }

  /** Why a name is turned away: no expression matches, or the matching one captures a
      location of more than 30 bytes. */
  lemma RejectedExact(s: string)
    ensures RouteOf(s) == Rejected(UnknownResourceType)
       <==> && !Matched(GLOBAL_SECRET, s) && !Matched(REGIONAL_SECRET, s)
            && !Matched(GLOBAL_PARAMETER, s) && !Matched(REGIONAL_PARAMETER, s)
    ensures RouteOf(s) == Rejected(BadName(InvalidLocation))
       <==> exists l :: |l| > 30 && (MatchedAt(REGIONAL_SECRET, s, l) || MatchedAt(REGIONAL_PARAMETER, s, l))
    ensures RouteOf(s) != Rejected(BadName(InvalidName))
  {
    hide Parse, Matched, MatchedAt, SlashFreeWords, Component;
    PatternsSlashFree();
    PatternLattice(s);
    ExtractorAgreesWithClassifier(s);
    ParsedOrUnmatched(GLOBAL_SECRET, s);
    ParsedOrUnmatched(REGIONAL_SECRET, s);
    ParsedOrUnmatched(GLOBAL_PARAMETER, s);
    ParsedOrUnmatched(REGIONAL_PARAMETER, s);
    ParseLength(REGIONAL_SECRET, s);
    ParseLength(REGIONAL_PARAMETER, s);
    if RouteOf(s) == Rejected(BadName(InvalidLocation)) {
      var p := if IsSecretResource(s) then REGIONAL_SECRET else REGIONAL_PARAMETER;
      assert MatchedAt(p, s, Parse(p, s).value[2]);
    }
  }

  /** The two classifiers, said with the regular expressions alone. */
  lemma ClassifiersAreRegexes(s: string)
    ensures IsSecretResource(s) <==> Matched(GLOBAL_SECRET, s) || Matched(REGIONAL_SECRET, s)
    ensures IsParameterManagerResource(s) <==> Matched(GLOBAL_PARAMETER, s) || Matched(REGIONAL_PARAMETER, s)
  {
    hide Parse, Matched, MatchedAt, SlashFreeWords;
    PatternsSlashFree();
    ParsedOrUnmatched(GLOBAL_SECRET, s);
    ParsedOrUnmatched(REGIONAL_SECRET, s);
    ParsedOrUnmatched(GLOBAL_PARAMETER, s);
    ParsedOrUnmatched(REGIONAL_PARAMETER, s);
  }

  lemma ParseIgnoresPrefix(p: Pattern, prefix: string, name: string)
    requires SlashFreeWords(p)
    ensures Parse(p, name).Some? ==> Parse(p, prefix + name) == Parse(p, name)
  {
    match Parse(p, name)
    case None =>
    case Some(parts) =>
      var start := ParsedIsMatch(p, name, parts);
      assert (prefix + name)[|prefix| + start..] == name[start..];
      MatchIsParsed(p, prefix + name, |prefix| + start, parts);
  }

  lemma SecretIgnoresPrefix(prefix: string, name: string)
    requires IsSecretResource(name)
    ensures IsSecretResource(prefix + name)
    ensures ExtractLocationFromSecretResource(prefix + name) == ExtractLocationFromSecretResource(name)
  {
    if MatchString(GLOBAL_SECRET, name) {
      ParseIgnoresPrefix(GLOBAL_SECRET, prefix, name);
    } else {
      ParseIgnoresPrefix(REGIONAL_SECRET, prefix, name);
      PatternLattice(prefix + name);
    }
  }

  lemma ParameterIgnoresPrefix(prefix: string, name: string)
    requires IsParameterManagerResource(name)
    ensures IsParameterManagerResource(prefix + name)
    ensures ExtractLocationFromParameterManagerResource(prefix + name) == ExtractLocationFromParameterManagerResource(name)
  {
    PatternLattice(name);
    PatternLattice(prefix + name);
    ParseIgnoresPrefix(REGIONAL_PARAMETER, prefix, name);
  }

  /** A rejected name is over-long or of no known kind, whatever precedes it; and
      nothing put in front of a name of a known kind changes where it is routed. */
  lemma RouteIgnoresPrefix(prefix: string, name: string)
    ensures RouteOf(name) != Rejected(BadName(InvalidName))
    ensures RouteOf(name) != Rejected(UnknownResourceType) ==> RouteOf(prefix + name) == RouteOf(name)
  {
    ExtractorAgreesWithClassifier(name);
    PatternLattice(prefix + name);
    if IsSecretResource(name) {
      SecretIgnoresPrefix(prefix, name);
    } else if IsParameterManagerResource(name) {
      ParameterIgnoresPrefix(prefix, name);
    }
  }

  /** The forms the documentation gives, in full. */
  ghost predicate Documented(s: string) {
    HasForm(GLOBAL_SECRET, s) || HasForm(REGIONAL_SECRET, s) || HasForm(REGIONAL_PARAMETER, s) || HasForm(GLOBAL_PARAMETER, s)
  }

  /** A name of a known kind has a documented form exactly when its first segment is
      `projects` and it has no more segments than its pattern asks for. */
  lemma DocumentedExact(s: string)
    requires IsSecretResource(s) || IsParameterManagerResource(s)
    ensures Documented(s)
       <==> Split(s)[0] == PROJECTS && |Split(s)| == if MatchString(GLOBAL_SECRET, s) then 6 else 8
  {
    hide Parse, HasForm, SlashFreeWords;
    PatternsSlashFree();
    PatternLattice(s);
    FormExact(GLOBAL_SECRET, s);
    FormExact(REGIONAL_SECRET, s);
    FormExact(REGIONAL_PARAMETER, s);
    FormExact(GLOBAL_PARAMETER, s);
  }

  /** Any text in front of a global secret name, even `projects/x/`, gives a name that is
      accepted and routed like it, and has none of the documented forms. */
  lemma PrefixedIsUndocumented(prefix: string, project: string, secret: string, version: string)
    requires prefix != "" && Component(project) && Component(secret) && Component(version)
    ensures
      var name := prefix + "projects/" + project + "/secrets/" + secret + "/versions/" + version;
      RouteOf(name) == SecretIn("") && !Documented(name)
  {
    hide Parse, AllFit, MatchAt, SlashFreeWords;
    var body := "projects/" + project + "/secrets/" + secret + "/versions/" + version;
    var name := prefix + "projects/" + project + "/secrets/" + secret + "/versions/" + version;
    var parts := [project, "secrets", secret, "versions", version];
    assert name == prefix + body;
    assert name[|prefix|..] == body;
    BuildThenExtractGlobalSecret(prefix, project, secret, version);
    PatternsSlashFree();
    PatternsReadAsWritten(name, |prefix|, project, "x", secret, version);
    MatchIsParsed(GLOBAL_SECRET, name, |prefix|, parts);
    PatternLattice(name);
    FormExact(REGIONAL_SECRET, name);
    FormExact(REGIONAL_PARAMETER, name);
    FormExact(GLOBAL_PARAMETER, name);
    if start, other :| start == 0 && MatchAt(GLOBAL_SECRET, name, start, other) {
      MatchUnique(GLOBAL_SECRET, name, |prefix|, parts, start, other);
    }
  }
}
