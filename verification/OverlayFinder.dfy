/** The overlay search of src/dock/overlay-finder.cpp and what its answer means. */
module OverlayFinder {
  import opened Basics
  import opened Config

  type Uuid = nat

  datatype Monitoring = NotMonitored | MonitorOnly | MonitorAndOutput

  /** What the plugin reads of an OBS source, and the mix tracks it is routed to. */
  datatype Source = Source(browser: bool, url: string, shutdown: bool, reroute: bool, monitoring: Monitoring, mixers: set<nat>)

  type Sources = map<Uuid, Source>

  /** Scene items in drawing order; a group holds a list of its own. */
  datatype Item = Ref(uuid: Uuid) | Group(items: seq<Item>)

  type Scene = seq<Item>

  const OVERLAY_PATH := "/overlay/"

  function OverlayUrl(base: string, token: string): string {
    base + OVERLAY_PATH + token
  }

  // ---------------------------------------------------------------- addresses

  predicate Delimiter(c: char) {
    c == '?' || c == '#' || c == '/'
  }

  /** names_token(): the rest begins with the token, and ends there or goes on with a delimiter. */
  predicate NamesToken(rest: string, token: string) {
    token <= rest && (|rest| == |token| || Delimiter(rest[|token|]))
  }

  /** The path segment an address continues with. */
  function FirstSegment(rest: string): string {
    if rest == [] || Delimiter(rest[0]) then "" else [rest[0]] + FirstSegment(rest[1..])
  }

  lemma {:induction false} SegmentIsPrefix(rest: string)
    ensures var s := FirstSegment(rest);
            && s <= rest && (|s| == |rest| || Delimiter(rest[|s|]))
            && (forall i :: 0 <= i < |s| ==> !Delimiter(s[i]))
  {
    if rest != [] && !Delimiter(rest[0]) {
      SegmentIsPrefix(rest[1..]);
    }
  }

  predicate Clean(token: string) {
    forall i | 0 <= i < |token| :: !Delimiter(token[i])
  }

  /** names_token compares the first path segment exactly when the token holds no delimiter itself. */
  lemma NamesTokenMeans(token: string)
    ensures (forall rest :: NamesToken(rest, token) <==> FirstSegment(rest) == token) <==> Clean(token)
  {
    if Clean(token) {
      forall rest ensures NamesToken(rest, token) <==> FirstSegment(rest) == token {
        NamesCleanToken(rest, token);
      }
    } else {
      SegmentIsPrefix(token);
      assert NamesToken(token, token) && FirstSegment(token) != token;
    }
  }

  lemma StopsBy(rest: string, stop: nat, token: string)
    requires stop <= |rest| && (stop == |rest| || Delimiter(rest[stop]))
    requires Clean(token) && token <= rest
    ensures |token| <= stop
  {
    forall i | 0 <= i < |token| ensures !Delimiter(rest[i]) {
      assert rest[i] == token[i];
    }
  }

  lemma NamesCleanToken(rest: string, token: string)
    requires Clean(token)
    ensures NamesToken(rest, token) <==> FirstSegment(rest) == token
  {
    SegmentIsPrefix(rest);
    var s := FirstSegment(rest);
    if NamesToken(rest, token) {
      StopsBy(rest, |s|, token);
      StopsBy(rest, |token|, s);
      assert s == rest[..|s|] && token == rest[..|token|];
    }
  }

  lemma TokensAreClean(token: string)
    requires IsToken(token)
    ensures Clean(token) && token != ""
  {
    forall i | 0 <= i < |token| ensures !Delimiter(token[i]) {
      assert TokenChar(token[i]);
    }
  }

  // ---------------------------------------------------------------- candidates

  datatype Candidate = Candidate(uuid: Uuid, matches: bool)

  /** Our server's overlay pages, and the account's token if it is known. */
  datatype Query = Query(prefix: string, token: string)

  predicate IsOverlay(s: Source, q: Query) {
    s.browser && q.prefix <= s.url
  }

  predicate Matches(s: Source, q: Query)
    requires IsOverlay(s, q)
  {
    q.token == "" || NamesToken(s.url[|q.prefix|..], q.token)
  }

  /** The sources under a list of items, groups opened in place. */
  function Flatten(items: seq<Item>): seq<Uuid>
    decreases items
  {
    if items == [] then [] else
    (match items[0] case Ref(u) => [u] case Group(inner) => Flatten(inner)) + Flatten(items[1..])
  }

  function Candidates(sources: Sources, uuids: seq<Uuid>, q: Query): seq<Candidate> {
    if uuids == [] then []
    else
      var u := uuids[0];
      (if u in sources && IsOverlay(sources[u], q) then [Candidate(u, Matches(sources[u], q))] else [])
      + Candidates(sources, uuids[1..], q)
  }

  function FirstMatch(cs: seq<Candidate>): Option<Candidate> {
    if cs == [] then None else if cs[0].matches then Some(cs[0]) else FirstMatch(cs[1..])
  }

  function FirstAny(cs: seq<Candidate>): Option<Candidate> {
    if cs == [] then None else Some(cs[0])
  }

  /** The first candidate that matches, or the first of all where none does. */
  function Pick(cs: seq<Candidate>): Option<Candidate> {
    if FirstMatch(cs).Some? then FirstMatch(cs) else FirstAny(cs)
  }

  function Better(best: Option<Candidate>, c: Option<Candidate>): Option<Candidate> {
    if c.Some? && (best.None? || (c.value.matches && !best.value.matches)) then c else best
  }

  lemma {:induction false} FirstMatchMeans(cs: seq<Candidate>)
    ensures FirstMatch(cs).None? <==> forall i :: 0 <= i < |cs| ==> !cs[i].matches
    ensures FirstMatch(cs).Some? ==> exists i :: 0 <= i < |cs| && cs[i] == FirstMatch(cs).value && cs[i].matches
                                                 && forall j :: 0 <= j < i ==> !cs[j].matches
  {
    if cs != [] && !cs[0].matches {
      FirstMatchMeans(cs[1..]);
      assert forall i :: 0 < i < |cs| ==> cs[i] == cs[1..][i - 1];
      if FirstMatch(cs).Some? {
        var i :| 0 <= i < |cs[1..]| && cs[1..][i] == FirstMatch(cs[1..]).value && cs[1..][i].matches
                 && forall j :: 0 <= j < i ==> !cs[1..][j].matches;
        assert cs[i + 1] == FirstMatch(cs).value;
        forall j | 0 <= j < i + 1 ensures !cs[j].matches {
          if j > 0 { assert cs[j] == cs[1..][j - 1]; }
        }
      }
    }
  }

  lemma {:induction false} FirstMatchConcat(a: seq<Candidate>, b: seq<Candidate>)
    ensures FirstMatch(a + b) == if FirstMatch(a).Some? then FirstMatch(a) else FirstMatch(b)
  {
    if a == [] {
      assert a + b == b;
    } else {
      assert (a + b)[1..] == a[1..] + b;
      FirstMatchConcat(a[1..], b);
    }
  }

  lemma PickConcat(a: seq<Candidate>, b: seq<Candidate>)
    ensures Pick(a + b) == Better(Pick(a), Pick(b))
  {
    FirstMatchConcat(a, b);
    MatchMatches(a);
    MatchMatches(b);
  }

  lemma {:induction false} MatchMatches(cs: seq<Candidate>)
    ensures FirstMatch(cs).Some? ==> FirstMatch(cs).value.matches
    ensures FirstMatch(cs).None? && cs != [] ==> !cs[0].matches
  {
    if cs != [] { MatchMatches(cs[1..]); }
  }

  lemma BetterAssociates(a: Option<Candidate>, b: Option<Candidate>, c: Option<Candidate>)
    ensures Better(a, Better(b, c)) == Better(Better(a, b), c)
  {
  }

  lemma {:induction false} CandidatesConcat(sources: Sources, a: seq<Uuid>, b: seq<Uuid>, q: Query)
    ensures Candidates(sources, a + b, q) == Candidates(sources, a, q) + Candidates(sources, b, q)
  {
    if a == [] {
      assert a + b == b;
    } else {
      assert (a + b)[1..] == a[1..] + b;
      CandidatesConcat(sources, a[1..], b, q);
    }
  }

  lemma {:induction false} FlattenConcat(a: seq<Item>, b: seq<Item>)
    ensures Flatten(a + b) == Flatten(a) + Flatten(b)
  {
    if a == [] {
      assert a + b == b;
    } else {
      assert (a + b)[1..] == a[1..] + b;
      FlattenConcat(a[1..], b);
    }
  }

  // ---------------------------------------------------------------- the search

  function InItems(sources: Sources, items: seq<Item>, q: Query): seq<Candidate> {
    Candidates(sources, Flatten(items), q)
  }

  function InScenes(sources: Sources, scenes: seq<Scene>, q: Query): seq<Candidate> {
    if scenes == [] then [] else InScenes(sources, scenes[..|scenes| - 1], q) + InItems(sources, scenes[|scenes| - 1], q)
  }

  lemma CandidatesOne(sources: Sources, u: Uuid, q: Query)
    ensures Candidates(sources, [u], q)
         == if u in sources && IsOverlay(sources[u], q) then [Candidate(u, Matches(sources[u], q))] else []
    ensures forall c: Candidate :: Pick([c]) == Some(c)
  {
    assert [u][1..] == [];
    assert Candidates(sources, [], q) == [];
    forall c: Candidate ensures Pick([c]) == Some(c) {
      assert [c][1..] == [] && FirstMatch([c][1..]).None?;
    }
  }

  method ConsiderSource(sources: Sources, uuid: Uuid, q: Query, best: Option<Candidate>) returns (r: Option<Candidate>)
    ensures r == Better(best, Pick(Candidates(sources, [uuid], q)))
  {
    CandidatesOne(sources, uuid, q);
    r := best;
    if uuid !in sources || !sources[uuid].browser {
      return;
    }
    if !(q.prefix <= sources[uuid].url) {
      return;
    }
    var matches := Matches(sources[uuid], q);
    if best.None? || (matches && !best.value.matches) {
      r := Some(Candidate(uuid, matches));
    }
  }

  method ConsiderItems(sources: Sources, items: seq<Item>, q: Query, best: Option<Candidate>) returns (r: Option<Candidate>)
    ensures r == Better(best, Pick(InItems(sources, items, q)))
    decreases items
  {
    r := best;
    for i := 0 to |items|
      invariant r == Better(best, Pick(InItems(sources, items[..i], q)))
    {
      ghost var before := items[..i];
      assert items[..i + 1] == before + [items[i]];
      FlattenConcat(before, [items[i]]);
      CandidatesConcat(sources, Flatten(before), Flatten([items[i]]), q);
      PickConcat(InItems(sources, before, q), InItems(sources, [items[i]], q));
      BetterAssociates(best, Pick(InItems(sources, before, q)), Pick(InItems(sources, [items[i]], q)));
      FlattenOne(items[i]);
      match items[i] {
        case Ref(u) => r := ConsiderSource(sources, u, q, r);
        case Group(inner) => r := ConsiderItems(sources, inner, q, r);
      }
    }
    assert items[..|items|] == items;
  }

  lemma FlattenOne(item: Item)
    ensures Flatten([item]) == match item case Ref(u) => [u] case Group(inner) => Flatten(inner)
  {
    assert [item][1..] == [];
  }

  method SearchScene(sources: Sources, scene: Scene, q: Query) returns (best: Option<Candidate>)
    ensures best == Pick(InItems(sources, scene, q))
  {
    best := ConsiderItems(sources, scene, q, None);
  }

  // ---------------------------------------------------------------- the answer

  datatype Where = Missing | OtherScene | CurrentScene
  datatype Sound = SoundOk | Unheard | Doubled | OffAir

  datatype Presence = Presence(where: Where, stale: bool, shutdown: bool, sound: Sound, uuid: Option<Uuid>)

  const NOWHERE := Presence(Missing, false, false, SoundOk, None)

  /** reaches: monitored sound comes back into a mix through some desktop capture. */
  function WantedMonitoring(reaches: bool): Monitoring {
    if reaches then MonitorOnly else MonitorAndOutput
  }

  function JudgeSound(s: Source, reaches: bool): Sound {
    if !s.reroute then SoundOk
    else if s.monitoring == NotMonitored then Unheard
    else if s.monitoring == MonitorAndOutput && reaches then Doubled
    else if s.monitoring == MonitorOnly && !reaches then OffAir
    else SoundOk
  }

  /** The verdict on sound is Ok exactly when the overlay plays past OBS or is monitored the way the fix would have it. */
  lemma SoundOkMeans(s: Source, reaches: bool)
    ensures JudgeSound(s, reaches) == SoundOk <==> !s.reroute || s.monitoring == WantedMonitoring(reaches)
  {
  }

  function Found(sources: Sources, where: Where, c: Candidate, reaches: bool): Presence
    requires c.uuid in sources
  {
    var s := sources[c.uuid];
    Presence(where, !c.matches, s.shutdown, JudgeSound(s, reaches), Some(c.uuid))
  }

  ghost predicate Known(sources: Sources, cs: seq<Candidate>) {
    forall i :: 0 <= i < |cs| ==> cs[i].uuid in sources
  }

  lemma {:induction false} CandidatesKnown(sources: Sources, uuids: seq<Uuid>, q: Query)
    ensures Known(sources, Candidates(sources, uuids, q))
  {
    if uuids != [] { CandidatesKnown(sources, uuids[1..], q); }
  }

  lemma {:induction false} ScenesKnown(sources: Sources, scenes: seq<Scene>, q: Query)
    ensures Known(sources, InScenes(sources, scenes, q))
  {
    if scenes != [] {
      ScenesKnown(sources, scenes[..|scenes| - 1], q);
      CandidatesKnown(sources, Flatten(scenes[|scenes| - 1]), q);
    }
  }

  lemma PickKnown(sources: Sources, cs: seq<Candidate>)
    requires Known(sources, cs)
    ensures FirstMatch(cs).Some? ==> FirstMatch(cs).value.uuid in sources
    ensures Pick(cs).Some? ==> Pick(cs).value.uuid in sources
  {
    FirstMatchMeans(cs);
  }

  /** What find_overlay promises: the first matching overlay of the current scene, else the first matching one anywhere,
      else the first stale one of the current scene, else the first stale one anywhere, else nothing. */
  ghost function Declared(sources: Sources, here: seq<Candidate>, all: seq<Candidate>, reaches: bool): Presence
    requires Known(sources, here) && Known(sources, all)
  {
    PickKnown(sources, here);
    PickKnown(sources, all);
    if FirstMatch(here).Some? then Found(sources, CurrentScene, FirstMatch(here).value, reaches)
    else if FirstMatch(all).Some? then Found(sources, OtherScene, FirstMatch(all).value, reaches)
    else if here != [] then Found(sources, CurrentScene, here[0], reaches)
    else if all != [] then Found(sources, OtherScene, all[0], reaches)
    else NOWHERE
  }

  /** The current scene, if there is one, then every scene of the collection, the current one included again. */
  method FindOverlay(sources: Sources, current: Option<Scene>, scenes: seq<Scene>, q: Query, reaches: bool)
    returns (r: Presence)
    ensures Known(sources, InItems(sources, if current.Some? then current.value else [], q))
    ensures Known(sources, InScenes(sources, scenes, q))
    ensures r == Declared(sources, InItems(sources, if current.Some? then current.value else [], q),
                          InScenes(sources, scenes, q), reaches)
  {
    ghost var here := InItems(sources, if current.Some? then current.value else [], q);
    CandidatesKnown(sources, Flatten(if current.Some? then current.value else []), q);
    ScenesKnown(sources, scenes, q);
    PickKnown(sources, here);
    MatchMatches(here);
    r := NOWHERE;
    if current.Some? {
      var best := SearchScene(sources, current.value, q);
      if best.Some? {
        r := Found(sources, CurrentScene, best.value, reaches);
        if best.value.matches {
          return;
        }
      }
    }
    var elsewhere: Option<Candidate> := None;
    for i := 0 to |scenes|
      invariant elsewhere == Pick(InScenes(sources, scenes[..i], q))
    {
      var found := SearchScene(sources, scenes[i], q);
      assert scenes[..i + 1][..i] == scenes[..i];
      PickConcat(InScenes(sources, scenes[..i], q), InItems(sources, scenes[i], q));
      if found.Some? && (elsewhere.None? || (found.value.matches && !elsewhere.value.matches)) {
        elsewhere := found;
      }
    }
    assert scenes[..|scenes|] == scenes;
    PickKnown(sources, InScenes(sources, scenes, q));
    MatchMatches(InScenes(sources, scenes, q));
    if elsewhere.None? {
      return;
    }
    if r.where == CurrentScene && !elsewhere.value.matches {
      return;
    }
    r := Found(sources, OtherScene, elsewhere.value, reaches);
  }

  /** An answer elsewhere means the current scene holds no matching overlay, though the second pass went over it again;
      a stale answer means there is no matching overlay anywhere; and only an empty collection is answered Missing. */
  lemma AnswerMeans(sources: Sources, here: seq<Candidate>, all: seq<Candidate>, reaches: bool)
    requires Known(sources, here) && Known(sources, all)
    ensures var p := Declared(sources, here, all, reaches);
            && (p.where == OtherScene ==> forall i :: 0 <= i < |here| ==> !here[i].matches)
            && (p.where == OtherScene && p.stale ==> here == [])
            && (p.where != Missing ==>
                  (p.stale <==> forall i :: 0 <= i < |here + all| ==> !(here + all)[i].matches))
            && (p.where == Missing <==> here + all == [])
            && (p.uuid.None? <==> p.where == Missing)
  {
    FirstMatchMeans(here);
    FirstMatchMeans(all);
    FirstMatchConcat(here, all);
    FirstMatchMeans(here + all);
    MatchMatches(here);
    MatchMatches(all);
  }
}
