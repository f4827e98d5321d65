/** What the overlay search, its row and its fixes mean, said of the scene collection itself. */
module OverlayMeans {
  import opened Basics
  import opened OverlayFinder
  import opened OverlayFix

  // ---------------------------------------------------------------- the search

  /** A browser source showing an overlay page of our server. */
  predicate Ours(s: Source, env: Env) {
    s.browser && env.base + "/overlay/" <= s.url
  }

  /** And the page is this account's, or there is no telling yet. */
  predicate Suits(s: Source, env: Env) {
    Ours(s, env) && (env.server.token == "" || FirstSegment(s.url[|env.base + "/overlay/"|..]) == env.server.token)
  }

  ghost predicate SomeOurs(sources: Sources, uuids: seq<Uuid>, env: Env) {
    exists u :: u in uuids && u in sources && Ours(sources[u], env)
  }

  ghost predicate SomeSuits(sources: Sources, uuids: seq<Uuid>, env: Env) {
    exists u :: u in uuids && u in sources && Suits(sources[u], env)
  }

  lemma SourceMeans(s: Source, env: Env)
    requires Clean(env.server.token)
    ensures Ours(s, env) <==> IsOverlay(s, QueryOf(env))
    ensures Ours(s, env) ==> (Suits(s, env) <==> Matches(s, QueryOf(env)))
  {
    if Ours(s, env) { NamesCleanToken(s.url[|env.base + "/overlay/"|..], env.server.token); }
  }

  /** The candidates of a search are the sources of ours in it, and those that match are those that suit. */
  lemma CandidatesSuit(sources: Sources, uuids: seq<Uuid>, env: Env)
    requires Clean(env.server.token)
    ensures var cs := Candidates(sources, uuids, QueryOf(env));
            && (cs != [] <==> SomeOurs(sources, uuids, env))
            && (FirstMatch(cs).Some? <==> SomeSuits(sources, uuids, env))
            && forall c :: c in cs ==> c.uuid in sources && Ours(sources[c.uuid], env) && (c.matches <==> Suits(sources[c.uuid], env))
  {
    hide Matches, IsOverlay, Ours, Suits, Candidates, FirstMatch;
    var q := QueryOf(env);
    var cs := Candidates(sources, uuids, q);
    CandidatesMean(sources, uuids, q);
    FirstMatchIn(cs);
    forall u | u in sources
      ensures Ours(sources[u], env) <==> IsOverlay(sources[u], q)
      ensures Ours(sources[u], env) ==> (Suits(sources[u], env) <==> Matches(sources[u], q))
    {
      SourceMeans(sources[u], env);
    }
    if u :| u in uuids && u in sources && Ours(sources[u], env) {
      assert Counts(sources, u, q);
      assert Candidate(u, Matches(sources[u], q)) in cs;
    }
    if u :| u in uuids && u in sources && Suits(sources[u], env) {
      SuitsIsOurs(sources[u], env);
      assert Counts(sources, u, q);
      assert Candidate(u, Matches(sources[u], q)) in cs;
    }
    if cs != [] { assert cs[0] in cs; }
  }

  lemma SuitsIsOurs(s: Source, env: Env)
    requires Suits(s, env)
    ensures Ours(s, env)
  {
  }

  /** What is found, by what is there. Missing means no overlay of ours in any scene searched; not stale means that one of
      them suits; and what is in the current scene is preferred among equals. An unknown token suits every overlay. */
  lemma FoundMeans(w: World, env: Env)
    requires Clean(env.server.token)
    ensures var p := Find(w, env); var here := HereUuids(w); var all := AllUuids(w.scenes);
            && (p.where == Missing <==> !SomeOurs(w.sources, here, env) && !SomeOurs(w.sources, all, env))
            && (p.where != Missing ==> (!p.stale <==> SomeSuits(w.sources, here, env) || SomeSuits(w.sources, all, env)))
            && (p.where == CurrentScene <==>
                  SomeSuits(w.sources, here, env)
                  || (SomeOurs(w.sources, here, env) && !SomeSuits(w.sources, all, env)))
            && (p.where == Missing ==> !p.stale && p.uuid == None)
    ensures var p := Find(w, env);
            p.where != Missing ==>
              && p.uuid.Some? && p.uuid.value in w.sources
              && var s := w.sources[p.uuid.value];
                 Ours(s, env) && (Suits(s, env) <==> !p.stale) && p.shutdown == s.shutdown && p.sound == JudgeSound(s, env.reaches)
  {
    hide Matches, IsOverlay, Ours, Suits, Candidates, FirstMatch, JudgeSound, SomeOurs, SomeSuits;
    var q := QueryOf(env);
    var here := Here(w, q);
    var all := InScenes(w.sources, w.scenes, q);
    HereIs(w, q);
    InScenesIs(w.sources, w.scenes, q);
    CandidatesSuit(w.sources, HereUuids(w), env);
    CandidatesSuit(w.sources, AllUuids(w.scenes), env);
    FirstMatchIn(here);
    FirstMatchIn(all);
  }

  /** Before the account is known every overlay of ours is taken for good: nothing is stale, and one in the current scene
      is what is found. */
  lemma UnknownToken(w: World, env: Env)
    requires env.server.token == ""
    ensures !Find(w, env).stale
    ensures Find(w, env).where == CurrentScene <==> SomeOurs(w.sources, HereUuids(w), env)
    ensures Offered(w, env) != Update
  {
    hide Find, Ours;
    FoundMeans(w, env);
  }

  // ---------------------------------------------------------------- the sound

  /** How often the overlay's sound arrives at the outputs: unless it is only monitored, by itself, and once more with
      what is monitored if a desktop capture brings that back. */
  function TimesOnAir(s: Source, reaches: bool): nat {
    (if s.monitoring == MonitorOnly then 0 else 1) + (if s.monitoring != NotMonitored && reaches then 1 else 0)
  }

  /** Sound that goes through OBS is right if the streamer hears it and it is on air once. */
  lemma SoundMeans(s: Source, reaches: bool)
    ensures var sound := JudgeSound(s, reaches); var heard := s.monitoring != NotMonitored;
            && (sound == SoundOk <==> !s.reroute || (heard && TimesOnAir(s, reaches) == 1))
            && (sound == Unheard <==> s.reroute && !heard)
            && (sound == Doubled <==> s.reroute && heard && TimesOnAir(s, reaches) == 2)
            && (sound == OffAir <==> s.reroute && heard && TimesOnAir(s, reaches) == 0)
  {
  }

  // ---------------------------------------------------------------- the row

  predicate Connected(s: Server) {
    s.known && s.connected
  }

  /** Nothing to warn about except where the overlay is. */
  predicate AllButPlace(p: Presence, s: Server) {
    p.where != Missing && p.sound == SoundOk && s.count <= 1 && !p.shutdown
  }

  /** Exactly which collections get which fix. */
  lemma OfferMeans(w: World, env: Env)
    requires Clean(env.server.token)
    ensures var p := Find(w, env); var s := env.server; var f := Offered(w, env);
            && (f == Add <==>
                  (!SomeOurs(w.sources, HereUuids(w), env) && !SomeOurs(w.sources, AllUuids(w.scenes), env))
                  || (Connected(s) && AllButPlace(p, s) && p.where == OtherScene))
            && (f == Update <==> !Connected(s) && p.where != Missing
                                 && !SomeSuits(w.sources, HereUuids(w), env) && !SomeSuits(w.sources, AllUuids(w.scenes), env))
            && (f == Listen <==> Connected(s) && p.where != Missing && p.sound == Unheard)
            && (f == SoundFix <==> Connected(s) && p.where != Missing && (p.sound == Doubled || p.sound == OffAir))
            && (ButtonEnabled(f, s.token) <==> s.token != "" || f == Listen || f == SoundFix)
  {
    hide Find, SomeOurs, SomeSuits;
    FoundMeans(w, env);
  }

  /** How serious the row is. A connected overlay warns at most, and all is well exactly when it is in the current scene
      with nothing else to say about it, stale or not; without a connection, only an unanswered server leaves it neutral. */
  lemma LevelMeans(p: Presence, s: Server)
    ensures var level := OverlayRow(p, s).0;
            && (level == Okay <==> Connected(s) && AllButPlace(p, s) && p.where == CurrentScene)
            && (level == Warn <==> Connected(s) && !(AllButPlace(p, s) && p.where == CurrentScene))
            && (level == Neutral <==> !s.known && p.where != Missing && !p.stale)
            && (level == Block <==> !Connected(s) && (p.where == Missing || p.stale || s.known))
  {
  }

  /** The row does not look at the address while the server sees a connection: the only overlay in the collection can show
      another account's page and all is said to be well. */
  lemma StaleCanBeOkay(base: string, token: string)
    requires Clean(token) && token != "" && token != "x"
    ensures var w := World(map[0 := Source(true, base + "/overlay/" + "x", false, false, NotMonitored, {})], [[Ref(0)]], Some(0));
            var env := Env(Server(true, true, 1, token), base, false, None);
            Find(w, env).stale && OverlayRow(Find(w, env), env.server) == (Okay, NoFix)
  {
    hide Find;
    var s := Source(true, base + "/overlay/" + "x", false, false, NotMonitored, {});
    var w := World(map[0 := s], [[Ref(0)]], Some(0));
    var env := Env(Server(true, true, 1, token), base, false, None);
    FlattenOne(Ref(0));
    assert HereUuids(w) == [0];
    assert s.url[|base + "/overlay/"|..] == "x" && FirstSegment("x") == "x";
    assert Ours(s, env) && !Suits(s, env);
    assert 0 in HereUuids(w) && 0 in w.sources && w.sources[0] == s;
    FoundMeans(w, env);
  }

  // ---------------------------------------------------------------- the overlay that Add makes

  /** A new overlay is heard, on air once, at the given address, and on every track except the one the co-host listens on. */
  lemma NewOverlayMeans(url: string, env: Env, track: nat)
    ensures var s := NewOverlay(url, env);
            && s.browser && s.url == url && !s.shutdown && s.reroute
            && s.monitoring != NotMonitored && TimesOnAir(s, env.reaches) == 1
            && (track in s.mixers <==> track < 6 && env.listenTrack != Some(track))
  {
  }

  predicate SameButUrl(s: Source, t: Source) {
    && t.browser == s.browser && t.shutdown == s.shutdown && t.reroute == s.reroute
    && t.monitoring == s.monitoring && t.mixers == s.mixers
  }

  predicate SameButMonitoring(s: Source, t: Source) {
    t.browser == s.browser && t.url == s.url && t.shutdown == s.shutdown && t.reroute == s.reroute && t.mixers == s.mixers
  }

  /** The other fixes change one field of one source: Update gives it this account's page, the sound fixes let the
      streamer hear it and put it on air once. */
  lemma FixesMean(w: World, env: Env, u: Uuid, x: Uuid)
    requires u in w.sources && x in w.sources && Clean(env.server.token)
    ensures var t := Redirected(w, u, OverlayUrl(env.base, env.server.token));
            && t == w.(sources := t.sources) && t.sources.Keys == w.sources.Keys
            && (x != u ==> t.sources[x] == w.sources[x])
            && SameButUrl(w.sources[u], t.sources[u]) && (w.sources[u].browser ==> Suits(t.sources[u], env))
    ensures var t := Monitored(w, u, env.reaches);
            && t == w.(sources := t.sources) && t.sources.Keys == w.sources.Keys
            && (x != u ==> t.sources[x] == w.sources[x])
            && SameButMonitoring(w.sources[u], t.sources[u])
            && t.sources[u].monitoring != NotMonitored && TimesOnAir(t.sources[u], env.reaches) == 1
  {
    AddressMatches(env.base, env.server.token);
    NamesCleanToken(env.server.token, env.server.token);
  }

  /** Add puts one item into the current scene and touches no other. It makes no source where the overlay found elsewhere
      is good, and otherwise one, leaving every other as it was. */
  lemma AddedMeans(w: World, env: Env, found: Presence, url: string, newId: Uuid, at: nat)
    requires w.current.Some? && w.current.value < |w.scenes| && at <= |w.scenes[w.current.value]| && newId !in w.sources
    ensures var t := Added(w, env, found, url, newId, at); var c := w.current.value;
            && t.current == w.current && |t.scenes| == |w.scenes|
            && (forall i :: 0 <= i < |w.scenes| && i != c ==> t.scenes[i] == w.scenes[i])
            && |t.scenes[c]| == |w.scenes[c]| + 1 && t.scenes[c][..at] + t.scenes[c][at + 1..] == w.scenes[c]
    ensures var t := Added(w, env, found, url, newId, at); var c := w.current.value;
            if found.where == OtherScene && !found.stale && found.uuid.Some? && found.uuid.value in w.sources
            then t.sources == w.sources && t.scenes[c][at] == Ref(found.uuid.value)
            else t.sources == w.sources[newId := NewOverlay(url, env)] && t.scenes[c][at] == Ref(newId)
  {
  }
}
