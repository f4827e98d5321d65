/** The overlay row's button (src/dock/readiness.cpp, src/dock/sokaster-dock.cpp) and what pressing it does to the scene
    collection (src/dock/overlay-finder.cpp), as a closed loop with the search. */
module OverlayFix {
  import opened Basics
  import opened OverlayFinder

  datatype Fix = NoFix | Add | Update | Listen | SoundFix
  datatype Level = Neutral | Okay | Warn | Block

  /** What the server says; known: it has answered and the link is Ok. */
  datatype Server = Server(known: bool, connected: bool, count: nat, token: string)

  /** The scene collection. */
  datatype World = World(sources: Sources, scenes: seq<Scene>, current: Option<nat>)

  /** What the loop cannot influence: the server, its address, the desktop captures, the listening track. */
  datatype Env = Env(server: Server, base: string, reaches: bool, listenTrack: Option<nat>)

  ghost predicate Proper(w: World) {
    w.current.Some? ==> w.current.value < |w.scenes|
  }

  function QueryOf(env: Env): Query {
    Query(env.base + OVERLAY_PATH, env.server.token)
  }

  function Here(w: World, q: Query): seq<Candidate> {
    if w.current.Some? && w.current.value < |w.scenes| then InItems(w.sources, w.scenes[w.current.value], q) else []
  }

  ghost function Find(w: World, env: Env): Presence {
    var q := QueryOf(env);
    var here := Here(w, q);
    CandidatesKnown(w.sources, Flatten(if w.current.Some? && w.current.value < |w.scenes| then w.scenes[w.current.value] else []), q);
    ScenesKnown(w.sources, w.scenes, q);
    Declared(w.sources, here, InScenes(w.sources, w.scenes, q), env.reaches)
  }

  /** overlay_row: how serious it is and which fix the button offers. */
  function OverlayRow(o: Presence, s: Server): (Level, Fix) {
    if s.known && s.connected then
      if o.where == Missing then (Warn, Add)
      else if o.sound == Unheard then (Warn, Listen)
      else if o.sound == Doubled || o.sound == OffAir then (Warn, SoundFix)
      else if s.count > 1 then (Warn, NoFix)
      else if o.shutdown then (Warn, NoFix)
      else if o.where == OtherScene then (Warn, Add)
      else (Okay, NoFix)
    else if o.where == Missing then (Block, Add)
    else if o.stale then (Block, Update)
    else if !s.known then (Neutral, NoFix)
    else (Block, NoFix)
  }

  ghost function Offered(w: World, env: Env): Fix {
    OverlayRow(Find(w, env), env.server).1
  }

  /** The button is enabled for a sound fix, or once there is a token to build an address from. */
  predicate ButtonEnabled(fix: Fix, token: string) {
    fix == Listen || fix == SoundFix || token != ""
  }

  // ---------------------------------------------------------------- the fixes

  const ALL_TRACKS: set<nat> := {0, 1, 2, 3, 4, 5}

  function NewOverlay(url: string, env: Env): Source {
    Source(true, url, false, true, WantedMonitoring(env.reaches),
           if env.listenTrack.Some? then ALL_TRACKS - {env.listenTrack.value} else ALL_TRACKS)
  }

  function PutIn(scene: Scene, at: nat, u: Uuid): Scene
    requires at <= |scene|
  {
    scene[..at] + [Ref(u)] + scene[at..]
  }

  predicate Reusable(w: World, found: Presence) {
    found.where == OtherScene && !found.stale && found.uuid.Some? && found.uuid.value in w.sources
  }

  /** The found source again where it can be reused, otherwise newId, at any place among the current scene's items. */
  function Added(w: World, env: Env, found: Presence, url: string, newId: Uuid, at: nat): World
    requires w.current.Some? && w.current.value < |w.scenes| && at <= |w.scenes[w.current.value]|
  {
    var c := w.current.value;
    if Reusable(w, found) then w.(scenes := w.scenes[c := PutIn(w.scenes[c], at, found.uuid.value)])
    else w.(sources := w.sources[newId := NewOverlay(url, env)], scenes := w.scenes[c := PutIn(w.scenes[c], at, newId)])
  }

  function Redirected(w: World, u: Uuid, url: string): World
    requires u in w.sources
  {
    w.(sources := w.sources[u := w.sources[u].(url := url)])
  }

  function Monitored(w: World, u: Uuid, reaches: bool): World
    requires u in w.sources
  {
    w.(sources := w.sources[u := w.sources[u].(monitoring := WantedMonitoring(reaches))])
  }

  // ---------------------------------------------------------------- the dock

  /** The dock and the collection it edits. A failed OBS call is a parameter: canCreate, canPlace. */
  class Dock {
    var sources: Sources
    var scenes: seq<Scene>
    var current: Option<nat>
    var overlayFix: Fix
    var overlayFound: Presence
    var buttonEnabled: bool

    ghost function Collection(): World
      reads this`sources, this`scenes, this`current
    {
      World(sources, scenes, current)
    }

    /** The button shows what was found at the last repaint. */
    ghost predicate UpToDate(env: Env)
      reads this
    {
      && overlayFound == Find(Collection(), env)
      && overlayFix == Offered(Collection(), env)
      && buttonEnabled == ButtonEnabled(overlayFix, env.server.token)
    }

    constructor (w: World)
      ensures Collection() == w
    {
      sources, scenes, current := w.sources, w.scenes, w.current;
      overlayFix, overlayFound, buttonEnabled := NoFix, NOWHERE, false;
    }

    method Reevaluate(env: Env)
      requires Proper(Collection())
      modifies this`overlayFix, this`overlayFound, this`buttonEnabled
      ensures UpToDate(env)
    {
      var scene := if current.Some? then Some(scenes[current.value]) else None;
      overlayFound := FindOverlay(sources, scene, scenes, QueryOf(env), env.reaches);
      assert InItems(sources, [], QueryOf(env)) == [];
      var row := OverlayRow(overlayFound, env.server);
      overlayFix := row.1;
      buttonEnabled := overlayFix == Listen || overlayFix == SoundFix || env.server.token != "";
    }

    method AddOverlayToCurrentScene(found: Presence, url: string, env: Env, newId: Uuid, at: nat,
                                    canCreate: bool, canPlace: bool)
      returns (done: bool)
      requires Proper(Collection()) && newId !in sources
      requires current.Some? ==> at <= |scenes[current.value]|
      modifies this`sources, this`scenes
      ensures done <==> current.Some? && canPlace && (Reusable(old(Collection()), found) || canCreate)
      ensures Collection() == if done then Added(old(Collection()), env, found, url, newId, at) else old(Collection())
    {
      if current.None? {
        return false;
      }
      var reuse := found.where == OtherScene && !found.stale && found.uuid.Some? && found.uuid.value in sources;
      if !reuse && !canCreate {
        return false;
      }
      if !canPlace {
        return false;
      }
      var c := current.value;
      if reuse {
        scenes := scenes[c := PutIn(scenes[c], at, found.uuid.value)];
      } else {
        var s := Source(true, url, false, true, WantedMonitoring(env.reaches), ALL_TRACKS);
        if env.listenTrack.Some? {
          s := s.(mixers := s.mixers - {env.listenTrack.value});
        }
        sources := sources[newId := s];
        scenes := scenes[c := PutIn(scenes[c], at, newId)];
      }
      return true;
    }

    method SetOverlayUrl(uuid: Option<Uuid>, url: string) returns (done: bool)
      modifies this`sources
      ensures done <==> uuid.Some? && uuid.value in old(sources)
      ensures Collection() == if done then Redirected(old(Collection()), uuid.value, url) else old(Collection())
    {
      if uuid.None? || uuid.value !in sources {
        return false;
      }
      sources := sources[uuid.value := sources[uuid.value].(url := url)];
      return true;
    }

    method FixOverlaySound(uuid: Option<Uuid>, reaches: bool) returns (done: bool)
      modifies this`sources
      ensures done <==> uuid.Some? && uuid.value in old(sources)
      ensures Collection() == if done then Monitored(old(Collection()), uuid.value, reaches) else old(Collection())
    {
      if uuid.None? || uuid.value !in sources {
        return false;
      }
      var type_ := WantedMonitoring(reaches);
      sources := sources[uuid.value := sources[uuid.value].(monitoring := type_)];
      return true;
    }

    /** The button: the fix of the last repaint, on exactly the source that repaint found, then a new repaint. The
        collection may have changed in between. */
    method OnOverlayFix(env: Env, newId: Uuid, at: nat, canCreate: bool, canPlace: bool) returns (done: bool)
      requires Proper(Collection()) && newId !in sources
      requires current.Some? ==> at <= |scenes[current.value]|
      modifies this
      ensures done ==> Proper(Collection()) && UpToDate(env)
                       && Collection() == Applied(old(Collection()), old(overlayFix), old(overlayFound), env, newId, at)
      ensures done && old(UpToDate(env)) ==> Collection() == Pressed(old(Collection()), env, newId, at)
      ensures !done ==> Collection() == old(Collection())
    {
      var url := OverlayUrl(env.base, env.server.token);
      done := false;
      if overlayFix == Add {
        done := AddOverlayToCurrentScene(overlayFound, url, env, newId, at, canCreate, canPlace);
      } else if overlayFix == Update {
        done := SetOverlayUrl(overlayFound.uuid, url);
      } else if overlayFix == Listen || overlayFix == SoundFix {
        done := FixOverlaySound(overlayFound.uuid, env.reaches);
      }
      if !done {
        return;
      }
      Reevaluate(env);
    }
  }

  function Applied(w: World, fix: Fix, found: Presence, env: Env, newId: Uuid, at: nat): World
    requires w.current.Some? ==> w.current.value < |w.scenes| && at <= |w.scenes[w.current.value]|
  {
    var url := OverlayUrl(env.base, env.server.token);
    if fix == Add && w.current.Some? then Added(w, env, found, url, newId, at)
    else if fix == Update && found.uuid.Some? && found.uuid.value in w.sources then Redirected(w, found.uuid.value, url)
    else if (fix == Listen || fix == SoundFix) && found.uuid.Some? && found.uuid.value in w.sources
    then Monitored(w, found.uuid.value, env.reaches)
    else w
  }

  /** One press of the offered fix, each OBS call succeeding. */
  ghost function Pressed(w: World, env: Env, newId: Uuid, at: nat): World
    requires w.current.Some? ==> w.current.value < |w.scenes| && at <= |w.scenes[w.current.value]|
  {
    Applied(w, Offered(w, env), Find(w, env), env, newId, at)
  }

  // ---------------------------------------------------------------- candidates by membership

  predicate Counts(sources: Sources, u: Uuid, q: Query) {
    u in sources && IsOverlay(sources[u], q)
  }

  lemma {:induction false} CandidatesMean(sources: Sources, uuids: seq<Uuid>, q: Query)
    ensures forall c :: c in Candidates(sources, uuids, q) ==>
      c.uuid in uuids && Counts(sources, c.uuid, q) && c.matches == Matches(sources[c.uuid], q)
    ensures forall u :: u in uuids && Counts(sources, u, q) ==>
      Candidate(u, Matches(sources[u], q)) in Candidates(sources, uuids, q)
  {
    if uuids != [] {
      CandidatesMean(sources, uuids[1..], q);
      var cs := Candidates(sources, uuids[1..], q);
      assert forall u :: u in uuids ==> u == uuids[0] || u in uuids[1..];
      assert forall c :: c in Candidates(sources, uuids, q) && c !in cs ==> c.uuid == uuids[0];
    }
  }

  lemma {:induction false} FirstMatchIn(cs: seq<Candidate>)
    ensures FirstMatch(cs).Some? <==> exists c :: c in cs && c.matches
    ensures FirstMatch(cs).Some? ==> FirstMatch(cs).value in cs && FirstMatch(cs).value.matches
  {
    if cs != [] { FirstMatchIn(cs[1..]); }
  }

  /** All uuids in a list of scenes, in search order. */
  function AllUuids(scenes: seq<Scene>): seq<Uuid> {
    if scenes == [] then [] else AllUuids(scenes[..|scenes| - 1]) + Flatten(scenes[|scenes| - 1])
  }

  lemma {:induction false} InScenesIs(sources: Sources, scenes: seq<Scene>, q: Query)
    ensures InScenes(sources, scenes, q) == Candidates(sources, AllUuids(scenes), q)
  {
    if scenes != [] {
      InScenesIs(sources, scenes[..|scenes| - 1], q);
      CandidatesConcat(sources, AllUuids(scenes[..|scenes| - 1]), Flatten(scenes[|scenes| - 1]), q);
    }
  }

  lemma FlattenPut(scene: Scene, at: nat, u: Uuid)
    requires at <= |scene|
    ensures forall x :: x in Flatten(PutIn(scene, at, u)) <==> x == u || x in Flatten(scene)
  {
    FlattenConcat(scene[..at] + [Ref(u)], scene[at..]);
    FlattenConcat(scene[..at], [Ref(u)]);
    FlattenOne(Ref(u));
    FlattenConcat(scene[..at], scene[at..]);
    assert scene[..at] + scene[at..] == scene;
  }

  /** Candidates depend on a source's kind and address only. */
  lemma {:induction false} SameCandidates(s: Sources, t: Sources, uuids: seq<Uuid>, q: Query)
    requires s.Keys == t.Keys && forall u :: u in s ==> s[u].browser == t[u].browser && s[u].url == t[u].url
    ensures Candidates(s, uuids, q) == Candidates(t, uuids, q)
  {
    if uuids != [] { SameCandidates(s, t, uuids[1..], q); }
  }

  function HereUuids(w: World): seq<Uuid> {
    if w.current.Some? && w.current.value < |w.scenes| then Flatten(w.scenes[w.current.value]) else []
  }

  lemma HereIs(w: World, q: Query)
    ensures Here(w, q) == Candidates(w.sources, HereUuids(w), q)
  {
  }

  predicate NoMatchIn(sources: Sources, uuids: seq<Uuid>, q: Query) {
    forall u | u in uuids :: Counts(sources, u, q) ==> !Matches(sources[u], q)
  }

  // ---------------------------------------------------------------- what one press achieves

  /** If u is the only source in the current scene that matches, it is what is found. */
  lemma FoundHere(w: World, env: Env, u: Uuid)
    requires u in HereUuids(w) && Counts(w.sources, u, QueryOf(env)) && Matches(w.sources[u], QueryOf(env))
    requires forall x :: x in HereUuids(w) && x != u && Counts(w.sources, x, QueryOf(env)) ==> !Matches(w.sources[x], QueryOf(env))
    ensures Find(w, env) == Presence(CurrentScene, false, w.sources[u].shutdown, JudgeSound(w.sources[u], env.reaches), Some(u))
  {
    var q := QueryOf(env);
    HereIs(w, q);
    CandidatesMean(w.sources, HereUuids(w), q);
    FirstMatchIn(Here(w, q));
    assert Candidate(u, true) in Here(w, q);
  }

  /** What the search says about the current scene when it does not find a matching overlay there. */
  lemma NothingHere(w: World, env: Env)
    requires Find(w, env).where != CurrentScene || Find(w, env).stale
    ensures NoMatchIn(w.sources, HereUuids(w), QueryOf(env))
  {
    var q := QueryOf(env);
    HereIs(w, q);
    CandidatesMean(w.sources, HereUuids(w), q);
    FirstMatchIn(Here(w, q));
    forall u | u in HereUuids(w) && Counts(w.sources, u, q) ensures !Matches(w.sources[u], q) {
      assert Candidate(u, Matches(w.sources[u], q)) in Here(w, q);
    }
  }

  lemma NewOverlayMatches(env: Env)
    ensures var s := NewOverlay(OverlayUrl(env.base, env.server.token), env);
            && IsOverlay(s, QueryOf(env)) && Matches(s, QueryOf(env))
            && !s.shutdown && JudgeSound(s, env.reaches) == SoundOk
  {
    AddressMatches(env.base, env.server.token);
  }

  lemma AddressMatches(base: string, token: string)
    ensures var url := OverlayUrl(base, token); var prefix := base + OVERLAY_PATH;
            prefix <= url && url[|prefix|..] == token && NamesToken(token, token)
  {
  }

  lemma AddSettles(w: World, env: Env, newId: Uuid, at: nat)
    requires w.current.Some? && w.current.value < |w.scenes| && at <= |w.scenes[w.current.value]|
    requires newId !in w.sources && Offered(w, env) == Add
    ensures Offered(Pressed(w, env, newId, at), env) == NoFix
  {
    hide Find, NewOverlay, JudgeSound, Matches, IsOverlay, Flatten;
    var found := Find(w, env);
    var c := w.current.value;
    var t := Pressed(w, env, newId, at);
    var u := if Reusable(w, found) then found.uuid.value else newId;
    NothingHere(w, env);
    FlattenPut(w.scenes[c], at, u);
    if Reusable(w, found) {
      ReusedMatches(w, env);
    } else {
      NewOverlayMatches(env);
    }
    FoundHere(t, env, u);
  }

  /** An overlay found fresh in another scene is ours, and its details are its source's. */
  lemma ReusedMatches(w: World, env: Env)
    requires Find(w, env).where == OtherScene && !Find(w, env).stale
    ensures var p := Find(w, env);
            && p.uuid.Some? && Counts(w.sources, p.uuid.value, QueryOf(env)) && Matches(w.sources[p.uuid.value], QueryOf(env))
            && p.shutdown == w.sources[p.uuid.value].shutdown && p.sound == JudgeSound(w.sources[p.uuid.value], env.reaches)
  {
    var q := QueryOf(env);
    InScenesIs(w.sources, w.scenes, q);
    CandidatesMean(w.sources, AllUuids(w.scenes), q);
    FirstMatchIn(InScenes(w.sources, w.scenes, q));
    MatchMatches(InScenes(w.sources, w.scenes, q));
  }

  /** Whatever is found is a candidate of one of the scenes searched. */
  lemma FoundIsSearched(w: World, env: Env)
    requires Find(w, env).where != Missing
    ensures var p := Find(w, env);
            && p.uuid.Some? && Counts(w.sources, p.uuid.value, QueryOf(env))
            && (p.uuid.value in HereUuids(w) || p.uuid.value in AllUuids(w.scenes))
  {
    var q := QueryOf(env);
    InScenesIs(w.sources, w.scenes, q);
    HereIs(w, q);
    CandidatesMean(w.sources, AllUuids(w.scenes), q);
    CandidatesMean(w.sources, HereUuids(w), q);
    FirstMatchIn(InScenes(w.sources, w.scenes, q));
    FirstMatchIn(Here(w, q));
  }

  /** A matching overlay anywhere in the search makes the answer current. */
  lemma NotStale(w: World, env: Env, u: Uuid)
    requires u in HereUuids(w) || u in AllUuids(w.scenes)
    requires Counts(w.sources, u, QueryOf(env)) && Matches(w.sources[u], QueryOf(env))
    ensures Find(w, env).where != Missing && !Find(w, env).stale
  {
    var q := QueryOf(env);
    InScenesIs(w.sources, w.scenes, q);
    HereIs(w, q);
    CandidatesMean(w.sources, AllUuids(w.scenes), q);
    CandidatesMean(w.sources, HereUuids(w), q);
    FirstMatchIn(InScenes(w.sources, w.scenes, q));
    FirstMatchIn(Here(w, q));
    assert Candidate(u, true) in Here(w, q) || Candidate(u, true) in InScenes(w.sources, w.scenes, q);
  }

  lemma UpdateSettles(w: World, env: Env, newId: Uuid, at: nat)
    requires w.current.Some? ==> w.current.value < |w.scenes| && at <= |w.scenes[w.current.value]|
    requires Offered(w, env) == Update
    ensures Offered(Pressed(w, env, newId, at), env) == NoFix
  {
    hide Find, Matches, Flatten;
    FoundIsSearched(w, env);
    var u := Find(w, env).uuid.value;
    var t := Pressed(w, env, newId, at);
    assert HereUuids(t) == HereUuids(w);
    UrlMatches(t.sources[u], env);
    NotStale(t, env, u);
  }

  lemma UrlMatches(s: Source, env: Env)
    requires s.browser && s.url == OverlayUrl(env.base, env.server.token)
    ensures IsOverlay(s, QueryOf(env)) && Matches(s, QueryOf(env))
  {
    AddressMatches(env.base, env.server.token);
  }

  /** A sound fix changes nothing about where the overlay is, and leaves its sound right. */
  lemma SoundSettles(w: World, env: Env, u: Uuid)
    requires Find(w, env).uuid == Some(u) && u in w.sources
    ensures Find(Monitored(w, u, env.reaches), env) == Find(w, env).(sound := SoundOk)
  {
    hide Matches, IsOverlay, Flatten;
    var q := QueryOf(env);
    var t := Monitored(w, u, env.reaches);
    InScenesIs(w.sources, w.scenes, q);
    InScenesIs(t.sources, w.scenes, q);
    HereIs(w, q);
    HereIs(t, q);
    SameCandidates(w.sources, t.sources, AllUuids(w.scenes), q);
    SameCandidates(w.sources, t.sources, HereUuids(w), q);
  }

  // ---------------------------------------------------------------- the loop closes

  /** Pressing what is offered: with the server's facts and the audio routing fixed and each action succeeding, one press
      is enough, except that a sound fix on an overlay in another scene may be followed by adding it to this one. */
  lemma OnePress(w: World, env: Env, newId: Uuid, at: nat)
    requires w.current.Some? && w.current.value < |w.scenes| && at <= |w.scenes[w.current.value]| && newId !in w.sources
    ensures var next := Offered(Pressed(w, env, newId, at), env);
            next == NoFix
            || (next == Add && (Offered(w, env) == Listen || Offered(w, env) == SoundFix) && Find(w, env).where == OtherScene)
  {
    hide Find, Added, Redirected;
    if Offered(w, env) == Add {
      AddSettles(w, env, newId, at);
    } else if Offered(w, env) == Update {
      UpdateSettles(w, env, newId, at);
    } else if Offered(w, env) != NoFix {
      FoundIsSearched(w, env);
      SoundSettles(w, env, Find(w, env).uuid.value);
    }
  }

  /** How many items the current scene has, and so where a new one can go. */
  function Room(w: World): nat {
    if w.current.Some? && w.current.value < |w.scenes| then |w.scenes[w.current.value]| else 0
  }

  /** At most two presses reach a state that offers no fix, whatever the collection looks like and wherever a new item
      lands in the scene's order; neither changes which scene is current or how many there are. */
  lemma FixConverges(w: World, env: Env, firstId: Uuid, firstAt: nat, secondId: Uuid, secondAt: nat)
    requires w.current.Some? && w.current.value < |w.scenes| && firstAt <= Room(w) && firstId !in w.sources
    requires var v := Pressed(w, env, firstId, firstAt); secondId !in v.sources && secondAt <= Room(v)
    ensures var v := Pressed(w, env, firstId, firstAt); v.current == w.current && |v.scenes| == |w.scenes|
    ensures Offered(Pressed(Pressed(w, env, firstId, firstAt), env, secondId, secondAt), env) == NoFix
    ensures env.server.token != "" ==> ButtonEnabled(Offered(w, env), env.server.token)
  {
    hide Find, Pressed;
    PressedFrame(w, env, firstId, firstAt);
    OnePress(w, env, firstId, firstAt);
    var v := Pressed(w, env, firstId, firstAt);
    OnePress(v, env, secondId, secondAt);
  }

  lemma PressedFrame(w: World, env: Env, newId: Uuid, at: nat)
    requires w.current.Some? && w.current.value < |w.scenes| && at <= Room(w)
    ensures var v := Pressed(w, env, newId, at); v.current == w.current && |v.scenes| == |w.scenes|
  {
    hide Find, Offered;
  }
}
