/** The choice of the listening track: the bitmask arithmetic of src/audio/audio-tap.cpp and resolve_track() of
    src/audio/audio-loop.cpp. */
module Tracks {
  import opened Basics

  const MAX_AUDIO_MIXES := 6
  const ALL_MIXES: bv32 := 0x3f

  /** 1u << index */
  function Bit(index: nat): bv32
    requires index < MAX_AUDIO_MIXES
  {
    (1 as bv32) << index
  }

  predicate Meets(mask: bv32, bits: bv32) {
    mask & bits != 0
  }

  predicate HasBit(mask: bv32, index: nat)
    requires index < MAX_AUDIO_MIXES
  {
    Meets(mask, Bit(index))
  }

  function Without(mask: bv32, bits: bv32): bv32 {
    mask & !bits
  }

  function With(mask: bv32, bits: bv32): bv32 {
    mask | bits
  }

  // ---------------------------------------------------------------- bits

  lemma BitValues()
    ensures Bit(0) == 1 && Bit(1) == 2 && Bit(2) == 4 && Bit(3) == 8 && Bit(4) == 16 && Bit(5) == 32
  {
  }

  lemma OneOfSix(t: nat)
    requires t < MAX_AUDIO_MIXES
    ensures var m := Bit(t); m != 0 && m & ALL_MIXES == m
  {
    BitValues();
    hide Bit;
    if t == 0 {} else if t == 1 {} else if t == 2 {} else if t == 3 {} else if t == 4 {} else { assert t == 5; }
  }

  lemma Distinct(t: nat, i: nat)
    requires t < i < MAX_AUDIO_MIXES
    ensures Bit(t) & Bit(i) == 0
  {
    BitValues();
    hide Bit;
    if t == 0 {
      if i == 1 {} else if i == 2 {} else if i == 3 {} else if i == 4 {} else { assert i == 5; }
    } else if t == 1 {
      if i == 2 {} else if i == 3 {} else if i == 4 {} else { assert i == 5; }
    } else if t == 2 {
      if i == 3 {} else if i == 4 {} else { assert i == 5; }
    } else if t == 3 {
      if i == 4 {} else { assert i == 5; }
    } else {
      assert t == 4 && i == 5;
    }
  }

  lemma OrNeither(a: bv32, b: bv32, m: bv32)
    requires !Meets(a, m) && !Meets(b, m)
    ensures !Meets(With(a, b), m)
  {
  }

  lemma OrFirst(a: bv32, b: bv32, m: bv32)
    requires Meets(a, m)
    ensures Meets(With(a, b), m)
  {
  }

  lemma OrCommutes(a: bv32, b: bv32)
    ensures With(a, b) == With(b, a)
  {
  }

  lemma OrMask(a: bv32, b: bv32, m: bv32)
    ensures Meets(With(a, b), m) <==> Meets(a, m) || Meets(b, m)
  {
    hide With, Meets;
    OrCommutes(a, b);
    if Meets(a, m) { OrFirst(a, b, m); } else if Meets(b, m) { OrFirst(b, a, m); } else { OrNeither(a, b, m); }
  }

  lemma LowMask(a: bv32, m: bv32)
    requires m & ALL_MIXES == m
    ensures Meets(a & ALL_MIXES, m) <==> Meets(a, m)
  {
    AndAssoc(a, ALL_MIXES, m);
    Commutes(ALL_MIXES, m);
  }

  lemma AndAssoc(a: bv32, b: bv32, c: bv32)
    ensures (a & b) & c == a & (b & c)
  {
  }

  lemma Commutes(a: bv32, b: bv32)
    ensures a & b == b & a
  {
  }

  lemma NotMask(m: bv32, n: bv32)
    requires m & n == 0
    ensures !n & m == m
  {
  }

  lemma NotItself(n: bv32)
    ensures !n & n == 0
  {
  }

  /** Clearing bits leaves disjoint ones alone. */
  lemma ClearMask(a: bv32, n: bv32, m: bv32)
    ensures !Meets(Without(a, n), n)
    ensures m & n == 0 ==> (Meets(Without(a, n), m) <==> Meets(a, m))
  {
    AndAssoc(a, !n, n);
    NotItself(n);
    if m & n == 0 {
      AndAssoc(a, !n, m);
      NotMask(m, n);
    }
  }

  lemma BitOr(a: bv32, b: bv32, t: nat)
    requires t < MAX_AUDIO_MIXES
    ensures HasBit(With(a, b), t) <==> HasBit(a, t) || HasBit(b, t)
  {
    hide Bit, Meets, With;
    OrMask(a, b, Bit(t));
  }

  lemma BitLow(a: bv32, t: nat)
    requires t < MAX_AUDIO_MIXES
    ensures HasBit(a & ALL_MIXES, t) <==> HasBit(a, t)
  {
    hide Bit, Meets;
    OneOfSix(t);
    LowMask(a, Bit(t));
  }

  lemma BitAnd(t: nat, i: nat)
    requires t < MAX_AUDIO_MIXES && i < MAX_AUDIO_MIXES && t != i
    ensures Bit(t) & Bit(i) == 0
  {
    hide Bit;
    if t < i {
      Distinct(t, i);
    } else {
      Distinct(i, t);
      Commutes(Bit(t), Bit(i));
    }
  }

  lemma BitOfBit(i: nat, t: nat)
    requires t < MAX_AUDIO_MIXES && i < MAX_AUDIO_MIXES
    ensures HasBit(Bit(i), t) <==> i == t
  {
    hide Bit;
    OneOfSix(i);
    if i != t { BitAnd(i, t); } else { Same(Bit(i)); }
  }

  lemma Same(a: bv32)
    ensures a & a == a
  {
  }

  /** Clearing or setting one bit leaves the others alone. */
  lemma BitEdit(a: bv32, i: nat, t: nat)
    requires t < MAX_AUDIO_MIXES && i < MAX_AUDIO_MIXES
    ensures HasBit(Without(a, Bit(i)), t) <==> HasBit(a, t) && i != t
    ensures HasBit(With(a, Bit(i)), t) <==> HasBit(a, t) || i == t
  {
    hide Bit, Meets, With, Without;
    if i != t { BitAnd(t, i); }
    ClearMask(a, Bit(i), Bit(t));
    BitOr(a, Bit(i), t);
    BitOfBit(i, t);
  }

  // ---------------------------------------------------------------- the profile

  /** The settings output_tracks reads. Numbers are OBS's 64-bit ints, strings may be missing. */
  datatype Profile = Profile(
    mode: string, trackIndex: int, multiTrackMixes: int, vodTrackEnabled: bool, vodTrackIndex: int,
    recType: string, ffAudioMixes: int, recTracks: int, flvTrack: int,
    simpleVodTrackEnabled: bool, simpleRecQuality: string, simpleRecTracks: int)

  /** The mask of a track number counted from 1; numbers out of range have none. */
  function TrackBit(oneBased: int): bv32 {
    if 1 <= oneBased <= MAX_AUDIO_MIXES then Bit(oneBased - 1) else 0
  }

  /** The cast keeps the low 32 bits. */
  function ToU32(v: int): bv32 {
    (v % 0x1_0000_0000) as bv32
  }

  /** Some output of the profile carries track t. */
  predicate Sends(p: Profile, t: nat)
    requires t < MAX_AUDIO_MIXES
  {
    if p.mode == "Advanced" then
      || p.trackIndex == t + 1
      || HasBit(ToU32(p.multiTrackMixes), t)
      || (p.vodTrackEnabled && p.vodTrackIndex == t + 1)
      || (if p.recType == "FFmpeg" then HasBit(ToU32(p.ffAudioMixes), t)
          else HasBit(ToU32(p.recTracks), t) || p.flvTrack == t + 1)
    else
      || t == 0
      || (p.simpleVodTrackEnabled && t == 1)
      || (p.simpleRecQuality != "Stream" && HasBit(ToU32(p.simpleRecTracks), t))
  }

  /** The outputs that can carry audio, each with the one setting that says which tracks it takes. */
  datatype Output = Stream | MultiTrack | AdvancedVod | FfmpegFile | RecordedMask | FlvFile | SimpleStream | SimpleVod | SimpleFile

  predicate Carries(p: Profile, o: Output, t: nat)
    requires t < MAX_AUDIO_MIXES
  {
    var advanced := p.mode == "Advanced";
    match o
    case Stream => advanced && p.trackIndex == t + 1
    case MultiTrack => advanced && HasBit(ToU32(p.multiTrackMixes), t)
    case AdvancedVod => advanced && p.vodTrackEnabled && p.vodTrackIndex == t + 1
    case FfmpegFile => advanced && p.recType == "FFmpeg" && HasBit(ToU32(p.ffAudioMixes), t)
    case RecordedMask => advanced && p.recType != "FFmpeg" && HasBit(ToU32(p.recTracks), t)
    case FlvFile => advanced && p.recType != "FFmpeg" && p.flvTrack == t + 1
    case SimpleStream => !advanced && t == 0
    case SimpleVod => !advanced && p.simpleVodTrackEnabled && t == 1
    case SimpleFile => !advanced && p.simpleRecQuality != "Stream" && HasBit(ToU32(p.simpleRecTracks), t)
  }

  /** A track is sent exactly when some output carries it. */
  lemma SendsMeans(p: Profile, t: nat)
    requires t < MAX_AUDIO_MIXES
    ensures Sends(p, t) <==> exists o :: Carries(p, o, t)
  {
    hide HasBit, ToU32;
    if Sends(p, t) {
      var o := if p.mode == "Advanced" then
                 if p.trackIndex == t + 1 then Stream
                 else if HasBit(ToU32(p.multiTrackMixes), t) then MultiTrack
                 else if p.vodTrackEnabled && p.vodTrackIndex == t + 1 then AdvancedVod
                 else if p.recType == "FFmpeg" then FfmpegFile
                 else if p.flvTrack == t + 1 then FlvFile else RecordedMask
               else if t == 0 then SimpleStream
               else if p.simpleVodTrackEnabled && t == 1 then SimpleVod else SimpleFile;
      assert Carries(p, o, t);
    }
  }

  lemma BitOfTrack(oneBased: int, t: nat)
    requires t < MAX_AUDIO_MIXES
    ensures HasBit(TrackBit(oneBased), t) <==> oneBased == t + 1
  {
    hide Bit, Meets;
    if 1 <= oneBased <= MAX_AUDIO_MIXES { BitOfBit(oneBased - 1, t); } else { NoBits(Bit(t)); }
  }

  lemma NoBits(m: bv32)
    ensures !Meets(0, m)
  {
  }

  /** used |= more, one track at a time. */
  method Add(used: bv32, more: bv32) returns (r: bv32)
    ensures forall t: nat :: t < MAX_AUDIO_MIXES ==> (HasBit(r, t) <==> HasBit(used, t) || HasBit(more, t))
  {
    hide Bit, Meets, HasBit, With;
    r := With(used, more);
    forall t: nat | t < MAX_AUDIO_MIXES ensures HasBit(r, t) <==> HasBit(used, t) || HasBit(more, t) {
      BitOr(used, more, t);
    }
  }

  method AddTrack(used: bv32, oneBased: int) returns (r: bv32)
    ensures forall t: nat :: t < MAX_AUDIO_MIXES ==> (HasBit(r, t) <==> HasBit(used, t) || oneBased == t + 1)
  {
    hide Bit, Meets, HasBit, TrackBit;
    r := Add(used, TrackBit(oneBased));
    forall t: nat | t < MAX_AUDIO_MIXES ensures HasBit(r, t) <==> HasBit(used, t) || oneBased == t + 1 {
      BitOfTrack(oneBased, t);
    }
  }

  /** The mask of Sends; a missing profile counts as one that sends all six. */
  method OutputTracks(profile: Option<Profile>) returns (used: bv32)
    ensures forall t: nat :: t < MAX_AUDIO_MIXES ==> (HasBit(used, t) <==> profile.None? || Sends(profile.value, t))
    ensures used & ALL_MIXES == used
  {
    hide Bit, Meets, HasBit, ToU32;
    if profile.None? {
      forall t: nat | t < MAX_AUDIO_MIXES ensures HasBit(ALL_MIXES, t) { AllHave(t); }
      return ALL_MIXES;
    }
    var p := profile.value;
    var sum: bv32 := 0;
    forall t: nat | t < MAX_AUDIO_MIXES ensures !HasBit(0, t) { NoneHas(t); }
    if p.mode == "Advanced" {
      sum := AddTrack(sum, p.trackIndex);
      sum := Add(sum, ToU32(p.multiTrackMixes));
      if p.vodTrackEnabled {
        sum := AddTrack(sum, p.vodTrackIndex);
      }
      if p.recType == "FFmpeg" {
        sum := Add(sum, ToU32(p.ffAudioMixes));
      } else {
        sum := Add(sum, ToU32(p.recTracks));
        sum := AddTrack(sum, p.flvTrack);
      }
    } else {
      sum := AddTrack(sum, 1);
      if p.simpleVodTrackEnabled {
        sum := AddTrack(sum, 2);
      }
      if p.simpleRecQuality != "Stream" {
        sum := Add(sum, ToU32(p.simpleRecTracks));
      }
    }
    used := sum & ALL_MIXES;
    forall t: nat | t < MAX_AUDIO_MIXES ensures HasBit(used, t) <==> HasBit(sum, t) { BitLow(sum, t); }
    Twice(sum, ALL_MIXES);
  }

  lemma Twice(a: bv32, m: bv32)
    ensures (a & m) & m == a & m
  {
  }

  lemma NoneHas(t: nat)
    requires t < MAX_AUDIO_MIXES
    ensures !HasBit(0, t)
  {
    hide Bit;
    NoBits(Bit(t));
  }

  lemma AllHave(t: nat)
    requires t < MAX_AUDIO_MIXES
    ensures HasBit(ALL_MIXES, t)
  {
    OneOfSix(t);
    hide Bit;
    Commutes(ALL_MIXES, Bit(t));
  }

  // ---------------------------------------------------------------- picking a track

  ghost predicate AllTaken(taken: bv32) {
    forall t: nat :: t < MAX_AUDIO_MIXES ==> HasBit(taken, t)
  }

  /** The free track find_free settles on: the highest. */
  ghost predicate HighestFree(taken: bv32, index: int) {
    && 0 <= index < MAX_AUDIO_MIXES && !HasBit(taken, index)
    && forall t: nat :: index < t < MAX_AUDIO_MIXES ==> HasBit(taken, t)
  }

  method FindFree(taken: bv32) returns (index: int)
    ensures index == -1 <==> AllTaken(taken)
    ensures index != -1 ==> HighestFree(taken, index)
  {
    hide Bit, Meets, HasBit;
    index := MAX_AUDIO_MIXES - 1;
    while index >= 0
      invariant -1 <= index < MAX_AUDIO_MIXES
      invariant forall t: nat :: index < t < MAX_AUDIO_MIXES ==> HasBit(taken, t)
    {
      if !HasBit(taken, index) {
        return;
      }
      index := index - 1;
    }
  }

  /** A source as the mixer sees it. */
  datatype AudioSource = AudioSource(hasAudio: bool, mixers: bv32)

  function Stripped(s: AudioSource, index: nat): AudioSource
    requires index < MAX_AUDIO_MIXES
  {
    if s.hasAudio && HasBit(s.mixers, index) then s.(mixers := Without(s.mixers, Bit(index))) else s
  }

  function Cleared(sources: map<nat, AudioSource>, index: nat): map<nat, AudioSource>
    requires index < MAX_AUDIO_MIXES
  {
    map u | u in sources :: Stripped(sources[u], index)
  }

  /** Clearing a track takes it away from every source with audio and changes no other bit of any. */
  lemma ClearedMeans(sources: map<nat, AudioSource>, index: nat, u: nat, t: nat)
    requires index < MAX_AUDIO_MIXES && t < MAX_AUDIO_MIXES && u in sources
    ensures var before := sources[u]; var after := Cleared(sources, index)[u];
            && after.hasAudio == before.hasAudio
            && (HasBit(after.mixers, t) <==> HasBit(before.mixers, t) && !(t == index && before.hasAudio))
  {
    hide Bit, Meets, HasBit, Without;
    BitEdit(sources[u].mixers, index, t);
  }

  /** remembered is the track in the settings, -1 for none yet; saves counts config::set(). */
  datatype Choice = Choice(track: int, remembered: int, sources: map<nat, AudioSource>, saves: nat)

  predicate Proper(c: Choice) {
    -1 <= c.remembered < MAX_AUDIO_MIXES
  }

  class AudioTracks {
    var track: int
    var remembered: int
    var sources: map<nat, AudioSource>
    var saves: nat

    ghost function Snapshot(): Choice
      reads this
    {
      Choice(track, remembered, sources, saves)
    }

    constructor (remembered: int, sources: map<nat, AudioSource>)
      ensures Snapshot() == Choice(-1, remembered, sources, 0)
    {
      this.track, this.remembered, this.sources, this.saves := -1, remembered, sources, 0;
    }

    /** No source feeds the track any longer. */
    method ClearTrack(index: nat)
      requires index < MAX_AUDIO_MIXES
      modifies this`sources
      ensures sources == Cleared(old(sources), index)
    {
      hide Bit, Meets, HasBit, Without;
      var left := sources.Keys;
      while left != {}
        modifies this`sources
        invariant left <= sources.Keys == old(sources).Keys
        invariant forall u :: u in sources ==>
          sources[u] == if u in left then old(sources)[u] else Stripped(old(sources)[u], index)
        decreases |left|
      {
        var u :| u in left;
        var s := sources[u];
        if s.hasAudio {
          if HasBit(s.mixers, index) {
            sources := sources[u := s.(mixers := Without(s.mixers, Bit(index)))];
          }
        }
        left := left - {u};
      }
    }

    /** Sets or clears the bit of one source; a source that does not exist changes nothing. */
    method SetSourceHeard(u: nat, index: nat, heard: bool)
      requires index < MAX_AUDIO_MIXES
      modifies this`sources
      ensures sources.Keys == old(sources).Keys
      ensures forall v :: v in sources && v != u ==> sources[v] == old(sources)[v]
      ensures u in sources ==> forall t: nat :: t < MAX_AUDIO_MIXES ==>
        (HasBit(sources[u].mixers, t) <==> if t == index then heard else HasBit(old(sources)[u].mixers, t))
    {
      hide Bit, Meets, HasBit, With, Without;
      if u !in sources {
        return;
      }
      var mixers := sources[u].mixers;
      var next := if heard then With(mixers, Bit(index)) else Without(mixers, Bit(index));
      forall t: nat | t < MAX_AUDIO_MIXES
        ensures HasBit(next, t) <==> if t == index then heard else HasBit(mixers, t)
      {
        BitEdit(mixers, index, t);
      }
      if next != mixers {
        sources := sources[u := sources[u].(mixers := next)];
      }
    }

    /** Settles the track against the profile's outputs; Resolved says how. */
    method ResolveTrack(configured: bool, profile: Option<Profile>) returns (r: int)
      requires Proper(Snapshot())
      modifies this
      ensures r == track && Proper(Snapshot())
      ensures Resolved(old(Snapshot()), Snapshot(), configured, profile)
    {
      hide Bit, Meets, HasBit, Sends, Cleared;
      if !configured {
        return track;
      }
      var taken := OutputTracks(profile);
      assert forall t: nat :: t < MAX_AUDIO_MIXES ==> (Sent(profile, t) <==> HasBit(taken, t));
      if remembered >= 0 && !HasBit(taken, remembered) {
        track := remembered;
        return track;
      }
      track := FindFree(taken);
      if track < 0 {
        return track;
      }
      ClearTrack(track);
      remembered := track;
      saves := saves + 1;
      return track;
    }
  }

  predicate Sent(profile: Option<Profile>, t: nat)
    requires t < MAX_AUDIO_MIXES
  {
    profile.None? || Sends(profile.value, t)
  }

  ghost predicate AllSent(profile: Option<Profile>) {
    forall t: nat :: t < MAX_AUDIO_MIXES ==> Sent(profile, t)
  }

  /** What resolve_track() promises, as a relation between the states before and after. */
  ghost predicate Resolved(a: Choice, b: Choice, configured: bool, profile: Option<Profile>)
    requires Proper(a)
  {
    if !configured then b == a
    else if a.remembered >= 0 && !Sent(profile, a.remembered) then b == a.(track := a.remembered)
    else if AllSent(profile) then b == a.(track := -1)
    else
      && 0 <= b.track < MAX_AUDIO_MIXES && !Sent(profile, b.track)
      && (forall t: nat :: b.track < t < MAX_AUDIO_MIXES ==> Sent(profile, t))
      && b == Choice(b.track, b.track, Cleared(a.sources, b.track), a.saves + 1)
  }

  /** Signed in, the co-host listens on a track no output sends, or on none exactly when all six are sent; a new one is the
      highest there is. */
  lemma ResolvesToFree(a: Choice, b: Choice, profile: Option<Profile>)
    requires Proper(a) && Resolved(a, b, true, profile)
    ensures b.track == -1 <==> AllSent(profile)
    ensures b.track != -1 ==> 0 <= b.track < MAX_AUDIO_MIXES && !Sent(profile, b.track)
    ensures b.track != -1 && b.track != a.remembered ==> forall t: nat :: b.track < t < 6 ==> Sent(profile, t)
  {
    hide Sends, Cleared;
    if a.remembered >= 0 && !Sent(profile, a.remembered) { assert b.track == a.remembered; }
  }

  /** A second call with an unchanged profile edits no source and saves nothing. */
  lemma ResolvesOnce(a: Choice, b: Choice, c: Choice, configured: bool, profile: Option<Profile>)
    requires Proper(a) && Resolved(a, b, configured, profile) && Proper(b) && Resolved(b, c, configured, profile)
    ensures c == b
  {
    hide Sends, Cleared;
  }

  /** The remembered track is free, and so is taken up again. */
  predicate Readopts(c: Choice, profile: Option<Profile>)
    requires Proper(c)
  {
    c.remembered >= 0 && !Sent(profile, c.remembered)
  }

  /** Signed in, the remembered track sent or none, and another one free. */
  ghost predicate Moves(c: Choice, configured: bool, profile: Option<Profile>)
    requires Proper(c)
  {
    configured && !Readopts(c, profile) && !AllSent(profile)
  }

  /** Sources are edited and the settings saved exactly when a new track is picked, and then only in that track's bit;
      exactly then the remembered track changes. */
  lemma EditsOnlyTheNewTrack(a: Choice, b: Choice, configured: bool, profile: Option<Profile>, u: nat, t: nat)
    requires Proper(a) && Resolved(a, b, configured, profile) && u in a.sources && t < MAX_AUDIO_MIXES
    ensures b.sources.Keys == a.sources.Keys
    ensures b.remembered != a.remembered <==> Moves(a, configured, profile)
    ensures !Moves(a, configured, profile) ==> b.sources == a.sources && b.saves == a.saves
    ensures Moves(a, configured, profile) ==>
      && b.saves == a.saves + 1 && b.track == b.remembered
      && (HasBit(b.sources[u].mixers, t) <==> HasBit(a.sources[u].mixers, t) && !(t == b.track && a.sources[u].hasAudio))
  {
    hide Sends, Bit, Meets, HasBit;
    if Moves(a, configured, profile) { ClearedMeans(a.sources, b.track, u, t); }
  }

  /** Something with audio is routed to the track. */
  ghost predicate Heard(sources: map<nat, AudioSource>, t: nat)
    requires t < MAX_AUDIO_MIXES
  {
    exists u :: u in sources && sources[u].hasAudio && HasBit(sources[u].mixers, t)
  }

  /** Exactly when the co-host starts out hearing something nobody ticked for it: the remembered track is free, so it is
      taken up without being cleared, and something with audio is routed to it. A newly picked track is always silent. */
  lemma ReadoptedTrackKeepsSources(a: Choice, b: Choice, profile: Option<Profile>)
    requires Proper(a) && Resolved(a, b, true, profile) && b.track != -1
    ensures 0 <= b.track < MAX_AUDIO_MIXES
    ensures Heard(b.sources, b.track) <==> Readopts(a, profile) && Heard(a.sources, a.remembered)
  {
    hide Sends, Bit, Meets, HasBit;
    if !Readopts(a, profile) {
      forall u | u in b.sources && b.sources[u].hasAudio ensures !HasBit(b.sources[u].mixers, b.track) {
        ClearedMeans(a.sources, b.track, u, b.track);
      }
    }
  }

  /** A track that is taken and freed again: while all six are sent the co-host has none but remembers its own; whatever
      is routed there meanwhile is heard once the track is free, with no source edited and nothing saved. */
  lemma TakenFreedReadopted(a: Choice, b: Choice, c: Choice, d: Choice, busy: Option<Profile>, free: Option<Profile>)
    requires Proper(a) && a.remembered >= 0
    requires AllSent(busy) && Resolved(a, b, true, busy)
    requires c == b.(sources := c.sources)
    requires !Sent(free, a.remembered) && Resolved(c, d, true, free)
    ensures b.track == -1 && b.sources == a.sources
    ensures d == c.(track := a.remembered) && d.saves == a.saves
    ensures Heard(d.sources, d.track) <==> Heard(c.sources, a.remembered)
  {
    hide Sends, HasBit;
    ReadoptedTrackKeepsSources(c, d, free);
  }

  /** The sequence as calls: the co-host takes a silent track, loses it to the outputs, the streamer routes a source there
      for them, and the co-host gets the track back with that source on it. */
  method LosesAndRegains(u: nat, free: Option<Profile>, busy: Option<Profile>)
    returns (first: int, second: int, third: int, mixers: bv32)
    requires !AllSent(free) && AllSent(busy)
    ensures 0 <= first < MAX_AUDIO_MIXES && second == -1 && third == first
    ensures HasBit(mixers, first)
  {
    hide Sends, Bit, Meets, HasBit;
    var tracks := new AudioTracks(-1, map[u := AudioSource(true, 0)]);
    first := tracks.ResolveTrack(true, free);
    second := tracks.ResolveTrack(true, busy);
    tracks.SetSourceHeard(u, first, true);
    third := tracks.ResolveTrack(true, free);
    mixers := tracks.sources[u].mixers;
  }
}
