/** src/audio/vad-segmenter.cpp in its own imperative form, proved to compute VadSpec. */
module VadSegmenter {
  import opened Basics
  import opened Wav
  import opened VadSpec

  /** One utterance, ready to post. The wall-clock stamp is not modelled. */
  datatype Segment = Segment(wav: seq<Byte>, durationMs: nat)

  function Zeros(n: nat): (z: seq<Sample>)
    ensures |z| == n
  {
    seq(n, _ => SILENCE)
  }

  function Cut(stream: seq<Sample>, lo: nat, hi: nat): seq<Sample> {
    if lo <= hi <= |stream| then stream[lo..hi] else []
  }

  /** What a slice of the stream sounds like once posted: the slice, then 100 ms of silence. */
  function AudioOf(stream: seq<Sample>, s: Slice): seq<Sample> {
    Cut(stream, s.From(), s.closedAt) + Zeros(POST_ROLL)
  }

  function SegmentOf(stream: seq<Sample>, s: Slice): Segment {
    var audio := AudioOf(stream, s);
    Segment(WavBytes(audio), SamplesToMs(|audio|))
  }

  function SegmentsOf(stream: seq<Sample>, slices: seq<Slice>): seq<Segment> {
    seq(|slices|, i requires 0 <= i < |slices| => SegmentOf(stream, slices[i]))
  }

  predicate Within(slices: seq<Slice>, n: nat) {
    forall i :: 0 <= i < |slices| ==> slices[i].From() <= slices[i].closedAt <= n
  }

  lemma PrefixCut<T>(s: seq<T>, t: seq<T>, lo: nat, hi: nat)
    requires s <= t && lo <= hi <= |s|
    ensures t[lo..hi] == s[lo..hi]
  {
    forall i | 0 <= i < hi - lo ensures t[lo..hi][i] == s[lo..hi][i] {
      assert t[lo + i] == s[lo + i];
    }
  }

  /** A slice already closed sounds the same however the stream goes on. */
  lemma SameCut(s: seq<Sample>, t: seq<Sample>, x: Slice)
    requires s <= t && x.From() <= x.closedAt <= |s|
    ensures SegmentOf(s, x) == SegmentOf(t, x)
  {
    hide WavBytes, Slice.From;
    PrefixCut(s, t, x.From(), x.closedAt);
  }

  /** Emitted segments do not depend on samples that come later. */
  lemma SegmentsPrefix(s: seq<Sample>, t: seq<Sample>, slices: seq<Slice>)
    requires s <= t && Within(slices, |s|)
    ensures SegmentsOf(s, slices) == SegmentsOf(t, slices)
  {
    hide SegmentOf, Slice.From;
    forall i | 0 <= i < |slices| ensures SegmentOf(s, slices[i]) == SegmentOf(t, slices[i]) {
      SameCut(s, t, slices[i]);
    }
  }

  lemma AppendSlice(stream: seq<Sample>, slices: seq<Slice>, s: Slice)
    ensures SegmentsOf(stream, slices + [s]) == SegmentsOf(stream, slices) + [SegmentOf(stream, s)]
  {
    hide SegmentOf;
  }

  /** The larger magnitude, as std::max(peak, std::fabs(s)) picks it: a NaN never replaces the peak. */
  function MaxAbs(peak: Sample, s: Sample): Sample {
    match s
    case NaN => peak
    case Infinite => Infinite
    case Finite(v) =>
      var a := if v < 0.0 then -v else v;
      if peak.Finite? && peak.value < a then Finite(a) else peak
  }

  class VadSegmenter {
    const oracle: Oracle
    var calls: seq<Call>

    /** What on_segment has been given. */
    var emitted: seq<Segment>

    var window: seq<Sample>
    const preRoll: array<Sample>
    var preRollHead: nat
    var preRollFilled: nat
    var segment: seq<Sample>
    var speaking: bool
    var consecutiveVoice: nat
    var silenceMs: nat
    var silentWindows: nat

    /** Everything pushed so far, and the positions in it the code never needs to know. */
    ghost var fed: seq<Sample>
    ghost var openedAt: nat
    ghost var slices: seq<Slice>

    ghost function State(): Vad
      reads this
    {
      Vad(calls, speaking, openedAt, consecutiveVoice, silenceMs, silentWindows, slices)
    }

    /** The circular pre-roll holds the last min(n, 3200) samples, oldest first from the head. */
    ghost predicate RingHolds()
      reads this`fed, this`preRollHead, this`preRollFilled, preRoll
    {
      && preRoll.Length == PRE_ROLL
      && preRollHead == |fed| % PRE_ROLL
      && preRollFilled == |fed| - FromOf(|fed|)
      && (forall x :: FromOf(|fed|) <= x < |fed| ==> preRoll[x % PRE_ROLL] == fed[x])
      && (forall r :: |fed| <= r < PRE_ROLL ==> preRoll[r] == SILENCE)
    }

    /** The open segment and the emitted ones are cuts of the stream. */
    ghost predicate CutsOfStream()
      reads this`fed, this`segment, this`speaking, this`openedAt, this`emitted, this`slices
    {
      && segment == (if speaking then Cut(fed, FromOf(openedAt), |fed|) else [])
      && emitted == SegmentsOf(fed, slices)
      && Within(slices, |fed|)
      && (speaking ==> FromOf(openedAt) <= |fed|)
    }

    ghost predicate Valid()
      reads this, preRoll
    {
      var k := |fed| / WINDOW;
      && RingHolds()
      && CutsOfStream()
      && State() == After(oracle, fed, k)
      && window == fed[WINDOW * k..]
    }

    constructor (oracle: Oracle)
      ensures Valid() && fed == [] && this.oracle == oracle && fresh(preRoll)
    {
      this.oracle := oracle;
      calls, emitted, window, segment := [], [], [], [];
      preRoll := new Sample[PRE_ROLL](_ => SILENCE);
      preRollHead, preRollFilled := 0, 0;
      speaking := false;
      consecutiveVoice, silenceMs, silentWindows := 0, 0, 0;
      fed, openedAt, slices := [], 0, [];
    }

    /** Feeds a chunk of any length, none included: every field is then that of VadSpec over the whole stream so far. */
    method Push(samples: seq<Sample>)
      requires Valid()
      modifies this, preRoll
      ensures Valid() && fed == old(fed) + samples
      ensures State() == After(oracle, old(fed) + samples, |old(fed) + samples| / WINDOW)
      ensures emitted == SegmentsOf(old(fed) + samples, State().slices)
      ensures window == (old(fed) + samples)[WINDOW * (|old(fed) + samples| / WINDOW)..]
    {
      hide After, RingHolds, SegmentsOf, Within;
      for i := 0 to |samples|
        invariant Valid() && fed == old(fed) + samples[..i]
      {
        PushOne(samples[i]);
      }
    }

    /** One turn of the loop in push(). */
    method PushOne(sample: Sample)
      requires Valid()
      modifies this, preRoll
      ensures Valid() && fed == old(fed) + [sample]
    {
      hide After, WavBytes, Hear, Process, Between, RingHolds, CutsOfStream;
      ghost var k := |fed| / WINDOW;
      ghost var was := fed;
      Take(sample);
      AfterPrefix(oracle, was, fed, k);
      if |window| < WINDOW {
        assert |fed| / WINDOW == k;
        return;
      }
      assert |fed| == WINDOW * (k + 1) && window == Window(fed, k);
      Listen(k);
    }

    /** Pre-roll, open segment and window each get the sample. */
    method Take(sample: Sample)
      requires RingHolds() && CutsOfStream()
      modifies this`fed, this`preRollHead, this`preRollFilled, this`segment, this`window, preRoll
      ensures RingHolds() && CutsOfStream()
      ensures fed == old(fed) + [sample] && window == old(window) + [sample]
    {
      hide WavBytes, SegmentsOf, RingHolds;
      ghost var was := fed;
      Remember(sample);
      if speaking {
        segment := segment + [sample];
      }
      window := window + [sample];
      SegmentsPrefix(was, fed, slices);
    }

    /** Writes the sample over the oldest one. */
    method Remember(sample: Sample)
      requires RingHolds()
      modifies this`preRollHead, this`preRollFilled, this`fed, preRoll
      ensures RingHolds() && fed == old(fed) + [sample]
    {
      ghost var n := |fed|;
      preRoll[preRollHead] := sample;
      preRollHead := (preRollHead + 1) % preRoll.Length;
      preRollFilled := if preRollFilled + 1 < preRoll.Length then preRollFilled + 1 else preRoll.Length;
      fed := fed + [sample];
      forall x | FromOf(n + 1) <= x < n ensures preRoll[x % PRE_ROLL] == fed[x] {
        assert x % PRE_ROLL != n % PRE_ROLL;
      }
    }

    /** A finished window: silence accounting, the model's verdict, and what follows from it. */
    method Listen(ghost k: nat)
      requires RingHolds() && CutsOfStream()
      requires |fed| == WINDOW * (k + 1) && window == Window(fed, k)
      requires State() == After(oracle, fed, k)
      modifies this
      ensures Valid() && fed == old(fed)
    {
      hide WavBytes, Process, Between, Within, SegmentsOf, Hear, Window;
      AlwaysBetween(oracle, fed, k);
      HearFrame(State(), window);
      assert After(oracle, fed, k + 1) == StepWindow(oracle, After(oracle, fed, k), Window(fed, k), |fed|);
      hide After;
      var probability := Predicted();
      window := [];
      ProcessProbability(probability);
    }

    /** Resets the model after a long silence, then asks it about the window. */
    method Predicted() returns (probability: real)
      modifies this`calls, this`silentWindows
      ensures State() == Hear(old(State()), window) && probability == oracle(calls)
    {
      var loud := PeakIsLoud();
      if loud {
        silentWindows := 0;
      } else {
        silentWindows := silentWindows + 1;
        if silentWindows == RESET_AFTER_SILENT_WINDOWS {
          calls := calls + [Reset];
        }
      }
      calls := calls + [Predict(window)];
      probability := oracle(calls);
    }

    method PeakIsLoud() returns (loud: bool)
      ensures loud <==> Loud(window)
    {
      var peak := Finite(0.0);
      for i := 0 to |window|
        invariant !peak.NaN? && (peak.Finite? ==> peak.value >= 0.0)
        invariant LoudSample(peak) <==> exists j :: 0 <= j < i && LoudSample(window[j])
      {
        peak := MaxAbs(peak, window[i]);
      }
      loud := LoudSample(peak);
    }

    method ProcessProbability(probability: real)
      requires |fed| >= WINDOW && RingHolds() && CutsOfStream() && Between(State(), |fed| - WINDOW)
      modifies this
      ensures State() == Process(old(State()), probability, |fed|)
      ensures CutsOfStream() && RingHolds() && fed == old(fed) && window == old(window)
    {
      hide WavBytes, WellSpaced, Within, SegmentsOf;
      if !speaking {
        if probability < ENTER_THRESHOLD {
          consecutiveVoice := 0;
        } else {
          consecutiveVoice := consecutiveVoice + 1;
          if consecutiveVoice >= VOICE_ENTER_WINDOWS {
            StartSegment();
          }
        }
        return;
      }
      if probability >= EXIT_THRESHOLD {
        silenceMs := 0;
      } else {
        silenceMs := silenceMs + WINDOW_MS;
        if silenceMs >= SILENCE_CLOSE_MS {
          CloseSegment(Silence);
          return;
        }
      }
      if SamplesToMs(|segment|) >= MAX_SEGMENT_MS {
        CloseSegment(ForceCut);
      }
    }

    method StartSegment()
      requires RingHolds() && emitted == SegmentsOf(fed, slices) && Within(slices, |fed|)
      modifies this
      ensures RingHolds() && CutsOfStream() && fed == old(fed) && window == old(window)
      ensures State() == old(State()).(speaking := true, openedAt := |fed|, voice := 0, silence := 0)
    {
      hide WavBytes, Within, SegmentsOf, RingHolds;
      speaking := true;
      consecutiveVoice := 0;
      silenceMs := 0;
      segment := OldestFirst();
      openedAt := |fed|;
    }

    /** Copies the pre-roll out of its ring. */
    method OldestFirst() returns (copy: seq<Sample>)
      requires RingHolds()
      ensures copy == fed[FromOf(|fed|)..]
    {
      copy := [];
      var size := preRoll.Length;
      var start := (preRollHead + size - preRollFilled) % size;
      ghost var base := FromOf(|fed|);
      for i := 0 to preRollFilled
        invariant copy == fed[base..base + i]
      {
        RingIndex(|fed|, i);
        copy := copy + [preRoll[(start + i) % size]];
      }
    }

    method CloseSegment(reason: Reason)
      requires RingHolds() && CutsOfStream() && speaking
      modifies this
      ensures RingHolds() && CutsOfStream() && fed == old(fed) && window == old(window)
      ensures State() == Close(old(State()), |fed|, reason)
    {
      hide WavBytes, SamplesToMs, SegmentsOf, SegmentOf, RingHolds, Zeros;
      ghost var slice := Slice(openedAt, |fed|, reason);
      speaking := false;
      consecutiveVoice := 0;
      silenceMs := 0;
      calls := calls + [Reset];
      segment := segment + Zeros(POST_ROLL);
      Deliver(slice);
      segment := [];
    }

    /** Hands a finished segment on, unless it is shorter than a cough. */
    method Deliver(ghost slice: Slice)
      requires emitted == SegmentsOf(fed, slices) && segment == AudioOf(fed, slice)
      modifies this`emitted, this`slices
      ensures emitted == SegmentsOf(fed, slices)
      ensures slices == if SamplesToMs(|segment|) >= MIN_SEGMENT_MS then old(slices) + [slice] else old(slices)
    {
      hide WavBytes, SamplesToMs, SegmentsOf, AudioOf;
      var durationMs := SamplesToMs(|segment|);
      if durationMs >= MIN_SEGMENT_MS {
        var wav := EncodeWav(segment);
        AppendSlice(fed, slices, slice);
        emitted := emitted + [Segment(wav, durationMs)];
        slices := slices + [slice];
      }
    }
  }

  lemma RingIndex(n: nat, i: nat)
    requires i < n - FromOf(n)
    ensures var start := (n % PRE_ROLL + PRE_ROLL - (n - FromOf(n))) % PRE_ROLL;
            (start + i) % PRE_ROLL == (FromOf(n) + i) % PRE_ROLL
  {
  }

  // ---------------------------------------------------------------- what the refinement gives

  /** Chunking is invisible: two segmenters over the same model that were fed the same stream, however it was cut into
      calls of push(), agree on every field, every call to the model and every emitted segment. */
  lemma ChunkingIsInvisible(a: VadSegmenter, b: VadSegmenter)
    requires a.Valid() && b.Valid() && a.oracle == b.oracle && a.fed == b.fed
    ensures a.State() == b.State() && a.emitted == b.emitted && a.window == b.window && a.segment == b.segment
    ensures a.preRoll[..] == b.preRoll[..] && a.preRollHead == b.preRollHead && a.preRollFilled == b.preRollFilled
  {
    hide After, SegmentsOf, Within;
    var n := |a.fed|;
    forall r | 0 <= r < PRE_ROLL ensures a.preRoll[r] == b.preRoll[r] {
      if r < n { var x := Latest(n, r); }
    }
    assert a.preRoll[..] == b.preRoll[..];
  }

  /** What the server gets to hear: the cut, every sample as its 16-bit value, then 1600 zeros, and a duration that counts
      whole milliseconds of 16 samples. */
  predicate Plays(segment: Segment, cut: seq<Sample>) {
    && ReadsBack(segment.wav, cut + seq(1600, _ => Finite(0.0)))
    && 16 * segment.durationMs <= |cut| + 1600 < 16 * segment.durationMs + 16
  }

  lemma SegmentPlays(stream: seq<Sample>, s: Slice)
    requires s.From() <= s.closedAt <= |stream| && 36 + 2 * (s.Length() + POST_ROLL) < U32
    ensures Plays(SegmentOf(stream, s), stream[s.From()..s.closedAt])
  {
    hide WavBytes, ReadsBack, Slice.From;
    WavReadsBack(AudioOf(stream, s));
    assert Zeros(POST_ROLL) == seq(1600, _ => Finite(0.0));
  }

  lemma QuantisedCut(cut: seq<Sample>)
    ensures Quantised(cut + Zeros(POST_ROLL)) == Quantised(cut) + seq(POST_ROLL, _ => 0)
  {
    assert Quantise(SILENCE) == 0;
  }

  /** An emitted segment, read back by the WAVE reader, is the quantised slice stream[max(0, opened - 3200)..closed)
      followed by 1600 zeros, at 16 kHz mono, each sample as its 16-bit value. */
  lemma EmittedDecodes(o: Oracle, stream: seq<Sample>, k: nat, i: nat)
    requires WINDOW * k <= |stream| && i < |After(o, stream, k).slices|
    ensures var s := After(o, stream, k).slices[i]; var seg := SegmentOf(stream, s);
            && s.From() <= s.closedAt <= |stream|
            && ParseWav(seg.wav) == Some(Audio(MONO_16K, Quantised(stream[s.From()..s.closedAt]) + seq(POST_ROLL, _ => 0)))
            && Plays(seg, stream[s.From()..s.closedAt])
            && s.From() == (if s.openedAt > 3200 then s.openedAt - 3200 else 0)
            && 804 <= seg.durationMs <= 12108
  {
    hide After, WavBytes, ParseWav, Quantised, ReadsBack, Plays;
    SegmentBounds(o, stream, k, i);
    var s := After(o, stream, k).slices[i];
    SegmentPlays(stream, s);
    WavRoundTrip(AudioOf(stream, s));
    QuantisedCut(stream[s.From()..s.closedAt]);
  }

  /** The newest position below n that maps to cell r. */
  lemma Latest(n: nat, r: nat) returns (x: nat)
    requires r < PRE_ROLL && r < n
    ensures FromOf(n) <= x < n && x % PRE_ROLL == r
  {
    x := n - 1 - (n - 1 - r) % PRE_ROLL;
  }
}
