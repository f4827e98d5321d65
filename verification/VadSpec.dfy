/** The utterance detector as a pure function of the whole sample stream, and what follows for its segments. */
module VadSpec {
  import opened Basics
  import opened Wav

  const WINDOW := 512
  const WINDOW_MS := 32
  const PRE_ROLL := 3200
  const POST_ROLL := 1600
  const MIN_SEGMENT_MS := 500
  const MAX_SEGMENT_MS := 12000
  const SILENCE_CLOSE_MS := 600
  const VOICE_ENTER_WINDOWS := 3
  const ENTER_THRESHOLD := 0.5
  const EXIT_THRESHOLD := 0.35
  const RESET_AFTER_SILENT_WINDOWS := 30
  const SILENT_WINDOW_PEAK := 0.005

  /** The model behind predict() and reset(): any function of the calls made so far. */
  datatype Call = Reset | Predict(frame: seq<Sample>)
  type Oracle = seq<Call> -> real

  datatype Reason = Silence | ForceCut

  /** A segment opened after `openedAt` samples of the stream and closed after `closedAt`. */
  datatype Slice = Slice(openedAt: nat, closedAt: nat, reason: Reason) {
    /** Where its audio begins: the pre-roll reaches back, but not before the stream. */
    function From(): nat { FromOf(openedAt) }

    function Length(): int { closedAt - From() }

    predicate Contains(x: int) { From() <= x < closedAt }
  }

  function FromOf(openedAt: nat): nat {
    if openedAt > PRE_ROLL then openedAt - PRE_ROLL else 0
  }

  datatype Vad = Vad(calls: seq<Call>, speaking: bool, openedAt: nat, voice: nat, silence: nat, silent: nat,
                     slices: seq<Slice>)

  const INITIAL := Vad([], false, 0, 0, 0, 0, [])

  function SamplesToMs(samples: nat): nat {
    samples * 1000 / SAMPLE_RATE
  }

  predicate LoudSample(s: Sample) {
    s.Infinite? || (s.Finite? && (s.value >= SILENT_WINDOW_PEAK || -s.value >= SILENT_WINDOW_PEAK))
  }

  predicate Loud(w: seq<Sample>) {
    exists i | 0 <= i < |w| :: LoudSample(w[i])
  }

  /** A finished window reaches the model, after a reset when the silence has lasted. */
  function Hear(v: Vad, w: seq<Sample>): Vad {
    if Loud(w) then v.(silent := 0, calls := v.calls + [Predict(w)])
    else if v.silent + 1 == RESET_AFTER_SILENT_WINDOWS
    then v.(silent := v.silent + 1, calls := v.calls + [Reset, Predict(w)])
    else v.(silent := v.silent + 1, calls := v.calls + [Predict(w)])
  }

  function Close(v: Vad, n: nat, reason: Reason): Vad {
    var s := Slice(v.openedAt, n, reason);
    v.(speaking := false, voice := 0, silence := 0, calls := v.calls + [Reset],
       slices := if s.Length() >= 0 && SamplesToMs(s.Length() + POST_ROLL) >= MIN_SEGMENT_MS then v.slices + [s] else v.slices)
  }

  /** The verdict on a window that ends after n samples. */
  function Process(v: Vad, p: real, n: nat): Vad {
    if !v.speaking then
      if p < ENTER_THRESHOLD then v.(voice := 0)
      else if v.voice + 1 >= VOICE_ENTER_WINDOWS then v.(speaking := true, openedAt := n, voice := 0, silence := 0)
      else v.(voice := v.voice + 1)
    else if p < EXIT_THRESHOLD && v.silence + WINDOW_MS >= SILENCE_CLOSE_MS then Close(v, n, Silence)
    else
      var w := v.(silence := if p >= EXIT_THRESHOLD then 0 else v.silence + WINDOW_MS);
      if FromOf(v.openedAt) <= n && SamplesToMs(n - FromOf(v.openedAt)) >= MAX_SEGMENT_MS then Close(w, n, ForceCut) else w
  }

  function StepWindow(o: Oracle, v: Vad, w: seq<Sample>, n: nat): Vad {
    var h := Hear(v, w);
    Process(h, o(h.calls), n)
  }

  function Window(stream: seq<Sample>, k: nat): seq<Sample>
    requires WINDOW * (k + 1) <= |stream|
  {
    stream[WINDOW * k..WINDOW * (k + 1)]
  }

  /** The detector after the first k windows of the stream. */
  function After(o: Oracle, stream: seq<Sample>, k: nat): Vad
    requires WINDOW * k <= |stream|
  {
    if k == 0 then INITIAL
    else StepWindow(o, After(o, stream, k - 1), Window(stream, k - 1), WINDOW * k)
  }

  /** The probability the model gives window k. */
  function Prob(o: Oracle, stream: seq<Sample>, k: nat): real
    requires WINDOW * (k + 1) <= |stream|
  {
    o(Hear(After(o, stream, k), Window(stream, k)).calls)
  }

  /** Windows already heard do not depend on what comes later. */
  lemma {:induction false} AfterPrefix(o: Oracle, s: seq<Sample>, t: seq<Sample>, k: nat)
    requires WINDOW * k <= |s| <= |t| && t[..|s|] == s
    ensures After(o, s, k) == After(o, t, k)
  {
    hide StepWindow;
    if k > 0 {
      AfterPrefix(o, s, t, k - 1);
      assert Window(s, k - 1) == Window(t, k - 1);
    }
  }

  // ---------------------------------------------------------------- the invariant

  function LastClosed(v: Vad): nat {
    if v.slices == [] then 0 else v.slices[|v.slices| - 1].closedAt
  }

  predicate GoodSlice(s: Slice) {
    && s.openedAt % WINDOW == 0 && s.closedAt % WINDOW == 0
    && 3 * WINDOW <= s.openedAt && s.openedAt + 19 * WINDOW <= s.closedAt
    && s.Length() <= 192128
  }

  predicate WellSpaced(slices: seq<Slice>) {
    && (forall i :: 0 <= i < |slices| ==> GoodSlice(slices[i]))
    && (forall i :: 0 < i < |slices| ==> slices[i - 1].closedAt + 3 * WINDOW <= slices[i].openedAt)
  }

  /** What holds between windows, after n samples. */
  predicate Between(v: Vad, n: nat) {
    && n % WINDOW == 0
    && v.voice < VOICE_ENTER_WINDOWS
    && v.silence <= 576 && v.silence % WINDOW_MS == 0
    && WellSpaced(v.slices)
    && LastClosed(v) + WINDOW * v.voice <= n
    && (!v.speaking ==> v.silence == 0)
    && (v.speaking ==>
          && v.voice == 0
          && v.openedAt % WINDOW == 0
          && LastClosed(v) + 3 * WINDOW <= v.openedAt
          && v.openedAt + 16 * v.silence <= n
          && n - FromOf(v.openedAt) < 192000)
  }

  /** Hearing a window changes only the calls and the count of silent windows. */
  lemma HearFrame(v: Vad, w: seq<Sample>)
    ensures Hear(v, w) == v.(calls := Hear(v, w).calls, silent := Hear(v, w).silent)
    ensures forall n :: Between(v, n) ==> Between(Hear(v, w), n)
  {
  }

  lemma CloseKeeps(v: Vad, n: nat, reason: Reason)
    requires WellSpaced(v.slices)
    requires GoodSlice(Slice(v.openedAt, n, reason)) && LastClosed(v) + 3 * WINDOW <= v.openedAt
    ensures Close(v, n, reason).slices == v.slices + [Slice(v.openedAt, n, reason)]
    ensures Between(Close(v, n, reason), n)
  {
    var s := Slice(v.openedAt, n, reason);
    assert SamplesToMs(s.Length() + POST_ROLL) >= MIN_SEGMENT_MS;
  }

  /** A segment is long enough after 19 silent windows, and ends in the window that first reaches 12 s. */
  lemma EndedIsGood(v: Vad, n: nat, reason: Reason)
    requires n >= WINDOW && Between(v, n - WINDOW) && v.speaking
    requires v.silence == 576 || n - FromOf(v.openedAt) >= 192000
    ensures GoodSlice(Slice(v.openedAt, n, reason))
  {
    hide WellSpaced;
  }

  lemma QuietKeeps(v: Vad, p: real, n: nat)
    requires n >= WINDOW && Between(v, n - WINDOW) && !v.speaking
    ensures Between(Process(v, p, n), n) && Process(v, p, n).slices == v.slices
  {
    hide WellSpaced;
  }

  function Ending(v: Vad, p: real): Reason {
    if p < EXIT_THRESHOLD && v.silence == 576 then Silence else ForceCut
  }

  lemma SpeakingKeeps(v: Vad, p: real, n: nat)
    requires n >= WINDOW && Between(v, n - WINDOW) && v.speaking
    ensures var w := Process(v, p, n);
            && Between(w, n)
            && (w.speaking ==> w.slices == v.slices && w.openedAt == v.openedAt)
            && (!w.speaking ==> w.voice == 0 && w.slices == v.slices + [Slice(v.openedAt, n, Ending(v, p))])
  {
    hide WellSpaced, GoodSlice;
    var len := n - FromOf(v.openedAt);
    assert SamplesToMs(len) >= MAX_SEGMENT_MS <==> len >= 192000;
    var silence := if p >= EXIT_THRESHOLD then 0 else v.silence + WINDOW_MS;
    if p < EXIT_THRESHOLD && v.silence == 576 {
      EndedIsGood(v, n, Silence);
      CloseKeeps(v, n, Silence);
    } else if len >= 192000 {
      EndedIsGood(v, n, ForceCut);
      CloseKeeps(v.(silence := silence), n, ForceCut);
      assert Process(v, p, n) == Close(v.(silence := silence), n, ForceCut);
    } else {
      assert Process(v, p, n) == v.(silence := silence);
    }
  }

  lemma StepKeeps(o: Oracle, v: Vad, w: seq<Sample>, n: nat)
    requires n >= WINDOW && Between(v, n - WINDOW)
    ensures Between(StepWindow(o, v, w, n), n)
  {
    hide Between, Process, Hear;
    HearFrame(v, w);
    var h := Hear(v, w);
    if h.speaking { SpeakingKeeps(h, o(h.calls), n); } else { QuietKeeps(h, o(h.calls), n); }
  }

  lemma {:induction false} AlwaysBetween(o: Oracle, stream: seq<Sample>, k: nat)
    requires WINDOW * k <= |stream|
    ensures Between(After(o, stream, k), WINDOW * k)
  {
    hide StepWindow, Window;
    if k > 0 {
      AlwaysBetween(o, stream, k - 1);
      StepKeeps(o, After(o, stream, k - 1), Window(stream, k - 1), WINDOW * k);
    }
  }

  // ---------------------------------------------------------------- single segments

  /** Durations are within [804, 12108] ms and the 32-bit size fields of the file cannot overflow. */
  lemma SegmentBounds(o: Oracle, stream: seq<Sample>, k: nat, i: nat)
    requires WINDOW * k <= |stream| && i < |After(o, stream, k).slices|
    ensures var s := After(o, stream, k).slices[i];
            && s.From() <= s.closedAt <= WINDOW * k
            && 804 <= SamplesToMs(s.Length() + POST_ROLL) <= 12108
            && 36 + 2 * (s.Length() + POST_ROLL) < U32
  {
    hide After;
    AlwaysBetween(o, stream, k);
    var slices := After(o, stream, k).slices;
    ClosedMonotone(slices, i, |slices| - 1);
    GoodBounds(slices[i]);
  }

  lemma GoodBounds(s: Slice)
    requires GoodSlice(s)
    ensures s.From() <= s.closedAt && 804 <= SamplesToMs(s.Length() + POST_ROLL) <= 12108
  {
    assert s.Length() >= 22 * WINDOW;
  }

  lemma {:induction false} ClosedMonotone(slices: seq<Slice>, i: nat, j: nat)
    requires WellSpaced(slices) && i <= j < |slices|
    ensures slices[i].closedAt <= slices[j].closedAt
    ensures i < j ==> slices[i].closedAt + 3 * WINDOW <= slices[j].openedAt
    decreases j - i
  {
    if i < j {
      ClosedMonotone(slices, i, j - 1);
      assert GoodSlice(slices[j]);
    }
  }

  /** The minimum-length test never rejects: a segment that ends is a segment that is emitted. */
  lemma EverySegmentIsEmitted(o: Oracle, stream: seq<Sample>, k: nat)
    requires WINDOW * (k + 1) <= |stream|
    requires After(o, stream, k).speaking && !After(o, stream, k + 1).speaking
    ensures var v := After(o, stream, k);
            var s := Slice(v.openedAt, WINDOW * (k + 1), Ending(v, Prob(o, stream, k)));
            After(o, stream, k + 1).slices == v.slices + [s]
  {
    hide Between, Process, Hear, Window;
    AlwaysBetween(o, stream, k);
    var v := After(o, stream, k);
    var h := Hear(v, Window(stream, k));
    HearFrame(v, Window(stream, k));
    SpeakingKeeps(h, o(h.calls), WINDOW * (k + 1));
  }

  // ---------------------------------------------------------------- neighbouring segments

  /** A segment reopened k >= 3 windows after a close overlaps its predecessor by 3200 - 512k samples, or leaves a gap
      of 512k - 3200; starts and ends strictly increase and no overlap exceeds 1664 samples. */
  lemma SliceSpacing(o: Oracle, stream: seq<Sample>, n: nat, i: nat) returns (k: nat)
    requires WINDOW * n <= |stream| && 0 < i < |After(o, stream, n).slices|
    ensures var s := After(o, stream, n).slices; var a := s[i - 1]; var b := s[i];
            && k >= 3 && b.openedAt == a.closedAt + 512 * k
            && a.closedAt - b.From() == 3200 - 512 * k <= 1664
            && a.From() < b.From() && a.closedAt < b.closedAt
  {
    hide After;
    AlwaysBetween(o, stream, n);
    var s := After(o, stream, n).slices;
    assert GoodSlice(s[i - 1]) && GoodSlice(s[i]);
    k := WholeWindows(s[i - 1].closedAt, s[i].openedAt);
  }

  lemma WholeWindows(from: nat, to: nat) returns (k: nat)
    requires from % WINDOW == 0 && to % WINDOW == 0 && from <= to
    ensures to == from + WINDOW * k
  {
    k := to / WINDOW - from / WINDOW;
  }

  lemma LaterDisjoint(slices: seq<Slice>, i: nat, j: nat)
    requires WellSpaced(slices) && i + 2 <= j < |slices|
    ensures slices[i].closedAt <= slices[j].From()
  {
    ClosedMonotone(slices, i, i + 1);
    ClosedMonotone(slices, i + 1, j);
    assert GoodSlice(slices[i + 1]);
  }

  /** No sample of the stream is in more than two segments. */
  lemma AtMostTwoSegments(o: Oracle, stream: seq<Sample>, n: nat, i: nat, j: nat, l: nat, x: int)
    requires WINDOW * n <= |stream| && i < j < l < |After(o, stream, n).slices|
    ensures var s := After(o, stream, n).slices; !(s[i].Contains(x) && s[l].Contains(x))
  {
    hide After;
    AlwaysBetween(o, stream, n);
    LaterDisjoint(After(o, stream, n).slices, i, l);
  }

  // ---------------------------------------------------------------- when a segment opens and when it ends

  /** The window before m is the third voiced one in a row of a quiet detector: a segment opens after m windows. */
  predicate OpensAt(o: Oracle, stream: seq<Sample>, m: nat)
    requires WINDOW * m <= |stream|
  {
    m > 0 && var v := After(o, stream, m - 1);
    !v.speaking && v.voice + 1 >= VOICE_ENTER_WINDOWS && Prob(o, stream, m - 1) >= ENTER_THRESHOLD
  }

  /** Window w is voiced and was heard while no segment was open. */
  predicate FreshVoice(o: Oracle, stream: seq<Sample>, w: nat)
    requires WINDOW * (w + 1) <= |stream|
  {
    !After(o, stream, w).speaking && Prob(o, stream, w) >= 0.5
  }

  /** How many such windows in a row end after k windows. */
  function VoiceRun(o: Oracle, stream: seq<Sample>, k: nat): nat
    requires WINDOW * k <= |stream|
  {
    if k == 0 || !FreshVoice(o, stream, k - 1) then 0 else 1 + VoiceRun(o, stream, k - 1)
  }

  /** How many windows below the exit threshold in a row end after k windows, counted from window m on. */
  function LowRun(o: Oracle, stream: seq<Sample>, m: nat, k: nat): nat
    requires WINDOW * k <= |stream|
  {
    if k <= m || Prob(o, stream, k - 1) >= 0.35 then 0 else 1 + LowRun(o, stream, m, k - 1)
  }

  /** The 19 windows before c all lie after the opening and below the exit threshold. */
  predicate LowRow(o: Oracle, stream: seq<Sample>, m: nat, c: nat)
    requires WINDOW * c <= |stream|
  {
    m + 19 <= c && forall w: nat | c - 19 <= w < c :: Prob(o, stream, w) < 0.35
  }

  /** What ends a segment that opened after m windows, at the end of window c - 1. */
  predicate Ends(o: Oracle, stream: seq<Sample>, m: nat, c: nat)
    requires WINDOW * c <= |stream|
  {
    LowRow(o, stream, m, c) || WINDOW * c - FromOf(WINDOW * m) >= 192000
  }

  lemma {:induction false} LowRunMeans(o: Oracle, stream: seq<Sample>, m: nat, k: nat, r: nat)
    requires WINDOW * k <= |stream| && r > 0
    ensures LowRun(o, stream, m, k) >= r <==> m + r <= k && forall w: nat | k - r <= w < k :: Prob(o, stream, w) < 0.35
    decreases k
  {
    hide Prob;
    if k > m && Prob(o, stream, k - 1) < 0.35 && r > 1 { LowRunMeans(o, stream, m, k - 1, r - 1); }
  }

  /** How a window changes the counters and when it ends a segment. */
  lemma ProcessMoves(v: Vad, p: real, n: nat)
    requires n >= WINDOW && Between(v, n - WINDOW)
    ensures var t := Process(v, p, n);
            if v.speaking then
              && (t.speaking <==> !(p < 0.35 && v.silence == 576) && n - FromOf(v.openedAt) < 192000)
              && (t.speaking ==> t.openedAt == v.openedAt && t.silence == if p < 0.35 then v.silence + 32 else 0)
              && (!t.speaking ==> t.voice == 0)
            else
              && (t.speaking <==> p >= 0.5 && v.voice == 2)
              && (t.speaking ==> t.openedAt == n && t.silence == 0)
              && (!t.speaking ==> t.voice == if p >= 0.5 then v.voice + 1 else 0)
    ensures var t := Process(v, p, n);
            t.slices == v.slices + if v.speaking && !t.speaking then [Slice(v.openedAt, n, Ending(v, p))] else []
  {
    hide WellSpaced;
    if v.speaking { SpeakingKeeps(v, p, n); }
  }

  /** The same over the stream: what window k does. */
  lemma WindowMoves(o: Oracle, stream: seq<Sample>, k: nat)
    requires WINDOW * (k + 1) <= |stream|
    ensures var v := After(o, stream, k); var t := After(o, stream, k + 1); var p := Prob(o, stream, k);
            && (if v.speaking then
                  && (t.speaking <==> !(p < 0.35 && v.silence == 576) && WINDOW * (k + 1) - FromOf(v.openedAt) < 192000)
                  && (t.speaking ==> t.openedAt == v.openedAt && t.silence == if p < 0.35 then v.silence + 32 else 0)
                  && (!t.speaking ==> t.voice == 0)
                else
                  && (t.speaking <==> p >= 0.5 && v.voice == 2)
                  && (t.speaking ==> t.openedAt == WINDOW * (k + 1) && t.silence == 0)
                  && (!t.speaking ==> t.voice == if p >= 0.5 then v.voice + 1 else 0))
            && t.slices == v.slices + if v.speaking && !t.speaking then [Slice(v.openedAt, WINDOW * (k + 1), Ending(v, p))] else []
  {
    hide Between, Process, Hear, Window;
    AlwaysBetween(o, stream, k);
    var v := After(o, stream, k);
    var h := Hear(v, Window(stream, k));
    HearFrame(v, Window(stream, k));
    ProcessMoves(h, o(h.calls), WINDOW * (k + 1));
  }

  lemma {:induction false} VoiceIsRun(o: Oracle, stream: seq<Sample>, k: nat)
    requires WINDOW * k <= |stream|
    ensures !After(o, stream, k).speaking ==> After(o, stream, k).voice == VoiceRun(o, stream, k)
  {
    hide After;
    if k == 0 {
      assert After(o, stream, 0) == INITIAL by { AfterNothing(o, stream); }
    } else {
      VoiceIsRun(o, stream, k - 1);
      WindowMoves(o, stream, k - 1);
    }
  }

  lemma AfterNothing(o: Oracle, stream: seq<Sample>)
    ensures After(o, stream, 0) == INITIAL
  {
  }

  /** A segment opens after m windows exactly when the last three of them are all voiced and were all heard while none
      was open. */
  lemma OpensExactly(o: Oracle, stream: seq<Sample>, m: nat)
    requires WINDOW * m <= |stream|
    ensures OpensAt(o, stream, m)
       <==> m >= 3 && FreshVoice(o, stream, m - 3) && FreshVoice(o, stream, m - 2) && FreshVoice(o, stream, m - 1)
  {
    hide After, Prob, VoiceRun;
    if m > 0 {
      VoiceIsRun(o, stream, m - 1);
      RunOfTwo(o, stream, m - 1);
    }
  }

  lemma RunOfTwo(o: Oracle, stream: seq<Sample>, k: nat)
    requires WINDOW * k <= |stream|
    ensures VoiceRun(o, stream, k) >= 2 <==> k >= 2 && FreshVoice(o, stream, k - 2) && FreshVoice(o, stream, k - 1)
  {
    hide FreshVoice;
  }

  /** What holds of the segment that is open after k windows. */
  ghost predicate OpenMeans(o: Oracle, stream: seq<Sample>, k: nat)
    requires WINDOW * k <= |stream|
  {
    var v := After(o, stream, k);
    var m := v.openedAt / WINDOW;
    v.speaking ==>
      && m <= k && v.openedAt == WINDOW * m && OpensAt(o, stream, m)
      && v.silence == 32 * LowRun(o, stream, m, k)
      && forall e: nat :: m < e <= k ==> !Ends(o, stream, m, e)
  }

  /** What is said of a closed segment: it opened where OpensAt says, ended at the first window that ends it, and by
      silence exactly if that window is the 19th low one in a row. */
  ghost predicate SliceMeans(o: Oracle, stream: seq<Sample>, s: Slice) {
    var m := s.openedAt / WINDOW;
    var c := s.closedAt / WINDOW;
    && s.openedAt == WINDOW * m && s.closedAt == WINDOW * c && m < c && WINDOW * c <= |stream|
    && OpensAt(o, stream, m) && Ends(o, stream, m, c)
    && (forall e: nat :: m < e < c ==> !Ends(o, stream, m, e))
    && (s.reason == Silence <==> LowRow(o, stream, m, c))
  }

  lemma OpenStep(o: Oracle, stream: seq<Sample>, k: nat)
    requires WINDOW * (k + 1) <= |stream| && OpenMeans(o, stream, k)
    ensures OpenMeans(o, stream, k + 1)
    ensures var v := After(o, stream, k);
            v.speaking && !After(o, stream, k + 1).speaking ==>
              SliceMeans(o, stream, Slice(v.openedAt, WINDOW * (k + 1), Ending(v, Prob(o, stream, k))))
  {
    hide After, Prob, OpensAt, LowRow;
    WindowMoves(o, stream, k);
    OpensHere(o, stream, k);
    var v := After(o, stream, k);
    var m := v.openedAt / WINDOW;
    if v.speaking {
      assert LowRow(o, stream, m, k + 1) <==> LowRun(o, stream, m, k + 1) >= 19 by { RowIsRun(o, stream, m, k + 1); }
      assert m < k ==> !Ends(o, stream, m, k);
      assert LowRun(o, stream, m, k) <= 18 by { RowIsRun(o, stream, m, k); }
    }
  }

  lemma RowIsRun(o: Oracle, stream: seq<Sample>, m: nat, c: nat)
    requires WINDOW * c <= |stream|
    ensures LowRow(o, stream, m, c) <==> LowRun(o, stream, m, c) >= 19
    ensures c <= m ==> LowRun(o, stream, m, c) == 0
  {
    hide Prob;
    LowRunMeans(o, stream, m, c, 19);
  }

  /** Speech that begins in window k begins with an opening. */
  lemma OpensHere(o: Oracle, stream: seq<Sample>, k: nat)
    requires WINDOW * (k + 1) <= |stream|
    ensures !After(o, stream, k).speaking && After(o, stream, k + 1).speaking ==> OpensAt(o, stream, k + 1)
  {
    hide After, Prob;
    WindowMoves(o, stream, k);
  }

  lemma {:induction false} AlwaysMeans(o: Oracle, stream: seq<Sample>, k: nat)
    requires WINDOW * k <= |stream|
    ensures OpenMeans(o, stream, k)
    ensures forall i :: 0 <= i < |After(o, stream, k).slices| ==> SliceMeans(o, stream, After(o, stream, k).slices[i])
  {
    hide After, SliceMeans, OpenMeans;
    if k == 0 {
      AfterNothing(o, stream);
      assert OpenMeans(o, stream, 0) by { OpenNothing(o, stream); }
    } else {
      AlwaysMeans(o, stream, k - 1);
      OpenStep(o, stream, k - 1);
      WindowMoves(o, stream, k - 1);
    }
  }

  lemma OpenNothing(o: Oracle, stream: seq<Sample>)
    ensures OpenMeans(o, stream, 0)
  {
  }

  /** Which segments there are, from the model's verdicts alone. Every emitted one opened at the third fresh voiced window
      in a row, and ended at the first window that completes 19 low ones in a row since, or 12 s. */
  lemma SegmentsMean(o: Oracle, stream: seq<Sample>, k: nat, i: nat)
    requires WINDOW * k <= |stream| && i < |After(o, stream, k).slices|
    ensures SliceMeans(o, stream, After(o, stream, k).slices[i])
  {
    hide After, SliceMeans, OpenMeans;
    AlwaysMeans(o, stream, k);
  }

  /** And the other way round: speech is on after k windows exactly when a segment has opened that nothing has ended. */
  lemma SpeakingExactly(o: Oracle, stream: seq<Sample>, k: nat)
    requires WINDOW * k <= |stream|
    ensures After(o, stream, k).speaking
       <==> exists m: nat :: m <= k && OpensAt(o, stream, m) && forall e: nat :: m < e <= k ==> !Ends(o, stream, m, e)
    ensures After(o, stream, k).speaking ==>
      After(o, stream, k).silence == 32 * LowRun(o, stream, After(o, stream, k).openedAt / WINDOW, k)
  {
    hide After, Ends, OpensAt;
    AlwaysMeans(o, stream, k);
    if m: nat :| m <= k && OpensAt(o, stream, m) && forall e: nat :: m < e <= k ==> !Ends(o, stream, m, e) {
      StaysOpen(o, stream, m, k);
    }
  }

  lemma {:induction false} StaysOpen(o: Oracle, stream: seq<Sample>, m: nat, k: nat)
    requires m <= k && WINDOW * k <= |stream| && OpensAt(o, stream, m)
    requires forall e: nat :: m < e <= k ==> !Ends(o, stream, m, e)
    ensures After(o, stream, k).speaking && After(o, stream, k).openedAt == WINDOW * m
  {
    hide After, LowRow, Prob;
    if k == m {
      AlwaysBetween(o, stream, m - 1);
      WindowMoves(o, stream, m - 1);
    } else {
      StaysOpen(o, stream, m, k - 1);
      WindowMoves(o, stream, k - 1);
      AlwaysMeans(o, stream, k - 1);
      RowIsRun(o, stream, m, k);
      assert !Ends(o, stream, m, k);
    }
  }

  // ---------------------------------------------------------------- what the model is asked

  /** How many windows without a loud sample end after k windows. */
  function QuietRun(stream: seq<Sample>, k: nat): nat
    requires WINDOW * k <= |stream|
  {
    if k == 0 || Loud(Window(stream, k - 1)) then 0 else 1 + QuietRun(stream, k - 1)
  }

  /** A window is loud when a sample of it is infinite or at least 0.005 away from zero; what is no number never counts. */
  lemma LoudMeans(w: seq<Sample>)
    ensures Loud(w) <==> exists i :: 0 <= i < |w| && (w[i] == Infinite || (w[i].Finite? && (w[i].value >= 0.005 || w[i].value <= -0.005)))
  {
    if Loud(w) {
      var i :| 0 <= i < |w| && LoudSample(w[i]);
      assert w[i] == Infinite || (w[i].Finite? && (w[i].value >= 0.005 || w[i].value <= -0.005));
    }
    if i :| 0 <= i < |w| && (w[i] == Infinite || (w[i].Finite? && (w[i].value >= 0.005 || w[i].value <= -0.005))) {
      assert LoudSample(w[i]);
    }
  }

  /** Every window is put to the model once, in order. A reset comes before it exactly at the 30th quiet window in a row,
      and after it exactly when it ends a segment. */
  lemma {:induction false} CallsMean(o: Oracle, stream: seq<Sample>, k: nat)
    requires WINDOW * (k + 1) <= |stream|
    ensures After(o, stream, k).silent == QuietRun(stream, k)
    ensures After(o, stream, k + 1).calls ==
            After(o, stream, k).calls
            + (if QuietRun(stream, k + 1) == 30 then [Reset] else []) + [Predict(Window(stream, k))]
            + (if After(o, stream, k).speaking && !After(o, stream, k + 1).speaking then [Reset] else [])
  {
    hide Process, Loud, Window;
    if k > 0 { CallsMean(o, stream, k - 1); SilentMoves(o, stream, k - 1); }
    SilentMoves(o, stream, k);
  }

  lemma SilentMoves(o: Oracle, stream: seq<Sample>, k: nat)
    requires WINDOW * (k + 1) <= |stream|
    ensures var v := After(o, stream, k); var t := After(o, stream, k + 1); var loud := Loud(Window(stream, k));
            && t.silent == (if loud then 0 else v.silent + 1)
            && t.calls == v.calls + (if !loud && v.silent == 29 then [Reset] else []) + [Predict(Window(stream, k))]
                          + (if v.speaking && !t.speaking then [Reset] else [])
  {
    hide Loud, Window;
  }

  // ---------------------------------------------------------------- coverage of voiced runs

  predicate Voiced(o: Oracle, stream: seq<Sample>, i: nat, j: nat)
    requires WINDOW * j <= |stream|
  {
    forall w: nat | i <= w < j :: Prob(o, stream, w) >= ENTER_THRESHOLD
  }

  predicate InSlice(s: Slice, w: nat) {
    s.From() <= WINDOW * w && WINDOW * (w + 1) <= s.closedAt
  }

  /** Window w, already heard, is part of an emitted segment or of the open one. */
  predicate WindowCovered(v: Vad, w: nat) {
    (exists i | 0 <= i < |v.slices| :: InSlice(v.slices[i], w)) || (v.speaking && FromOf(v.openedAt) <= WINDOW * w)
  }

  /** Window c brings the open segment to the 12 s at which it is cut, and is not the one that ends it by silence. */
  predicate ForceCutAt(o: Oracle, stream: seq<Sample>, c: nat)
    requires WINDOW * (c + 1) <= |stream|
  {
    var v := After(o, stream, c);
    v.speaking && WINDOW * (c + 1) - FromOf(v.openedAt) >= 192000 && Ending(v, Prob(o, stream, c)) == ForceCut
  }

  lemma CoveredStep(v: Vad, p: real, n: nat, w: nat)
    requires n >= WINDOW && Between(v, n - WINDOW) && WINDOW * (w + 1) <= n && WindowCovered(v, w)
    ensures WindowCovered(Process(v, p, n), w)
  {
    hide Between;
    var v' := Process(v, p, n);
    if v.speaking { SpeakingKeeps(v, p, n); } else { QuietKeeps(v, p, n); }
    if i :| 0 <= i < |v.slices| && InSlice(v.slices[i], w) {
      assert InSlice(v'.slices[i], w);
    } else if !v'.speaking {
      assert InSlice(v'.slices[|v.slices|], w);
    }
  }

  /** A whole step keeps what is covered. */
  lemma CoveredKept(o: Oracle, v: Vad, win: seq<Sample>, n: nat, w: nat)
    requires n >= WINDOW && Between(v, n - WINDOW) && WINDOW * (w + 1) <= n && WindowCovered(v, w)
    ensures WindowCovered(StepWindow(o, v, win, n), w)
  {
    hide Between, Process, Hear;
    HearFrame(v, win);
    var h := Hear(v, win);
    assert WindowCovered(h, w);
    CoveredStep(h, o(h.calls), n, w);
  }

  lemma {:induction false} CoveredStays(o: Oracle, stream: seq<Sample>, k: nat, n: nat, w: nat)
    requires w < k <= n && WINDOW * n <= |stream| && WindowCovered(After(o, stream, k), w)
    ensures WindowCovered(After(o, stream, n), w)
  {
    hide Between, WindowCovered, StepWindow, Window;
    if k < n {
      CoveredStays(o, stream, k, n - 1, w);
      AlwaysBetween(o, stream, n - 1);
      CoveredKept(o, After(o, stream, n - 1), Window(stream, n - 1), WINDOW * n, w);
    }
  }

  /** A window that is heard but in no segment gets into one exactly when a segment opens within its pre-roll. */
  lemma UncoveredStep(v: Vad, p: real, m: nat, w: nat)
    requires w + 1 < m && Between(v, WINDOW * (m - 1)) && !WindowCovered(v, w)
    ensures WindowCovered(Process(v, p, WINDOW * m), w)
       <==> !v.speaking && v.voice + 1 >= VOICE_ENTER_WINDOWS && p >= ENTER_THRESHOLD && m <= w + 6
  {
    hide Between;
    var v' := Process(v, p, WINDOW * m);
    if v.speaking {
      SpeakingKeeps(v, p, WINDOW * m);
      if !v'.speaking {
        forall i | 0 <= i < |v'.slices| ensures !InSlice(v'.slices[i], w) {
          if i < |v.slices| { assert v'.slices[i] == v.slices[i]; }
        }
      }
    } else {
      QuietKeeps(v, p, WINDOW * m);
      assert FromOf(WINDOW * m) <= WINDOW * w <==> m <= w + 6;
    }
  }

  /** The window just heard is in a segment if speech was on before it, or goes on with it. */
  lemma FreshStep(v: Vad, p: real, w: nat)
    requires Between(v, WINDOW * w)
    ensures WindowCovered(Process(v, p, WINDOW * (w + 1)), w)
       <==> v.speaking || (v.voice + 1 >= VOICE_ENTER_WINDOWS && p >= ENTER_THRESHOLD)
  {
    var n := WINDOW * (w + 1);
    var v' := Process(v, p, n);
    if v.speaking {
      SpeakingKeeps(v, p, n);
      if !v'.speaking { assert InSlice(v'.slices[|v.slices|], w); }
    } else {
      NotInClosed(v, w);
    }
  }

  lemma NotInClosed(v: Vad, w: nat)
    requires WellSpaced(v.slices) && LastClosed(v) < WINDOW * (w + 1)
    ensures forall i :: 0 <= i < |v.slices| ==> !InSlice(v.slices[i], w)
  {
    forall i | 0 <= i < |v.slices| ensures !InSlice(v.slices[i], w) { ClosedMonotone(v.slices, i, |v.slices| - 1); }
  }

  /** Exactly which windows are in a segment: those heard while speech was on, and those up to six windows before the
      end of the window in which a segment opens. */
  lemma {:induction false} CoveredExactly(o: Oracle, stream: seq<Sample>, n: nat, w: nat)
    requires w < n && WINDOW * n <= |stream|
    ensures WindowCovered(After(o, stream, n), w)
       <==> After(o, stream, w).speaking || exists m: nat :: w < m <= n && m <= w + 6 && OpensAt(o, stream, m)
  {
    hide Between, WindowCovered, Process, Hear, Window;
    var v := After(o, stream, n - 1);
    var h := Hear(v, Window(stream, n - 1));
    AlwaysBetween(o, stream, n - 1);
    HearFrame(v, Window(stream, n - 1));
    assert After(o, stream, n) == Process(h, o(h.calls), WINDOW * n);
    assert OpensAt(o, stream, n) <==> !h.speaking && h.voice + 1 >= VOICE_ENTER_WINDOWS && o(h.calls) >= ENTER_THRESHOLD;
    if w < n - 1 {
      CoveredExactly(o, stream, n - 1, w);
      SameCover(v, h, w);
      if WindowCovered(h, w) {
        CoveredStep(h, o(h.calls), WINDOW * n, w);
      } else {
        UncoveredStep(h, o(h.calls), n, w);
        assert forall m: nat :: w < m <= n && m <= w + 6 && OpensAt(o, stream, m) ==> m == n;
      }
    } else {
      FreshStep(h, o(h.calls), w);
    }
  }

  lemma SameCover(v: Vad, h: Vad, w: nat)
    requires h.slices == v.slices && h.speaking == v.speaking && h.openedAt == v.openedAt
    ensures WindowCovered(h, w) <==> WindowCovered(v, w)
  {
  }

  /** How a voiced window moves the detector: it cuts the segment that has reached 12 s, or counts towards a new one. */
  lemma VoicedStep(v: Vad, p: real, n: nat)
    requires n >= WINDOW && Between(v, n - WINDOW) && p >= ENTER_THRESHOLD
    ensures var t := Process(v, p, n);
            if v.speaking then t.voice == 0 && (t.speaking <==> n - FromOf(v.openedAt) < 192000)
            else t.speaking <==> v.voice + 1 >= VOICE_ENTER_WINDOWS
    ensures var t := Process(v, p, n); !v.speaking && !t.speaking ==> t.voice == v.voice + 1
  {
    hide WellSpaced;
    if v.speaking { SpeakingKeeps(v, p, n); }
  }

  lemma VoicedNext(o: Oracle, stream: seq<Sample>, k: nat)
    requires WINDOW * (k + 1) <= |stream| && Prob(o, stream, k) >= ENTER_THRESHOLD
    ensures var v := After(o, stream, k); var t := After(o, stream, k + 1);
            && (if v.speaking then t.voice == 0 && (t.speaking <==> !ForceCutAt(o, stream, k))
                else t.speaking <==> OpensAt(o, stream, k + 1))
            && (!v.speaking && !t.speaking ==> t.voice == v.voice + 1)
  {
    hide Between, Process, Hear, Window;
    AlwaysBetween(o, stream, k);
    var v := After(o, stream, k);
    var h := Hear(v, Window(stream, k));
    HearFrame(v, Window(stream, k));
    VoicedStep(h, o(h.calls), WINDOW * (k + 1));
  }

  /** Within a voiced run the detector is quiet only in its first two windows and in the two after a force-cut. */
  lemma {:induction false} QuietInRun(o: Oracle, stream: seq<Sample>, i: nat, j: nat)
    requires WINDOW * j <= |stream| && i <= j && Voiced(o, stream, i, j)
    ensures var v := After(o, stream, j); !v.speaking && i + v.voice < j ==> ForceCutAt(o, stream, j - v.voice - 1)
    ensures forall c: nat :: i <= c < j <= c + 3 && ForceCutAt(o, stream, c) ==>
      var v := After(o, stream, j); !v.speaking && v.voice == j - c - 1
    decreases j
  {
    hide After, WellSpaced;
    AlwaysBetween(o, stream, j);
    if i < j {
      QuietInRun(o, stream, i, j - 1);
      assert Prob(o, stream, j - 1) >= ENTER_THRESHOLD;
      VoicedNext(o, stream, j - 1);
    }
  }

  /** A force-cut at window c that costs window w of a run ending with window j - 1. */
  predicate LostTo(o: Oracle, stream: seq<Sample>, i: nat, j: nat, w: nat, c: nat)
    requires WINDOW * j <= |stream|
  {
    i <= c < w <= c + 2 && w < j <= c + 3 && ForceCutAt(o, stream, c)
  }

  /** A quiet detector opens a segment once it has counted three voiced windows. */
  lemma {:induction false} OpensSoon(o: Oracle, stream: seq<Sample>, k: nat) returns (m: nat)
    requires WINDOW * k <= |stream| && !After(o, stream, k).speaking && After(o, stream, k).voice < VOICE_ENTER_WINDOWS
    requires WINDOW * (k + 3 - After(o, stream, k).voice) <= |stream|
    requires Voiced(o, stream, k, k + 3 - After(o, stream, k).voice)
    ensures k < m <= k + 3 - After(o, stream, k).voice && OpensAt(o, stream, m)
    decreases 3 - After(o, stream, k).voice
  {
    hide After, ForceCutAt;
    assert Prob(o, stream, k) >= ENTER_THRESHOLD;
    VoicedNext(o, stream, k);
    m := k + 1;
    if !OpensAt(o, stream, m) { m := OpensSoon(o, stream, k + 1); }
  }

  lemma LostIsLost(o: Oracle, stream: seq<Sample>, i: nat, j: nat, w: nat, c: nat)
    requires WINDOW * j <= |stream| && i <= w < j && Voiced(o, stream, i, j) && LostTo(o, stream, i, j, w, c)
    ensures !WindowCovered(After(o, stream, j), w)
  {
    hide WindowCovered, After, ForceCutAt;
    CoveredExactly(o, stream, j, w);
    QuietInRun(o, stream, i, w);
    forall m: nat | w < m <= j ensures !OpensAt(o, stream, m) { QuietInRun(o, stream, i, m - 1); }
  }

  lemma LostAfterCut(o: Oracle, stream: seq<Sample>, i: nat, j: nat, w: nat)
    requires i + 3 <= j && WINDOW * j <= |stream| && i <= w < j && Voiced(o, stream, i, j)
    requires !WindowCovered(After(o, stream, j), w)
    ensures exists c: nat :: LostTo(o, stream, i, j, w, c)
  {
    hide WindowCovered, After, ForceCutAt, WellSpaced;
    CoveredExactly(o, stream, j, w);
    QuietInRun(o, stream, i, w);
    AlwaysBetween(o, stream, w);
    var voice := After(o, stream, w).voice;
    if w <= i + voice {
      var m := OpensSoon(o, stream, w);
    } else {
      var c := w - voice - 1;
      if voice == 2 { var m := OpensSoon(o, stream, w); }
      if j > c + 3 {
        QuietInRun(o, stream, i, c + 3);
        var m := OpensSoon(o, stream, c + 3);
      }
      assert LostTo(o, stream, i, j, w, c);
    }
  }

  lemma LostAtEnd(o: Oracle, stream: seq<Sample>, i: nat, j: nat, w: nat)
    requires i + 3 <= j && WINDOW * j <= |stream| && i <= w < j && Voiced(o, stream, i, j)
    ensures !WindowCovered(After(o, stream, j), w) <==> exists c: nat :: LostTo(o, stream, i, j, w, c)
  {
    hide WindowCovered, After, LostTo, Voiced;
    if c: nat :| LostTo(o, stream, i, j, w, c) { LostIsLost(o, stream, i, j, w, c); }
    if !WindowCovered(After(o, stream, j), w) { LostAfterCut(o, stream, i, j, w); }
  }

  /** Voiced-run coverage, exactly. A window of a run of three or more voiced windows is in no segment, emitted or open,
      if and only if a force-cut inside the run comes one or two windows before it, the run ends within two windows of
      that cut, and no segment opens by the end of the fifth window after it, whose pre-roll would bring it back. */
  lemma VoicedRunCovered(o: Oracle, stream: seq<Sample>, i: nat, j: nat, n: nat, w: nat)
    requires i + 3 <= j <= n && WINDOW * n <= |stream| && i <= w < j && Voiced(o, stream, i, j)
    ensures !WindowCovered(After(o, stream, n), w)
       <==> (exists c: nat :: LostTo(o, stream, i, j, w, c))
            && !(exists m: nat :: j < m <= n && m <= w + 6 && OpensAt(o, stream, m))
  {
    hide WindowCovered, After, Voiced, ForceCutAt, OpensAt;
    LostAtEnd(o, stream, i, j, w);
    CoveredExactly(o, stream, j, w);
    CoveredExactly(o, stream, n, w);
  }

  // ---------------------------------------------------------------- the exception is real

  /** A model that hears speech in everything. */
  function Always(calls: seq<Call>): real { 1.0 }

  lemma {:induction false} Monologue(stream: seq<Sample>, k: nat)
    requires WINDOW * k <= |stream| && 3 <= k < 375
    ensures var v := After(Always, stream, k); v.speaking && v.openedAt == 1536 && v.slices == []
  {
    hide Hear, Window;
    if k == 3 {
      assert After(Always, stream, 0) == INITIAL;
      var v1 := After(Always, stream, 1);
      assert v1 == Process(Hear(INITIAL, Window(stream, 0)), 1.0, WINDOW);
      HearFrame(INITIAL, Window(stream, 0));
      var v2 := After(Always, stream, 2);
      assert v2 == Process(Hear(v1, Window(stream, 1)), 1.0, 2 * WINDOW);
      HearFrame(v1, Window(stream, 1));
      HearFrame(v2, Window(stream, 2));
    } else {
      Monologue(stream, k - 1);
      HearFrame(After(Always, stream, k - 1), Window(stream, k - 1));
    }
  }

  /** It is cut off when it has lasted 12 s. */
  lemma MonologueIsCut(stream: seq<Sample>)
    requires |stream| >= 375 * WINDOW
    ensures var v := After(Always, stream, 375);
            v.slices == [Slice(1536, 375 * WINDOW, ForceCut)] && !v.speaking && v.voice == 0
  {
    hide Hear, Window;
    Monologue(stream, 374);
    HearFrame(After(Always, stream, 374), Window(stream, 374));
  }

  /** Without its exception the coverage property is false: in an unbroken monologue of 377 windows the last two, heard
      directly after the force-cut at 12 s, are in no segment. */
  lemma TrailingWindowsCanBeLost(stream: seq<Sample>)
    requires |stream| >= 377 * WINDOW
    ensures Voiced(Always, stream, 0, 377)
    ensures !WindowCovered(After(Always, stream, 377), 375) && !WindowCovered(After(Always, stream, 377), 376)
  {
    hide Hear, Window;
    MonologueIsCut(stream);
    var v1 := After(Always, stream, 375);
    HearFrame(v1, Window(stream, 375));
    var v2 := After(Always, stream, 376);
    assert v2.slices == v1.slices && !v2.speaking && v2.voice == 1;
    HearFrame(v2, Window(stream, 376));
  }
}
