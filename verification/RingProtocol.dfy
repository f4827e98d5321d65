/** One writer and one reader on the sample ring, in every interleaving of their loads, cell copies and stores. */
module RingProtocol {
  import opened Basics
  import opened Bits
  import opened Wav
  import opened SampleRing

  datatype Writer =
    | WIdle
    | WOwn(src: seq<Sample>, pos: nat)                 // own position loaded
    | WCopy(src: seq<Sample>, pos: nat, done: set<nat>) // trimmed to the free space, copied in any order

  datatype Reader =
    | RIdle
    | ROwn(count: nat, pos: nat)
    | RCopy(pos: nat, n: nat, got: map<nat, Sample>)

  /** The shared ring, both program counters, and the history since the last clear(). */
  datatype State = State(
    ring: Ring<Sample>, writer: Writer, reader: Reader,
    base: nat, accepted: seq<Sample>, returned: seq<Sample>, offered: nat, lost: nat)

  datatype Event =
    | WBegin(src: seq<Sample>) | WLoad | WCell(i: nat) | WStore
    | RBegin(count: nat) | RLoad | RCell(i: nat) | RStore
    | Clear

  predicate Enabled(s: State, e: Event) {
    match e
    case WBegin(_) => s.writer.WIdle?
    case WLoad => s.writer.WOwn?
    case WCell(i) => s.writer.WCopy? && i < |s.writer.src| && |s.ring.cells| > 0
    case WStore => s.writer.WCopy? && forall i: nat | i < |s.writer.src| :: i in s.writer.done
    case RBegin(_) => s.reader.RIdle?
    case RLoad => s.reader.ROwn?
    case RCell(i) => s.reader.RCopy? && i < s.reader.n && |s.ring.cells| > 0
    case RStore => s.reader.RCopy? && forall i: nat | i < s.reader.n :: i in s.reader.got
    case Clear => s.writer.WIdle? && s.reader.RIdle?
  }

  function LoadReadPos(s: State): State
    requires Enabled(s, WLoad)
  {
    var src := s.writer.src;
    var n := Min(|src|, Sub64(|s.ring.cells|, Sub64(s.writer.pos, s.ring.readPos)));
    s.(ring := s.ring.(dropped := Mod(s.ring.dropped + |src| - n, WORD)),
       lost := s.lost + |src| - n,
       writer := if n < |src| && n == 0 then WIdle else WCopy(src[..n], s.writer.pos, {}))
  }

  function LoadWritePos(s: State): State
    requires Enabled(s, RLoad)
  {
    var n := Min(s.reader.count, Sub64(s.ring.writePos, s.reader.pos));
    s.(reader := if n == 0 then RIdle else RCopy(s.reader.pos, n, map[]))
  }

  function Apply(s: State, e: Event): State
    requires Enabled(s, e)
  {
    match e
    case WBegin(src) => s.(writer := WOwn(src, s.ring.writePos), offered := s.offered + |src|)
    case WLoad => LoadReadPos(s)
    case WCell(i) =>
      s.(ring := s.ring.(cells := s.ring.cells[Mod(s.writer.pos + i, |s.ring.cells|) := s.writer.src[i]]),
         writer := s.writer.(done := s.writer.done + {i}))
    case WStore =>
      s.(ring := s.ring.(writePos := Mod(s.writer.pos + |s.writer.src|, WORD)),
         accepted := s.accepted + s.writer.src, writer := WIdle)
    case RBegin(count) => s.(reader := ROwn(count, s.ring.readPos))
    case RLoad => LoadWritePos(s)
    case RCell(i) =>
      s.(reader := s.reader.(got := s.reader.got[i := s.ring.cells[Mod(s.reader.pos + i, |s.ring.cells|)]]))
    case RStore =>
      s.(ring := s.ring.(readPos := Mod(s.reader.pos + s.reader.n, WORD)),
         returned := s.returned + Delivered(s.reader), reader := RIdle)
    case Clear =>
      s.(ring := Cleared(s.ring), base := s.base + |s.accepted|, accepted := [], returned := [], offered := 0, lost := 0)
  }

  /** What a finished read() hands to its caller. */
  function Delivered(r: Reader): (d: seq<Sample>)
    requires r.RCopy? && forall i: nat | i < r.n :: i in r.got
    ensures |d| == r.n
  {
    seq(r.n, i requires 0 <= i < r.n => r.got[i])
  }

  // ---------------------------------------------------------------- the invariant

  function InFlight(w: Writer): nat {
    if w.WIdle? then 0 else |w.src|
  }

  /** Unread samples sit in their cells; positions are the true ones modulo 2^64. */
  ghost predicate RingInv(s: State, k: nat) {
    && k <= 63 && |s.ring.cells| == Pow2(k)
    && s.ring.writePos == Mod(s.base + |s.accepted|, WORD)
    && s.ring.readPos == Mod(s.base + |s.returned|, WORD)
    && s.ring.dropped == Mod(s.lost, WORD)
    && |s.returned| <= |s.accepted| <= |s.returned| + |s.ring.cells|
    && s.returned == s.accepted[..|s.returned|]
    && (forall x :: |s.returned| <= x < |s.accepted| ==> s.ring.cells[Mod(s.base + x, |s.ring.cells|)] == s.accepted[x])
  }

  ghost predicate WriterInv(s: State)
    requires |s.ring.cells| > 0
  {
    match s.writer
    case WIdle => true
    case WOwn(_, pos) => pos == s.ring.writePos
    case WCopy(src, pos, done) =>
      && pos == s.ring.writePos
      && |s.accepted| + |src| <= |s.returned| + |s.ring.cells|
      && (forall i :: i in done ==> i < |src| && s.ring.cells[Mod(s.base + |s.accepted| + i, |s.ring.cells|)] == src[i])
  }

  ghost predicate ReaderInv(s: State) {
    match s.reader
    case RIdle => true
    case ROwn(_, pos) => pos == s.ring.readPos
    case RCopy(pos, n, got) =>
      && pos == s.ring.readPos
      && |s.returned| + n <= |s.accepted|
      && (forall i :: i in got ==> i < n && got[i] == s.accepted[|s.returned| + i])
  }

  ghost predicate Inv(s: State, k: nat) {
    && RingInv(s, k) && WriterInv(s) && ReaderInv(s)
    && s.offered == |s.accepted| + s.lost + InFlight(s.writer)
  }

  ghost predicate Fresh(s: State, k: nat) {
    && k <= 63 && |s.ring.cells| == Pow2(k)
    && s.ring.writePos == s.ring.readPos == s.ring.dropped == 0
    && s.writer.WIdle? && s.reader.RIdle?
    && s.base == 0 && s.accepted == [] && s.returned == [] && s.offered == 0 && s.lost == 0
  }

  // ---------------------------------------------------------------- arithmetic

  lemma ModDistinct(a: nat, b: nat, m: nat)
    requires m > 0 && a < b < a + m
    ensures Mod(a, m) != Mod(b, m)
  {
    hide Mod;
    var p := Decompose(a, m);
    var q := Decompose(b, m);
    MulBound(m, q - p);
    assert m * (q - p) == m * q - m * p;
  }

  /** The modular difference of wrapped positions is the true fill. */
  lemma TrueFill(w: nat, r: nat)
    requires r <= w < r + WORD
    ensures Sub64(Mod(w, WORD), Mod(r, WORD)) == w - r
  {
    hide Mod;
    ModDifference(w, Mod(r, WORD), WORD);
    ModDifference(w, r, WORD);
    ModSmall(w - r, WORD);
  }

  lemma Fill(s: State, k: nat)
    requires RingInv(s, k)
    ensures Filled(s.ring) == |s.accepted| - |s.returned|
  {
    hide Mod, Pow2;
    CapacityDivides(k);
    TrueFill(s.base + |s.accepted|, s.base + |s.returned|);
  }

  // ---------------------------------------------------------------- every step keeps it

  lemma WriterSteps(s: State, e: Event, k: nat)
    requires Inv(s, k) && Enabled(s, e) && (e.WBegin? || e.WLoad?)
    ensures Inv(Apply(s, e), k)
  {
    hide Mod, Pow2;
    Fill(s, k);
    if e.WLoad? {
      CapacityDivides(k);
      ModSmall(|s.ring.cells| - Filled(s.ring), WORD);
      var src := s.writer.src;
      var n := Min(|src|, Sub64(|s.ring.cells|, Sub64(s.writer.pos, s.ring.readPos)));
      ModSum(s.lost, |src| - n, WORD);
    }
  }

  /** The cell a writer is about to fill holds no unread sample. */
  lemma NoUnreadCellIsWritten(s: State, k: nat, i: nat, x: nat)
    requires Inv(s, k) && Enabled(s, WCell(i)) && |s.returned| <= x < |s.accepted|
    ensures Mod(s.writer.pos + i, |s.ring.cells|) != Mod(s.base + x, |s.ring.cells|)
  {
    hide Mod, Pow2;
    WrappedOffset(s.base + |s.accepted|, i, k);
    ModDistinct(s.base + x, s.base + |s.accepted| + i, |s.ring.cells|);
  }

  lemma WriterCell(s: State, i: nat, k: nat)
    requires Inv(s, k) && Enabled(s, WCell(i))
    ensures Inv(Apply(s, WCell(i)), k)
  {
    hide Mod, Pow2;
    var t := Apply(s, WCell(i));
    var m := |s.ring.cells|;
    var end := s.base + |s.accepted|;
    WrappedOffset(end, i, k);
    assert RingInv(t, k) by {
      forall x | |s.returned| <= x < |s.accepted| ensures t.ring.cells[Mod(s.base + x, m)] == s.accepted[x] {
        NoUnreadCellIsWritten(s, k, i, x);
      }
    }
    forall j | j in t.writer.done ensures j < |s.writer.src| && t.ring.cells[Mod(end + j, m)] == s.writer.src[j] {
      if i < j { ModDistinct(end + i, end + j, m); } else if j < i { ModDistinct(end + j, end + i, m); }
    }
  }

  lemma WriterStore(s: State, k: nat)
    requires Inv(s, k) && Enabled(s, WStore)
    ensures Inv(Apply(s, WStore), k)
  {
    hide Mod, Pow2;
    var t := Apply(s, WStore);
    ModSum(s.base + |s.accepted|, |s.writer.src|, WORD);
    forall x | |s.returned| <= x < |t.accepted|
      ensures s.ring.cells[Mod(s.base + x, |s.ring.cells|)] == t.accepted[x]
    {
      if x >= |s.accepted| { assert (x - |s.accepted|) as nat in s.writer.done; }
    }
  }

  lemma ReaderSteps(s: State, e: Event, k: nat)
    requires Inv(s, k) && Enabled(s, e) && (e.RBegin? || e.RLoad?)
    ensures Inv(Apply(s, e), k)
  {
    hide Mod, Pow2;
    Fill(s, k);
  }

  lemma ReaderCell(s: State, i: nat, k: nat)
    requires Inv(s, k) && Enabled(s, RCell(i))
    ensures Inv(Apply(s, RCell(i)), k)
  {
    hide Mod, Pow2;
    WrappedOffset(s.base + |s.returned|, i, k);
  }

  lemma ReaderStore(s: State, k: nat)
    requires Inv(s, k) && Enabled(s, RStore)
    ensures Inv(Apply(s, RStore), k)
    ensures Delivered(s.reader) == s.accepted[|s.returned|..|s.returned| + s.reader.n]
  {
    hide Mod, Pow2;
    var t := Apply(s, RStore);
    ModSum(s.base + |s.returned|, s.reader.n, WORD);
    assert Delivered(s.reader) == s.accepted[|s.returned|..|s.returned| + s.reader.n];
    assert t.returned == t.accepted[..|t.returned|];
  }

  lemma ClearStep(s: State, k: nat)
    requires Inv(s, k) && Enabled(s, Clear)
    ensures Inv(Apply(s, Clear), k)
  {
    hide Mod, Pow2;
    ModSmall(0, WORD);
  }

  lemma StepKeepsInv(s: State, e: Event, k: nat)
    requires Inv(s, k) && Enabled(s, e)
    ensures Inv(Apply(s, e), k)
  {
    hide Inv, Apply;
    match e
    case WBegin(_) => WriterSteps(s, e, k);
    case WLoad => WriterSteps(s, e, k);
    case WCell(i) => WriterCell(s, i, k);
    case WStore => WriterStore(s, k);
    case RBegin(_) => ReaderSteps(s, e, k);
    case RLoad => ReaderSteps(s, e, k);
    case RCell(i) => ReaderCell(s, i, k);
    case RStore => ReaderStore(s, k);
    case Clear => ClearStep(s, k);
  }

  // ---------------------------------------------------------------- whole runs

  predicate CanRun(s: State, events: seq<Event>)
    decreases |events|
  {
    events == [] || (Enabled(s, events[0]) && CanRun(Apply(s, events[0]), events[1..]))
  }

  function Run(s: State, events: seq<Event>): State
    requires CanRun(s, events)
    decreases |events|
  {
    if events == [] then s else Run(Apply(s, events[0]), events[1..])
  }

  lemma {:induction false} RunKeepsInv(s: State, events: seq<Event>, k: nat)
    requires Inv(s, k) && CanRun(s, events)
    ensures Inv(Run(s, events), k)
    decreases |events|
  {
    hide Inv, Apply, Enabled;
    if events != [] {
      StepKeepsInv(s, events[0], k);
      RunKeepsInv(Apply(s, events[0]), events[1..], k);
    }
  }

  /** Safety of the ring in every interleaving: what read() has returned is exactly a prefix of what write() has
      accepted, unread samples never exceed the capacity, and nothing offered is unaccounted for. */
  lemma RingSafety(s: State, events: seq<Event>, k: nat)
    requires Fresh(s, k) && CanRun(s, events)
    ensures var t := Run(s, events);
            && t.returned <= t.accepted
            && |t.accepted| - |t.returned| <= |t.ring.cells|
            && t.offered == |t.accepted| + t.lost + InFlight(t.writer)
            && t.ring.dropped == Mod(t.lost, WORD)
            && Inv(t, k)
  {
    hide Mod, Pow2, Run;
    ModSmall(0, WORD);
    RunKeepsInv(s, events, k);
  }

  // ---------------------------------------------------------------- refinement of a FIFO

  /** The abstract queue. */
  function Unread(s: State): seq<Sample>
    requires |s.returned| <= |s.accepted|
  {
    s.accepted[|s.returned|..]
  }

  /** The ring's cells and 64-bit positions always encode that queue, even while both sides are mid-copy. */
  lemma ContentsIsUnread(s: State, k: nat)
    requires Inv(s, k)
    ensures Contents(s.ring) == Unread(s)
  {
    hide Mod, Pow2;
    Fill(s, k);
    forall i | 0 <= i < |s.accepted| - |s.returned| ensures Contents(s.ring)[i] == Unread(s)[i] {
      WrappedOffset(s.base + |s.returned|, i, k);
    }
  }

  /** Each step is one step of the queue: a store appends what was written, a read store removes what it returns from
      the front, clear() empties it, and no other step changes it. */
  lemma RefinesFifo(s: State, e: Event, k: nat)
    requires Inv(s, k) && Enabled(s, e)
    ensures var t := Apply(s, e);
            && |t.returned| <= |t.accepted|
            && match e
               case WStore => Unread(t) == Unread(s) + s.writer.src
               case RStore => Unread(s) == Delivered(s.reader) + Unread(t)
               case Clear => Unread(t) == []
               case _ => Unread(t) == Unread(s)
  {
    hide Mod, Pow2;
    if e.RStore? { ReaderStore(s, k); }
  }

  /** Seen through the contracts of SampleRing, a store is the whole of its operation at one instant, however its copies
      were interleaved: a write store appends to the contents what it copied, and that fits, as in write(); a read store
      is exactly read(); and clear() empties them. */
  lemma StoresAreAtomic(s: State, k: nat)
    requires Inv(s, k)
    ensures Enabled(s, WStore) ==>
      Contents(Apply(s, WStore).ring) == Contents(s.ring) + s.writer.src && Filled(s.ring) + |s.writer.src| <= |s.ring.cells|
    ensures Enabled(s, RStore) ==>
      var t := Apply(s, RStore);
      && t.ring == Consumed(s.ring, s.reader.n) && Contents(s.ring) == Delivered(s.reader) + Contents(t.ring)
      && Delivered(s.reader) == Extract(s.ring.cells, s.ring.readPos, s.reader.n)
    ensures Enabled(s, Clear) ==> Contents(Apply(s, Clear).ring) == []
  {
    hide Contents, Extract, Consumed, Cleared, Mod, Pow2;
    InvIsProper(s, k);
    ClearEmpties(s.ring, k);
    hide Apply;
    if Enabled(s, WStore) {
      StoreIsWrite(s, k);
    }
    if Enabled(s, RStore) {
      StoreIsRead(s, k);
    }
  }

  lemma InvIsProper(s: State, k: nat)
    requires Inv(s, k)
    ensures Proper(s.ring, k)
  {
    Fill(s, k);
  }

  lemma StoreIsWrite(s: State, k: nat)
    requires Inv(s, k) && Enabled(s, WStore)
    ensures Contents(Apply(s, WStore).ring) == Contents(s.ring) + s.writer.src
    ensures Filled(s.ring) + |s.writer.src| <= |s.ring.cells|
  {
    hide Contents, Mod, Pow2;
    Fill(s, k);
    WriterStore(s, k);
    RefinesFifo(s, WStore, k);
    ContentsIsUnread(s, k);
    ContentsIsUnread(Apply(s, WStore), k);
  }

  lemma StoreIsRead(s: State, k: nat)
    requires Inv(s, k) && Enabled(s, RStore)
    ensures var t := Apply(s, RStore);
      && t.ring == Consumed(s.ring, s.reader.n) && Contents(s.ring) == Delivered(s.reader) + Contents(t.ring)
      && Delivered(s.reader) == Extract(s.ring.cells, s.ring.readPos, s.reader.n)
  {
    hide Contents, Mod, Pow2, Extract;
    var t := Apply(s, RStore);
    InvIsProper(s, k);
    Fill(s, k);
    ReaderStore(s, k);
    RefinesFifo(s, RStore, k);
    ContentsIsUnread(s, k);
    ContentsIsUnread(t, k);
    ReadIsFifo(s.ring, k, s.reader.n);
    SameTail(Delivered(s.reader), Extract(s.ring.cells, s.ring.readPos, s.reader.n), Contents(t.ring));
  }

  lemma SameTail<T>(a: seq<T>, b: seq<T>, tail: seq<T>)
    requires |a| == |b| && a + tail == b + tail
    ensures a == b
  {
    assert a == (a + tail)[..|a|] && b == (b + tail)[..|b|];
  }

  // ---------------------------------------------------------------- how much each side takes

  /** Cells without an unread sample. */
  function FreeCells(s: State): int {
    |s.ring.cells| - (|s.accepted| - |s.returned|)
  }

  /** Whatever the other side is doing: when the positions are compared, the writer settles for the oldest part of its
      block that the free cells hold and drops exactly the rest, and the reader for what is there up to its count. */
  lemma LoadsTakeWhatFits(s: State, k: nat)
    requires Inv(s, k)
    ensures Enabled(s, WLoad) ==>
      var src := s.writer.src; var n := Min(|src|, FreeCells(s)); var t := Apply(s, WLoad);
      && 0 <= n <= |src|
      && t.lost == s.lost + |src| - n && t.ring.dropped == Mod(t.lost, WORD)
      && t.writer == (if n == 0 && src != [] then WIdle else WCopy(src[..n], s.writer.pos, {}))
    ensures Enabled(s, RLoad) ==>
      var n := Min(s.reader.count, |s.accepted| - |s.returned|);
      Apply(s, RLoad).reader == if n == 0 then RIdle else RCopy(s.reader.pos, n, map[])
  {
    hide Mod, Pow2;
    Fill(s, k);
    CapacityDivides(k);
    ModSmall(|s.ring.cells| - Filled(s.ring), WORD);
    if Enabled(s, WLoad) { StepKeepsInv(s, WLoad, k); }
  }

  // ---------------------------------------------------------------- undisturbed, the steps are write() and read()

  predicate OfWriter(e: Event) {
    e.WLoad? || e.WCell? || e.WStore?
  }

  predicate OfReader(e: Event) {
    e.RLoad? || e.RCell? || e.RStore?
  }

  /** The state after a whole write(). */
  function Wrote(s: State, src: seq<Sample>): State
    requires Filled(s.ring) <= |s.ring.cells|
  {
    var n := Min(|src|, |s.ring.cells| - Filled(s.ring));
    s.(ring := Written(s.ring, src), accepted := s.accepted + src[..n],
       offered := s.offered + |src|, lost := s.lost + |src| - n)
  }

  /** The state after a whole read(). */
  function Took(s: State, count: nat): State
    requires |s.ring.cells| > 0
  {
    s.(ring := Consumed(s.ring, count),
       returned := s.returned + Extract(s.ring.cells, s.ring.readPos, Min(count, Filled(s.ring))))
  }

  /** The cells with the samples in `done` already in place. */
  predicate PartlyOver(before: seq<Sample>, pos: nat, src: seq<Sample>, done: set<nat>, after: seq<Sample>)
    requires |before| > 0
  {
    && |after| == |before|
    && (forall i :: i in done ==> i < |src|)
    && forall j :: 0 <= j < |before| ==>
         after[j] == var d := Mod(j - pos, |before|); if d in done && d < |src| then src[d] else before[j]
  }

  /** Between the first and the last step of a write() that nobody disturbs. */
  predicate Writing(s: State, t: State, src: seq<Sample>)
    requires Filled(s.ring) <= |s.ring.cells| && |s.ring.cells| > 0
  {
    var n := Min(|src|, |s.ring.cells| - Filled(s.ring));
    match t.writer
    case WIdle => t == Wrote(s, src)
    case WOwn(_, _) => t == s.(writer := WOwn(src, s.ring.writePos), offered := s.offered + |src|)
    case WCopy(x, pos, done) =>
      && x == src[..n] && pos == s.ring.writePos
      && t == s.(ring := s.ring.(cells := t.ring.cells, dropped := Mod(s.ring.dropped + |src| - n, WORD)), writer := t.writer,
                 offered := s.offered + |src|, lost := s.lost + |src| - n)
      && PartlyOver(s.ring.cells, pos, x, done, t.ring.cells)
  }

  predicate Reading(s: State, t: State, count: nat)
    requires |s.ring.cells| > 0
  {
    match t.reader
    case RIdle => t == Took(s, count)
    case ROwn(_, _) => t == s.(reader := ROwn(count, s.ring.readPos))
    case RCopy(pos, n, got) =>
      && t == s.(reader := t.reader) && pos == s.ring.readPos && n == Min(count, Filled(s.ring))
      && forall i :: i in got ==> i < n && got[i] == s.ring.cells[Mod(pos + i, |s.ring.cells|)]
  }

  lemma OneCellMore(before: seq<Sample>, pos: nat, src: seq<Sample>, done: set<nat>, after: seq<Sample>, i: nat)
    requires 0 < |before| && |src| <= |before| && i < |src| && PartlyOver(before, pos, src, done, after)
    ensures PartlyOver(before, pos, src, done + {i}, after[Mod(pos + i, |before|) := src[i]])
  {
    hide Mod;
    var next := after[Mod(pos + i, |before|) := src[i]];
    forall j | 0 <= j < |before|
      ensures next[j] == var d := Mod(j - pos, |before|); if d in done + {i} && d < |src| then src[d] else before[j]
    {
      CellOf(j, pos, i, |before|);
    }
  }

  lemma CellOf(j: nat, pos: nat, i: nat, m: nat)
    requires j < m && i < m
    ensures Mod(j - pos, m) == i <==> j == Mod(pos + i, m)
  {
    hide Mod;
    ModDifference(pos + i, pos, m);
    ModSmall(i, m);
    ModSum(j - pos, pos, m);
    ModSmall(j, m);
    assert j - pos + pos == j && pos + i - pos == i;
  }

  lemma AllOver(before: seq<Sample>, pos: nat, src: seq<Sample>, done: set<nat>, after: seq<Sample>)
    requires |before| > 0 && PartlyOver(before, pos, src, done, after) && forall i: nat :: i < |src| ==> i in done
    ensures after == Overlay(before, pos, src)
  {
    hide Mod;
  }

  lemma WritingStep(s: State, t: State, k: nat, src: seq<Sample>, e: Event)
    requires Inv(s, k) && s.writer.WIdle? && Filled(s.ring) <= |s.ring.cells| && |s.ring.cells| > 0
    requires Writing(s, t, src) && OfWriter(e) && Enabled(t, e)
    ensures Writing(s, Apply(t, e), src)
  {
    hide Mod, Pow2, Overlay, Extract;
    var n := Min(|src|, |s.ring.cells| - Filled(s.ring));
    match e
    case WLoad =>
      CapacityDivides(k);
      ModSmall(|s.ring.cells| - Filled(s.ring), WORD);
      NothingWritten(s, k);
    case WCell(i) => OneCellMore(s.ring.cells, t.writer.pos, t.writer.src, t.writer.done, t.ring.cells, i);
    case WStore => AllOver(s.ring.cells, t.writer.pos, t.writer.src, t.writer.done, t.ring.cells);
  }

  lemma NothingWritten(s: State, k: nat)
    requires Inv(s, k)
    ensures Overlay(s.ring.cells, s.ring.writePos, []) == s.ring.cells && Mod(s.ring.writePos, WORD) == s.ring.writePos
    ensures Mod(s.ring.readPos, WORD) == s.ring.readPos
  {
    hide Mod, Pow2;
    InvIsProper(s, k);
    OverlayNothing(s.ring.cells, s.ring.writePos);
    ModSum(s.base + |s.accepted|, 0, WORD);
    ModSum(s.base + |s.returned|, 0, WORD);
  }

  lemma ReadingStep(s: State, t: State, k: nat, count: nat, e: Event)
    requires Inv(s, k) && s.reader.RIdle? && |s.ring.cells| > 0
    requires Reading(s, t, count) && OfReader(e) && Enabled(t, e)
    ensures Reading(s, Apply(t, e), count)
  {
    hide Mod, Pow2;
    if e.RLoad? { NothingWritten(s, k); }
  }

  /** write(), in any order of its copies, while the reader stands still. */
  lemma WriteAlone(s: State, k: nat, src: seq<Sample>, events: seq<Event>)
    requires Inv(s, k) && s.writer.WIdle? && CanRun(s, [WBegin(src)] + events)
    requires (forall e :: e in events ==> OfWriter(e)) && Run(s, [WBegin(src)] + events).writer.WIdle?
    ensures Filled(s.ring) <= |s.ring.cells| && Run(s, [WBegin(src)] + events) == Wrote(s, src)
  {
    hide Inv, Apply, Wrote;
    InvIsProper(s, k);
    assert ([WBegin(src)] + events)[1..] == events;
    var t := Apply(s, WBegin(src));
    assert |s.ring.cells| > 0 && Writing(s, t, src) by { BeginsAlone(s, k, src, 0); }
    WritingRun(s, t, k, src, events);
  }

  lemma BeginsAlone(s: State, k: nat, src: seq<Sample>, count: nat)
    requires Inv(s, k) && Filled(s.ring) <= |s.ring.cells|
    ensures |s.ring.cells| > 0
    ensures s.writer.WIdle? ==> Writing(s, Apply(s, WBegin(src)), src)
    ensures s.reader.RIdle? ==> Reading(s, Apply(s, RBegin(count)), count)
  {
  }

  lemma {:induction false} WritingRun(s: State, t: State, k: nat, src: seq<Sample>, events: seq<Event>)
    requires Inv(s, k) && s.writer.WIdle? && Filled(s.ring) <= |s.ring.cells| && |s.ring.cells| > 0
    requires Writing(s, t, src) && CanRun(t, events) && forall e :: e in events ==> OfWriter(e)
    ensures Writing(s, Run(t, events), src)
    decreases |events|
  {
    hide Inv, Apply, Enabled, Writing, OfWriter;
    if events != [] {
      WritingStep(s, t, k, src, events[0]);
      WritingRun(s, Apply(t, events[0]), k, src, events[1..]);
    }
  }

  lemma {:induction false} ReadingRun(s: State, t: State, k: nat, count: nat, events: seq<Event>)
    requires Inv(s, k) && s.reader.RIdle? && |s.ring.cells| > 0
    requires Reading(s, t, count) && CanRun(t, events) && forall e :: e in events ==> OfReader(e)
    ensures Reading(s, Run(t, events), count)
    decreases |events|
  {
    hide Inv, Apply, Enabled, Reading, OfReader;
    if events != [] {
      ReadingStep(s, t, k, count, events[0]);
      ReadingRun(s, Apply(t, events[0]), k, count, events[1..]);
    }
  }

  /** read(), while the writer stands still. */
  lemma ReadAlone(s: State, k: nat, count: nat, events: seq<Event>)
    requires Inv(s, k) && s.reader.RIdle? && CanRun(s, [RBegin(count)] + events)
    requires (forall e :: e in events ==> OfReader(e)) && Run(s, [RBegin(count)] + events).reader.RIdle?
    ensures |s.ring.cells| > 0 && Run(s, [RBegin(count)] + events) == Took(s, count)
  {
    hide Inv, Apply, Took;
    InvIsProper(s, k);
    assert ([RBegin(count)] + events)[1..] == events;
    var t := Apply(s, RBegin(count));
    assert |s.ring.cells| > 0 && Reading(s, t, count) by { BeginsAlone(s, k, [], count); }
    ReadingRun(s, t, k, count, events);
  }
}
