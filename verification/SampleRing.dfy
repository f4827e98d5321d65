/** The sample ring of src/audio/audio-tap.cpp: its operations, their circular copies and 64-bit positions.
    RingProtocol interleaves its two sides. */
module SampleRing {
  import opened Basics
  import opened Bits
  import opened Wav

  /** Positions are unsigned 64-bit and wrap. */
  const WORD := 0x1_0000_0000_0000_0000

  lemma WordIsPow2()
    ensures WORD == Pow2(64)
  {
    hide Pow2;
    ByteIsPow2();
    Pow2Sum(8, 8);
    Pow2Sum(16, 16);
    Pow2Sum(32, 32);
  }

  lemma ByteIsPow2()
    ensures Pow2(8) == 256
  {
    assert Pow2(4) == 16;
    Pow2Sum(4, 4);
  }

  function Sub64(a: nat, b: nat): nat {
    Mod(a - b, WORD)
  }

  // ---------------------------------------------------------------- capacity

  /** The least power of two not below the request. Above 2^63 the shift would overflow to zero and never get there. */
  method RoundUpPow2(value: nat) returns (result: nat, ghost k: nat)
    requires value <= WORD / 2
    ensures result == Pow2(k) && k <= 63 && value <= result
    ensures forall j: nat :: value <= Pow2(j) ==> result <= Pow2(j)
  {
    result := 1;
    k := 0;
    while result < value
      invariant result == Pow2(k) && k <= 63
      invariant forall j: nat :: value <= Pow2(j) ==> result <= Pow2(j)
      decreases value - result
    {
      forall j: nat | value <= Pow2(j) ensures 2 * result <= Pow2(j) {
        Pow2Monotone(j, k);
        Pow2Monotone(k + 1, j);
      }
      WordIsPow2();
      Pow2Monotone(63, k);
      ghost var was := result;
      result := Mod(2 * result, WORD);
      ModSmall(2 * was, WORD);
      k := k + 1;
    }
  }

  // ---------------------------------------------------------------- circular copies

  /** The cells after src has been written over them, element by element, from pos on and around. */
  function Overlay<T>(cells: seq<T>, pos: nat, src: seq<T>): (r: seq<T>)
    ensures |r| == |cells|
  {
    seq(|cells|, j requires 0 <= j < |cells| =>
      var d := Mod(j - pos, |cells|);
      if d < |src| then src[d] else cells[j])
  }

  /** n cells read one by one from pos on and around. */
  function Extract<T>(cells: seq<T>, pos: nat, n: nat): (r: seq<T>)
    requires |cells| > 0
    ensures |r| == n
  {
    seq(n, i requires 0 <= i < n => cells[Mod(pos + i, |cells|)])
  }

  // ---------------------------------------------------------------- the ring as a value

  datatype Ring<T> = Ring(cells: seq<T>, writePos: nat, readPos: nat, dropped: nat)

  ghost predicate Proper<T>(r: Ring<T>, k: nat) {
    && k <= 63 && |r.cells| == Pow2(k)
    && r.writePos < WORD && r.readPos < WORD && r.dropped < WORD
    && Filled(r) <= |r.cells|
  }

  function Filled<T>(r: Ring<T>): nat {
    Sub64(r.writePos, r.readPos)
  }

  /** Unread samples, oldest first. */
  function Contents<T>(r: Ring<T>): seq<T>
    requires |r.cells| > 0
  {
    Extract(r.cells, r.readPos, Filled(r))
  }

  /** What write() does: the newest samples that do not fit are dropped. */
  function Written<T>(r: Ring<T>, src: seq<T>): Ring<T>
    requires Filled(r) <= |r.cells|
  {
    var n := Min(|src|, |r.cells| - Filled(r));
    Ring(Overlay(r.cells, r.writePos, src[..n]), Mod(r.writePos + n, WORD), r.readPos, Mod(r.dropped + |src| - n, WORD))
  }

  /** What read() leaves behind. */
  function Consumed<T>(r: Ring<T>, count: nat): Ring<T> {
    r.(readPos := Mod(r.readPos + Min(count, Filled(r)), WORD))
  }

  function Cleared<T>(r: Ring<T>): Ring<T> {
    r.(readPos := r.writePos, dropped := 0)
  }

  // ---------------------------------------------------------------- arithmetic of positions

  /** The capacity divides 2^64, so positions keep their cell when they wrap. */
  lemma CapacityDivides(k: nat)
    requires k <= 63
    ensures WORD == Pow2(k) * Pow2(64 - k) && Pow2(k) <= WORD / 2
  {
    WordIsPow2();
    Pow2Sum(k, 64 - k);
    Pow2Sum(63, 1);
    Pow2Monotone(k, 63);
    assert Pow2(1) == 2;
  }

  lemma WrappedCell(p: int, k: nat)
    requires k <= 63
    ensures Mod(Mod(p, WORD), Pow2(k)) == Mod(p, Pow2(k))
  {
    hide Mod, Pow2;
    CapacityDivides(k);
    ModOfMultiple(p, Pow2(k), Pow2(64 - k));
  }

  lemma WrappedOffset(p: nat, i: nat, k: nat)
    requires k <= 63
    ensures Mod(Mod(p, WORD) + i, Pow2(k)) == Mod(p + i, Pow2(k))
  {
    hide Mod, Pow2;
    var m := Pow2(k);
    WrappedCell(p, k);
    ModSum(Mod(p, WORD), i, m);
    ModSum(p, i, m);
  }

  /** Advancing the write position by n adds n to the modular difference, while it stays below the modulus. */
  lemma AdvanceWrite(w: nat, r: nat, n: nat, m: nat)
    requires m > 0 && Mod(w - r, m) + n < m
    ensures Mod(Mod(w + n, m) - r, m) == Mod(w - r, m) + n
  {
    hide Mod;
    ModDifference(w + n, r, m);
    var q := Decompose(w - r, m);
    ModIs(w + n - r, m, q, Mod(w - r, m) + n);
  }

  lemma AdvanceRead(w: nat, r: nat, n: nat, m: nat)
    requires m > 0 && n <= Mod(w - r, m)
    ensures Mod(w - Mod(r + n, m), m) == Mod(w - r, m) - n
  {
    hide Mod;
    ModDifference(w, r + n, m);
    var q := Decompose(w - r, m);
    ModIs(w - (r + n), m, q, Mod(w - r, m) - n);
  }

  /** The distance from the write position to the cell of the i-th unread or next sample. */
  lemma Distance<T>(r: Ring<T>, k: nat, i: nat)
    requires Proper(r, k)
    ensures Mod(Mod(r.readPos + i, |r.cells|) - r.writePos, |r.cells|) == Mod(i - Filled(r), |r.cells|)
  {
    hide Mod, Pow2;
    var m := Pow2(k);
    ModDifference(r.readPos + i, r.writePos, m);
    var e := r.writePos - r.readPos;
    WrappedCell(e, k);
    ModDifference(i, e, m);
    ModDifference(i, Mod(e, WORD), m);
  }

  lemma WrittenStaysProper<T>(r: Ring<T>, k: nat, src: seq<T>)
    requires Proper(r, k)
    ensures Proper(Written(r, src), k)
    ensures Filled(Written(r, src)) == Filled(r) + Min(|src|, |r.cells| - Filled(r))
  {
    hide Overlay, Pow2, Mod;
    CapacityDivides(k);
    AdvanceWrite(r.writePos, r.readPos, Min(|src|, |r.cells| - Filled(r)), WORD);
  }

  lemma OverlayCell<T>(r: Ring<T>, k: nat, src: seq<T>, i: nat)
    requires Proper(r, k) && |src| <= |r.cells| - Filled(r) && i < Filled(r) + |src|
    ensures Overlay(r.cells, r.writePos, src)[Mod(r.readPos + i, |r.cells|)]
         == if i < Filled(r) then r.cells[Mod(r.readPos + i, |r.cells|)] else src[i - Filled(r)]
  {
    hide Pow2, Mod;
    Distance(r, k, i);
    var m := |r.cells|;
    if i < Filled(r) {
      ModIs(i - Filled(r), m, -1, m - (Filled(r) - i));
    } else {
      ModSmall(i - Filled(r), m);
    }
  }

  /** write() appends what fits, at any position of the counters. */
  lemma WriteIsFifo<T>(r: Ring<T>, k: nat, src: seq<T>)
    requires Proper(r, k)
    ensures Contents(Written(r, src)) == Contents(r) + src[..Min(|src|, |r.cells| - Filled(r))]
  {
    hide Overlay, Pow2, Mod;
    WrittenStaysProper(r, k, src);
    var n := Min(|src|, |r.cells| - Filled(r));
    forall i | 0 <= i < Filled(r) + n
      ensures Contents(Written(r, src))[i] == (Contents(r) + src[..n])[i]
    {
      OverlayCell(r, k, src[..n], i);
    }
  }

  lemma ConsumedStaysProper<T>(r: Ring<T>, k: nat, count: nat)
    requires Proper(r, k)
    ensures Proper(Consumed(r, count), k)
    ensures Filled(Consumed(r, count)) == Filled(r) - Min(count, Filled(r))
  {
    hide Pow2, Mod;
    CapacityDivides(k);
    AdvanceRead(r.writePos, r.readPos, Min(count, Filled(r)), WORD);
  }

  /** read() takes the oldest samples and nothing else. */
  lemma ReadIsFifo<T>(r: Ring<T>, k: nat, count: nat)
    requires Proper(r, k)
    ensures var n := Min(count, Filled(r));
            Contents(r) == Extract(r.cells, r.readPos, n) + Contents(Consumed(r, count))
  {
    hide Pow2, Mod;
    ConsumedStaysProper(r, k, count);
    var n := Min(count, Filled(r));
    var rest := Contents(Consumed(r, count));
    forall i | 0 <= i < |rest| ensures rest[i] == Contents(r)[n + i] {
      WrappedOffset(r.readPos + n, i, k);
    }
  }

  /** clear() empties the ring. */
  lemma ClearEmpties<T>(r: Ring<T>, k: nat)
    requires Proper(r, k)
    ensures Proper(Cleared(r), k) && Contents(Cleared(r)) == []
  {
  }

  // ---------------------------------------------------------------- the two-part copies

  /** What one memcpy does. */
  function Patch<T>(cells: seq<T>, at: nat, src: seq<T>): (r: seq<T>)
    requires at + |src| <= |cells|
    ensures |r| == |cells|
  {
    cells[..at] + src + cells[at + |src|..]
  }

  lemma CellFrom(j: nat, pos: nat, m: nat)
    requires j < m
    ensures var at := Mod(pos, m); Mod(j - pos, m) == if j >= at then j - at else j - at + m
  {
    hide Mod;
    ModDifference(j, pos, m);
    var at := Mod(pos, m);
    ModIs(j - at, m, if j >= at then 0 else -1, if j >= at then j - at else j - at + m);
  }

  /** Up to the end, then from the start: the same cells as going around one by one. */
  lemma TwoPartWrite<T>(cells: seq<T>, pos: nat, src: seq<T>)
    requires 0 < |src| <= |cells|
    ensures var at := Mod(pos, |cells|); var first := Min(|cells| - at, |src|);
            Overlay(cells, pos, src) == Patch(Patch(cells, at, src[..first]), 0, src[first..])
  {
    hide Mod;
    var m := |cells|;
    var at := Mod(pos, m);
    var first := Min(m - at, |src|);
    var two := Patch(Patch(cells, at, src[..first]), 0, src[first..]);
    forall j | 0 <= j < m ensures Overlay(cells, pos, src)[j] == two[j] {
      CellFrom(j, pos, m);
    }
  }

  lemma TwoPartRead<T>(cells: seq<T>, pos: nat, n: nat)
    requires 0 < n <= |cells|
    ensures var at := Mod(pos, |cells|); var first := Min(|cells| - at, n);
            Extract(cells, pos, n) == cells[at..at + first] + cells[..n - first]
  {
    hide Mod;
    var m := |cells|;
    var at := Mod(pos, m);
    var first := Min(m - at, n);
    var two := cells[at..at + first] + cells[..n - first];
    forall i | 0 <= i < n ensures Extract(cells, pos, n)[i] == two[i] {
      ModSum(pos, i, m);
      ModIs(at + i, m, if at + i < m then 0 else 1, if at + i < m then at + i else at + i - m);
    }
  }

  class SampleRing {
    const data: array<Sample>
    const mask: nat
    var writePos: nat
    var readPos: nat
    var dropped: nat
    ghost const bits: nat

    ghost function Snapshot(): Ring<Sample>
      reads this, data
    {
      Ring(data[..], writePos, readPos, dropped)
    }

    ghost predicate Valid()
      reads this, data
    {
      Proper(Snapshot(), bits) && mask == data.Length - 1
    }

    constructor (capacity: nat)
      requires capacity <= WORD / 2
      ensures Valid() && fresh(data) && capacity <= data.Length && Contents(Snapshot()) == []
    {
      var n, k := RoundUpPow2(capacity);
      data := new Sample[n](_ => SILENCE);
      mask := n - 1;
      writePos, readPos, dropped := 0, 0, 0;
      bits := k;
    }

    /** Never blocks: samples that do not fit are counted and dropped, the newest first. */
    method Write(src: seq<Sample>)
      requires Valid()
      modifies data, this
      ensures Valid() && Snapshot() == Written(old(Snapshot()), src)
      ensures Contents(Snapshot()) == old(Contents(Snapshot())) + src[..Min(|src|, data.Length - old(Filled(Snapshot())))]
    {
      hide Mod, Pow2, Overlay, Extract, Patch, And;
      ghost var before := Snapshot();
      WriteIsFifo(before, bits, src);
      WrittenStaysProper(before, bits, src);
      var free := data.Length - Sub64(writePos, readPos);
      var count := |src|;
      ModSmall(dropped, WORD);
      if count > free {
        dropped := Mod(dropped + (count - free), WORD);
        count := free;
        if count == 0 {
          OverlayNothing(before.cells, writePos);
          ModSmall(writePos, WORD);
          return;
        }
      }
      MaskIsMod(writePos, bits);
      var offset := And(writePos, mask);
      var first := if data.Length - offset < count then data.Length - offset else count;
      Memcpy(offset, src[..first]);
      if count > first {
        Memcpy(0, src[first..count]);
      }
      assert src[..count][..first] == src[..first] && src[..count][first..] == src[first..count];
      CopiesAreOverlay(before.cells, writePos, src[..count], first);
      writePos := Mod(writePos + count, WORD);
    }

    method Memcpy(at: nat, src: seq<Sample>)
      requires at + |src| <= data.Length
      modifies data
      ensures data[..] == Patch(old(data[..]), at, src)
    {
      forall i | 0 <= i < |src| {
        data[at + i] := src[i];
      }
    }

    /** Returns what there is, up to count, oldest first. */
    method Read(count: nat) returns (dst: seq<Sample>)
      requires Valid()
      modifies this
      ensures Valid() && Snapshot() == Consumed(old(Snapshot()), count)
      ensures old(Contents(Snapshot())) == dst + Contents(Snapshot())
      ensures |dst| == Min(count, old(Filled(Snapshot())))
    {
      hide Mod, Pow2, And, Extract;
      ghost var before := Snapshot();
      ReadIsFifo(before, bits, count);
      ConsumedStaysProper(before, bits, count);
      var filled := Sub64(writePos, readPos);
      var n := if count > filled then filled else count;
      if n == 0 {
        ModSmall(readPos, WORD);
        return [];
      }
      dst := CopyOut(n);
      readPos := Mod(readPos + n, WORD);
    }

    /** One memcpy up to the end of the buffer, another from its start. */
    method CopyOut(n: nat) returns (dst: seq<Sample>)
      requires Valid() && 0 < n <= data.Length
      ensures dst == Extract(data[..], readPos, n)
    {
      hide Mod, Pow2, And, Extract;
      MaskIsMod(readPos, bits);
      var offset := And(readPos, mask);
      var first := if data.Length - offset < n then data.Length - offset else n;
      TwoPartRead(data[..], readPos, n);
      dst := data[offset..offset + first];
      if n > first {
        dst := dst + data[..n - first];
      }
    }

    method Clear()
      requires Valid()
      modifies this
      ensures Valid() && Snapshot() == Cleared(old(Snapshot())) && Contents(Snapshot()) == []
    {
      readPos := writePos;
      dropped := 0;
    }
  }

  lemma OverlayNothing<T>(cells: seq<T>, pos: nat)
    ensures Overlay(cells, pos, []) == cells
  {
    forall j | 0 <= j < |cells| ensures Overlay(cells, pos, [])[j] == cells[j] {
      assert Mod(j - pos, |cells|) >= 0;
    }
  }

  lemma CopiesAreOverlay<T>(cells: seq<T>, pos: nat, src: seq<T>, first: nat)
    requires |src| <= |cells| && |cells| > 0 && first == Min(|cells| - Mod(pos, |cells|), |src|)
    ensures var one := Patch(cells, Mod(pos, |cells|), src[..first]);
            Overlay(cells, pos, src) == if |src| > first then Patch(one, 0, src[first..]) else one
  {
    if src == [] {
      OverlayNothing(cells, pos);
      assert Patch(cells, Mod(pos, |cells|), []) == cells;
    } else {
      TwoPartWrite(cells, pos, src);
      var one := Patch(cells, Mod(pos, |cells|), src[..first]);
      assert Patch(one, 0, []) == one;
    }
  }
}
