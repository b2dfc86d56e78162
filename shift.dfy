/** The register traffic of the TAP signal driver: what one TCK cycle writes and
    reads, which signals each shift operation drives bit by bit, and what the
    sampled TDO stream is. */
module TapShift {
  import opened Wrappers
  import opened ParportIo
  import opened BitPacking
  import opened CableProfile

  /** The trace `t` followed by one TCK cycle: the signal byte with TCK low, the
      same byte with TCK high, then a status read when TDO is sampled. */
  function Cycle(t: seq<Access>, p: Profile, s: Signals, sample: bool): seq<Access> {
    var clocked := t + [DataOut(Drive(p, s))] + [DataOut(Drive(p, s) | p.tckValue)];
    if sample then clocked + [StatusIn] else clocked
  }

  /** The trace `t` followed by the cycles of `sigs`, one after another. */
  function Shift(t: seq<Access>, p: Profile, sigs: seq<Signals>, sample: bool): seq<Access> {
    if sigs == [] then t
    else Cycle(Shift(t, p, sigs[..|sigs| - 1], sample), p, sigs[|sigs| - 1], sample)
  }

  /** Shifting one more signal appends its cycle. */
  lemma ShiftOneMore(t: seq<Access>, p: Profile, sigs: seq<Signals>, k: nat, sample: bool)
    requires k < |sigs|
    ensures Shift(t, p, sigs[..k + 1], sample) == Cycle(Shift(t, p, sigs[..k], sample), p, sigs[k], sample)
  {
    assert sigs[..k + 1][..k] == sigs[..k];
  }

  /** The logical TDO levels read back while `sigs` is shifted into a cable that
      answers `f`. */
  function Samples(p: Profile, f: bv8 -> bv8, sigs: seq<Signals>): (r: seq<bool>)
    ensures |r| == |sigs|
  {
    if |sigs| == 0 then []
    else Samples(p, f, sigs[..|sigs| - 1]) + [Sample(p, f(Drive(p, sigs[|sigs| - 1]) | p.tckValue))]
  }

  /** The number of bits a block shift of `length` clocks: at least one, because
      the final bit is clocked outside the loop. */
  function Clocked(length: int): (n: nat)
    ensures length >= 1 ==> n == length
    ensures length < 1 ==> n == 1
  {
    if length < 1 then 1 else length
  }

  /** The TDI level of bit `i` of a block shift. Without a buffer the driver's
      byte variable is never loaded nor shifted, so its initial value `garbage`
      drives every bit. */
  function BlockTdi(tdi: Option<seq<bv8>>, garbage: bv8, i: nat): bool
    requires tdi.Some? ==> i < 8 * |tdi.value|
  {
    if tdi.Some? then StreamBit(tdi.value, i) else garbage & 1 == 1
  }

  /** The signals of a block shift of `n` bits: TDI from the buffer LSB-first,
      TMS low on every bit but the last, which carries `last`. */
  function BlockSignals(tdi: Option<seq<bv8>>, garbage: bv8, n: nat, last: bool): (r: seq<Signals>)
    requires tdi.Some? ==> |tdi.value| >= ByteCount(n)
    ensures |r| == n
  {
    seq(n, i requires 0 <= i < n => Signals(i == n - 1 && last, BlockTdi(tdi, garbage, i)))
  }

  /** The signals of bit `i` of a block shift, when the TDI byte variable holds
      the current buffer byte shifted `i % 8` times (or the initial value when
      there is no buffer). */
  lemma BlockSignalAt(tdi: Option<seq<bv8>>, garbage: bv8, n: nat, last: bool, i: nat, j: nat, r: nat, tdiByte: bv8)
    requires tdi.Some? ==> |tdi.value| >= ByteCount(n)
    requires i < n && i == 8 * j + r && r < 8
    requires tdi.Some? ==> j < |tdi.value| && tdiByte == Shr(tdi.value[j], r)
    requires tdi.None? ==> tdiByte == garbage
    ensures BlockSignals(tdi, garbage, n, last)[i] == Signals(i == n - 1 && last, tdiByte & 1 == 1)
  {
    if tdi.Some? {
      StreamBitAt(tdi.value, i, j, r);
    }
  }

  /** Bit `i` of a block shift drives TDI with bit `i % 8` of buffer byte
      `i / 8`, and TMS low except on the last bit, which carries `last`. */
  lemma BlockSignalsBits(tdi: seq<bv8>, garbage: bv8, n: nat, last: bool, i: nat)
    requires |tdi| >= ByteCount(n) && i < n
    ensures BlockSignals(Some(tdi), garbage, n, last)[i] == Signals(i == n - 1 && last, Bit(tdi[i / 8], i % 8))
  {
    StreamBitAt(tdi, i, i / 8, i % 8);
    ShrBit(tdi[i / 8], i % 8);
  }

  /** One step of the block shift at bit `i`, bit `r` of byte `j`: the
      sampled cycle of bit `i` extends the trace of the first `i` bits, and the
      TDI byte variable shifted once more holds the next bit of the byte. */
  lemma BlockStep(p: Profile, tdi: Option<seq<bv8>>, garbage: bv8, n: nat, last: bool,
                  i: nat, j: nat, r: nat, tdiByte: bv8,
                  t0: seq<Access>, before: seq<Access>, after: seq<Access>)
    requires TdiCursor(tdi, garbage, n, i, j, r, tdiByte)
    requires before == Shift(t0, p, BlockSignals(tdi, garbage, n, last)[..i], true)
    requires after == Cycle(before, p, Signals(i == n - 1 && last, tdiByte & 1 == 1), true)
    ensures BlockSignals(tdi, garbage, n, last)[i] == Signals(i == n - 1 && last, tdiByte & 1 == 1)
    ensures after == Shift(t0, p, BlockSignals(tdi, garbage, n, last)[..i + 1], true)
  {
    BitOf(i, j, r);
    BlockSignalAt(tdi, garbage, n, last, i, j, r, tdiByte);
    ShiftOneMore(t0, p, BlockSignals(tdi, garbage, n, last), i, true);
  }

  /** The sample of cycle `i` is the status bit read after driving its
      signals with TCK high. */
  lemma {:induction false} SampleAt(p: Profile, f: bv8 -> bv8, sigs: seq<Signals>, i: nat, s: Signals)
    requires i < |sigs| && sigs[i] == s
    ensures Samples(p, f, sigs)[i] == Sample(p, f(Drive(p, s) | p.tckValue))
    decreases |sigs|
  {
    if i < |sigs| - 1 {
      SampleAt(p, f, sigs[..|sigs| - 1], i, s);
    }
  }

  /** The state of a block shift before bit `i`, bit `r` of byte `j`: the
      trace holds the cycles of the first `i` bits, the TDI byte variable
      holds the current buffer byte shifted `r` times (the initial value when
      there is no buffer), and the TDO byte holds the samples of the current
      byte read so far, packed LSB-first. */
  ghost predicate BlockState(p: Profile, f: bv8 -> bv8, tdi: Option<seq<bv8>>, garbage: bv8, n: nat, last: bool,
                             t0: seq<Access>, trace: seq<Access>,
                             i: nat, j: nat, r: nat, tdiByte: bv8, tdoByte: bv8)
  {
    && TdiCursor(tdi, garbage, n, i, j, r, tdiByte)
    && tdoByte == PackBits(Samples(p, f, BlockSignals(tdi, garbage, n, last)), 8 * j, i)
    && trace == Shift(t0, p, BlockSignals(tdi, garbage, n, last)[..i], true)
  }

  /** Bit `i` of an `n`-bit block is bit `r` of byte `j`, and the TDI byte
      variable holds that buffer byte shifted `r` times (the initial value when
      there is no buffer). */
  ghost predicate TdiCursor(tdi: Option<seq<bv8>>, garbage: bv8, n: nat, i: nat, j: nat, r: nat, tdiByte: bv8) {
    && (tdi.Some? ==> |tdi.value| >= ByteCount(n))
    && i < n && i == 8 * j + r && r < 8
    && (tdi.Some? ==> j < |tdi.value| && tdiByte == Shr(tdi.value[j], r))
    && (tdi.None? ==> tdiByte == garbage)
  }

  /** Moving the cursor to the next bit: within a byte the TDI byte variable
      is shifted once more; after the eighth bit the next buffer byte, which
      exists because bit `i + 1` is still in the block, is loaded. */
  lemma CursorNext(tdi: Option<seq<bv8>>, garbage: bv8, n: nat, i: nat, j: nat, r: nat, tdiByte: bv8)
    requires TdiCursor(tdi, garbage, n, i, j, r, tdiByte) && i < n - 1
    ensures i % 8 == r
    ensures r < 7 ==> TdiCursor(tdi, garbage, n, i + 1, j, r + 1, if tdi.Some? then tdiByte >> 1 else tdiByte)
    ensures r == 7 ==> tdi.Some? ==> j + 1 < |tdi.value|
    ensures r == 7 ==> TdiCursor(tdi, garbage, n, i + 1, j + 1, 0,
                                 if tdi.Some? && j + 1 < |tdi.value| then tdi.value[j + 1] else tdiByte)
  {
    BitOf(i, j, r);
    if r == 7 {
      ByteOfBit(i + 1, j + 1, 0, n);
      if tdi.Some? {
        ShrAdvance(tdi.value, j, r, tdiByte, j + 1, 0, tdi.value[j + 1]);
      }
    } else if tdi.Some? {
      ShrAdvance(tdi.value, j, r, tdiByte, j, r + 1, tdiByte >> 1);
    }
  }

  /** The block shift starts at bit 0 with the first buffer byte loaded and an
      empty TDO byte. */
  lemma BlockStart(p: Profile, f: bv8 -> bv8, tdi: Option<seq<bv8>>, garbage: bv8, n: nat, last: bool,
                   t0: seq<Access>, tdiByte: bv8)
    requires tdi.Some? ==> |tdi.value| >= ByteCount(n)
    requires n >= 1
    requires tdiByte == if tdi.Some? then tdi.value[0] else garbage
    ensures BlockState(p, f, tdi, garbage, n, last, t0, t0, 0, 0, 0, tdiByte, 0)
  {
    assert BlockSignals(tdi, garbage, n, last)[..0] == [];
  }

  /** One bit of the loop of a block shift, bit `i` (not the last), bit `r <
      7` of its byte: clocking it with TMS low and TDI from the low bit of the
      TDI byte, adding its sample `b` at position `i % 8` to the TDO byte and
      shifting the TDI byte reaches the state before bit `i + 1`. */
  lemma BlockNextBit(p: Profile, f: bv8 -> bv8, tdi: Option<seq<bv8>>, garbage: bv8, n: nat, last: bool,
                     t0: seq<Access>, before: seq<Access>, i: nat, j: nat, r: nat, tdiByte: bv8, tdoByte: bv8,
                     b: bool, after: seq<Access>)
    requires BlockState(p, f, tdi, garbage, n, last, t0, before, i, j, r, tdiByte, tdoByte)
    requires i < n - 1 && r < 7
    requires after == Cycle(before, p, Signals(false, tdiByte & 1 == 1), true)
    requires b == Sample(p, f(Drive(p, Signals(false, tdiByte & 1 == 1)) | p.tckValue))
    ensures BlockState(p, f, tdi, garbage, n, last, t0, after, i + 1, j, r + 1,
                       if tdi.Some? then tdiByte >> 1 else tdiByte, tdoByte + Place(b, i % 8))
  {
    var sigs := BlockSignals(tdi, garbage, n, last);
    CursorNext(tdi, garbage, n, i, j, r, tdiByte);
    BlockStep(p, tdi, garbage, n, last, i, j, r, tdiByte, t0, before, after);
    PackSample(p, f, sigs, i, j, r, Signals(false, tdiByte & 1 == 1), tdoByte, b);
  }

  /** The same for the eighth bit of a byte: its sample completes byte `j` of
      the packed samples, and the next state starts byte `j + 1` with an empty
      TDO byte and the next buffer byte loaded. */
  lemma BlockNextByte(p: Profile, f: bv8 -> bv8, tdi: Option<seq<bv8>>, garbage: bv8, n: nat, last: bool,
                      t0: seq<Access>, before: seq<Access>, i: nat, j: nat, r: nat, tdiByte: bv8, tdoByte: bv8,
                      b: bool, after: seq<Access>)
    requires BlockState(p, f, tdi, garbage, n, last, t0, before, i, j, r, tdiByte, tdoByte)
    requires i < n - 1 && r == 7
    requires after == Cycle(before, p, Signals(false, tdiByte & 1 == 1), true)
    requires b == Sample(p, f(Drive(p, Signals(false, tdiByte & 1 == 1)) | p.tckValue))
    ensures tdoByte + Place(b, i % 8) == Pack(Samples(p, f, BlockSignals(tdi, garbage, n, last)))[j]
    ensures tdi.Some? ==> j + 1 < |tdi.value|
    ensures BlockState(p, f, tdi, garbage, n, last, t0, after, i + 1, j + 1, 0,
                       if tdi.Some? && j + 1 < |tdi.value| then tdi.value[j + 1] else tdiByte, 0)
  {
    var sigs := BlockSignals(tdi, garbage, n, last);
    CursorNext(tdi, garbage, n, i, j, r, tdiByte);
    BlockStep(p, tdi, garbage, n, last, i, j, r, tdiByte, t0, before, after);
    PackSample(p, f, sigs, i, j, r, Signals(false, tdiByte & 1 == 1), tdoByte, b);
  }

  /** Adding the sample `b` of cycle `i`, bit `r` of byte `j`, to the bits of
      byte `j` sampled before it packs one more sample. */
  lemma PackSample(p: Profile, f: bv8 -> bv8, sigs: seq<Signals>, i: nat, j: nat, r: nat, s: Signals,
                   acc: bv8, b: bool)
    requires i < |sigs| && sigs[i] == s && r < 8 && i == 8 * j + r
    requires acc == PackBits(Samples(p, f, sigs), 8 * j, i)
    requires b == Sample(p, f(Drive(p, s) | p.tckValue))
    ensures acc + Place(b, i % 8) == PackBits(Samples(p, f, sigs), 8 * j, i + 1)
    ensures r == 7 || i + 1 == |sigs| ==> acc + Place(b, i % 8) == Pack(Samples(p, f, sigs))[j]
  {
    SampleAt(p, f, sigs, i, s);
    PackNext(Samples(p, f, sigs), i, j, r, acc, b);
  }

  /** The last bit of a block shift, clocked with TMS `last`, completes the
      trace of the whole shift and the last byte of the packed samples. */
  lemma BlockFinish(p: Profile, f: bv8 -> bv8, tdi: Option<seq<bv8>>, garbage: bv8, n: nat, last: bool,
                    t0: seq<Access>, before: seq<Access>, after: seq<Access>,
                    i: nat, j: nat, r: nat, tdiByte: bv8, tdoByte: bv8, b: bool)
    requires BlockState(p, f, tdi, garbage, n, last, t0, before, i, j, r, tdiByte, tdoByte)
    requires i == n - 1
    requires after == Cycle(before, p, Signals(last, tdiByte & 1 == 1), true)
    requires b == Sample(p, f(Drive(p, Signals(last, tdiByte & 1 == 1)) | p.tckValue))
    ensures after == Shift(t0, p, BlockSignals(tdi, garbage, n, last), true)
    ensures j == ByteCount(n) - 1
    ensures tdoByte + Place(b, i % 8) == Pack(Samples(p, f, BlockSignals(tdi, garbage, n, last)))[j]
  {
    var sigs := BlockSignals(tdi, garbage, n, last);
    var s := Signals(last, tdiByte & 1 == 1);
    BlockStep(p, tdi, garbage, n, last, i, j, r, tdiByte, t0, before, after);
    assert sigs[..i + 1] == sigs;
    PackSample(p, f, sigs, i, j, r, s, tdoByte, b);
    ByteOfBit(i, j, r, n);
  }

  /** The signals of a TMS sequence: TMS from the pattern LSB-first, TDI high. */
  function TmsSignals(pat: seq<bv8>, n: nat): (r: seq<Signals>)
    requires |pat| >= ByteCount(n)
    ensures |r| == n
  {
    seq(n, i requires 0 <= i < n => Signals(Bit(pat[i / 8], i % 8), true))
  }

  /** One step of the TMS shift loop: the cycle of bit `i` extends the trace of
      the first `i` bits, and the pattern byte shifted once more holds the next
      bit unless a new byte starts. */
  lemma TmsStep(p: Profile, pat: seq<bv8>, n: nat, i: nat, tms: bv8,
                t0: seq<Access>, before: seq<Access>, after: seq<Access>)
    requires |pat| >= ByteCount(n) && i < n
    requires tms == Shr(pat[i / 8], i % 8)
    requires before == Shift(t0, p, TmsSignals(pat, n)[..i], false)
    requires after == Cycle(before, p, Signals(tms & 1 == 1, true), false)
    ensures after == Shift(t0, p, TmsSignals(pat, n)[..i + 1], false)
    ensures (i + 1) % 8 != 0 ==> tms >> 1 == Shr(pat[(i + 1) / 8], (i + 1) % 8)
  {
    ShrBit(pat[i / 8], i % 8);
    ShiftOneMore(t0, p, TmsSignals(pat, n), i, false);
    ShrNext(pat, i);
  }

  /** The signals of a byte shift: TDI from the byte LSB-first, TMS low. */
  function ByteSignals(b: bv8): (r: seq<Signals>)
    ensures |r| == 8
  {
    seq(8, k requires 0 <= k < 8 => Signals(false, Bit(b, k)))
  }

  /** The data bytes a shift of `sigs` writes: per cycle, the signal byte with
      TCK low and then with TCK high. */
  function ClockBytes(p: Profile, sigs: seq<Signals>): (w: seq<bv8>)
    ensures |w| == 2 * |sigs|
  {
    if sigs == [] then []
    else ClockBytes(p, sigs[..|sigs| - 1]) + [Drive(p, sigs[|sigs| - 1]), Drive(p, sigs[|sigs| - 1]) | p.tckValue]
  }

  /** Cycle `k` writes the bytes at positions `2k` (TCK low) and `2k + 1`
      (TCK high). */
  lemma {:induction false} ClockBytesAt(p: Profile, sigs: seq<Signals>, k: nat)
    requires k < |sigs|
    ensures ClockBytes(p, sigs)[2 * k] == Drive(p, sigs[k])
    ensures ClockBytes(p, sigs)[2 * k + 1] == Drive(p, sigs[k]) | p.tckValue
    decreases |sigs|
  {
    var n := |sigs| - 1;
    if k < n {
      ClockBytesAt(p, sigs[..n], k);
    }
  }

  /** A cycle writes its two bytes and reads the status once if it samples. */
  lemma CycleAccesses(t: seq<Access>, p: Profile, s: Signals, sample: bool)
    ensures DataWrites(Cycle(t, p, s, sample)) == DataWrites(t) + [Drive(p, s), Drive(p, s) | p.tckValue]
    ensures StatusReads(Cycle(t, p, s, sample)) == StatusReads(t) + (if sample then 1 else 0)
  {
    ClockAccesses(t, Drive(p, s), Drive(p, s) | p.tckValue, sample);
  }

  /** The same for any two bytes written. */
  lemma ClockAccesses(t: seq<Access>, lo: bv8, hi: bv8, sample: bool)
    ensures var clocked := t + [DataOut(lo)] + [DataOut(hi)];
      && DataWrites(if sample then clocked + [StatusIn] else clocked) == DataWrites(t) + [lo, hi]
      && StatusReads(if sample then clocked + [StatusIn] else clocked) == StatusReads(t) + (if sample then 1 else 0)
  {
    AccessAppend(t, DataOut(lo));
    AccessAppend(t + [DataOut(lo)], DataOut(hi));
    AccessAppend(t + [DataOut(lo)] + [DataOut(hi)], StatusIn);
    assert DataWrites(t) + [lo] + [hi] == DataWrites(t) + [lo, hi];
  }

  /** Writing two more bytes after a trace that has written `prev` since `t`. */
  lemma WritesStep(t: seq<Access>, u: seq<Access>, prev: seq<bv8>, lo: bv8, hi: bv8, sample: bool)
    requires DataWrites(u) == DataWrites(t) + prev
    ensures var clocked := u + [DataOut(lo)] + [DataOut(hi)];
      DataWrites(if sample then clocked + [StatusIn] else clocked) == DataWrites(t) + (prev + [lo, hi])
  {
    ClockAccesses(u, lo, hi, sample);
    AppendAssoc(DataWrites(t), prev, [lo, hi]);
  }

  /** A shift writes exactly the clock bytes of its signals. */
  lemma {:induction false} ShiftWrites(t: seq<Access>, p: Profile, sigs: seq<Signals>, sample: bool)
    ensures DataWrites(Shift(t, p, sigs, sample)) == DataWrites(t) + ClockBytes(p, sigs)
    decreases |sigs|
  {
    if sigs != [] {
      var n := |sigs| - 1;
      ShiftWrites(t, p, sigs[..n], sample);
      WritesStep(t, Shift(t, p, sigs[..n], sample), ClockBytes(p, sigs[..n]),
                 Drive(p, sigs[n]), Drive(p, sigs[n]) | p.tckValue, sample);
    }
  }

  /** A shift reads the status once per cycle if it samples and never otherwise. */
  lemma {:induction false} ShiftReads(t: seq<Access>, p: Profile, sigs: seq<Signals>, sample: bool)
    ensures StatusReads(Shift(t, p, sigs, sample)) == StatusReads(t) + (if sample then |sigs| else 0)
    decreases |sigs|
  {
    if sigs != [] {
      var n := |sigs| - 1;
      ShiftReads(t, p, sigs[..n], sample);
      CycleAccesses(Shift(t, p, sigs[..n], sample), p, sigs[n], sample);
    }
  }

  /** A shift only appends: the earlier trace is kept as it was, followed by two
      or three accesses per cycle. */
  lemma {:induction false} ShiftExtends(t: seq<Access>, p: Profile, sigs: seq<Signals>, sample: bool)
    ensures |Shift(t, p, sigs, sample)| == |t| + (if sample then 3 else 2) * |sigs|
    ensures Shift(t, p, sigs, sample)[..|t|] == t
    decreases |sigs|
  {
    if sigs != [] {
      var n := |sigs| - 1;
      var u := Shift(t, p, sigs[..n], sample);
      ShiftExtends(t, p, sigs[..n], sample);
      assert Cycle(u, p, sigs[n], sample)[..|u|] == u;
    }
  }

  /** Two bytes are equal when all eight bits are. */
  lemma BitsDetermineByte(a: bv8, b: bv8)
    requires forall k :: 0 <= k < 8 ==> Bit(a, k) == Bit(b, k)
    ensures a == b
  {
    assert Bit(a, 0) == Bit(b, 0) && Bit(a, 1) == Bit(b, 1);
    assert Bit(a, 2) == Bit(b, 2) && Bit(a, 3) == Bit(b, 3);
    assert Bit(a, 4) == Bit(b, 4) && Bit(a, 5) == Bit(b, 5);
    assert Bit(a, 6) == Bit(b, 6) && Bit(a, 7) == Bit(b, 7);
  }

  /** With TDO wired to TDI, each sample reads back the TDI level driven in
      its cycle. */
  lemma SampleEchoes(p: Profile, f: bv8 -> bv8, sigs: seq<Signals>, i: nat)
    requires WellFormed(p) && i < |sigs|
    requires forall b: bv8 :: Sample(p, f(b)) == (b & p.tdiValue != 0)
    ensures Samples(p, f, sigs)[i] == sigs[i].tdi
  {
    SampleAt(p, f, sigs, i, sigs[i]);
    DriveDecodes(p, sigs[i]);
  }

  /** Loopback round trip: when TDO mirrors TDI, the packed samples of a block
      shift reproduce the first `n` bits of the TDI buffer, LSB-first, and the
      unused high bits of the last byte are zero. */
  lemma Loopback(p: Profile, f: bv8 -> bv8, tdi: seq<bv8>, garbage: bv8, n: nat, last: bool, i: nat)
    requires WellFormed(p) && |tdi| >= ByteCount(n)
    requires forall b: bv8 :: Sample(p, f(b)) == (b & p.tdiValue != 0)
    requires i < 8 * ByteCount(n)
    ensures Bit(Pack(Samples(p, f, BlockSignals(Some(tdi), garbage, n, last)))[i / 8], i % 8)
              == (i < n && Bit(tdi[i / 8], i % 8))
  {
    var sigs := BlockSignals(Some(tdi), garbage, n, last);
    PackBit(Samples(p, f, sigs), i);
    if i < n {
      SampleEchoes(p, f, sigs, i);
      StreamBitAt(tdi, i, i / 8, i % 8);
      ShrBit(tdi[i / 8], i % 8);
    }
  }

  /** For a whole number of bytes the loopback round trip gives the TDI buffer
      back byte for byte. */
  lemma LoopbackBytes(p: Profile, f: bv8 -> bv8, tdi: seq<bv8>, garbage: bv8, n: nat, last: bool)
    requires WellFormed(p) && |tdi| >= ByteCount(n) && n % 8 == 0
    requires forall b: bv8 :: Sample(p, f(b)) == (b & p.tdiValue != 0)
    ensures Pack(Samples(p, f, BlockSignals(Some(tdi), garbage, n, last))) == tdi[..n / 8]
  {
    var packed := Pack(Samples(p, f, BlockSignals(Some(tdi), garbage, n, last)));
    forall k | 0 <= k < n / 8 ensures packed[k] == tdi[k] {
      forall j | 0 <= j < 8 ensures Bit(packed[k], j) == Bit(tdi[k], j) {
        var i := 8 * k + j;
        assert i / 8 == k && i % 8 == j;
        Loopback(p, f, tdi, garbage, n, last, i);
      }
      BitsDetermineByte(packed[k], tdi[k]);
    }
  }
}
