/** LSB-first packing of a bit stream into bytes, as the block shift of the
    parallel-port JTAG driver stores sampled TDO bits. */
module BitPacking {

  /** The byte with only bit `k` set (`1 << k`). */
  function Mask(k: nat): bv8
    requires k < 8
  {
    match k
    case 0 => 0x01 case 1 => 0x02 case 2 => 0x04 case 3 => 0x08
    case 4 => 0x10 case 5 => 0x20 case 6 => 0x40 case _ => 0x80
  }

  /** The byte with bits `k` and above set. */
  function Above(k: nat): bv8
    requires k <= 8
  {
    match k
    case 0 => 0xFF case 1 => 0xFE case 2 => 0xFC case 3 => 0xF8
    case 4 => 0xF0 case 5 => 0xE0 case 6 => 0xC0 case 7 => 0x80 case _ => 0x00
  }

  /** Bit `k` of `b`, counting from the least significant bit. */
  function Bit(b: bv8, k: nat): bool
    requires k < 8
  {
    b & Mask(k) != 0
  }

  /** The driver's way of reading bit `k`, `(b >> k) & 1`, is `Bit`. */
  lemma ShiftBit(b: bv8, k: nat)
    requires k < 8
    ensures ((b >> k) & 1 == 1) == Bit(b, k)
  {
    if k == 0 {} else if k == 1 {} else if k == 2 {} else if k == 3 {}
    else if k == 4 {} else if k == 5 {} else if k == 6 {} else {}
  }

  /** The bit `c` placed at position `k`, the driver's `c << k`. */
  function Place(c: bool, k: nat): bv8
    requires k < 8
  {
    if c then Mask(k) else 0
  }

  /** `Place` is the driver's shift of a 0/1 value. */
  lemma PlaceShift(c: bool, k: nat)
    requires k < 8
    ensures Place(c, k) == (if c then 1 else 0) as bv8 << k
  {
    if k == 0 {} else if k == 1 {} else if k == 2 {} else if k == 3 {}
    else if k == 4 {} else if k == 5 {} else if k == 6 {} else {}
  }

  /** `b` shifted right `k` places one place at a time, as a loop that shifts its
      byte variable once per bit sees it. */
  function Shr(b: bv8, k: nat): bv8 {
    if k == 0 then b else Shr(b, k - 1) >> 1
  }

  /** Shifting once more after `k` places is shifting `k + 1` places. */
  lemma ShiftOnce(b: bv8, k: nat)
    requires k < 7
    ensures (b >> k) >> 1 == b >> (k + 1)
  {
    if k == 0 {} else if k == 1 {} else if k == 2 {} else if k == 3 {}
    else if k == 4 {} else if k == 5 {} else {}
  }

  /** Shifting one place at a time is shifting all at once. */
  lemma {:induction false} ShrShift(b: bv8, k: nat)
    requires k < 8
    ensures Shr(b, k) == b >> k
  {
    if k > 0 {
      ShrShift(b, k - 1);
      ShiftOnce(b, k - 1);
    }
  }

  /** So the low bit of `Shr(b, k)` is bit `k` of `b`. */
  lemma ShrBit(b: bv8, k: nat)
    requires k < 8
    ensures (Shr(b, k) & 1 == 1) == Bit(b, k)
  {
    ShrShift(b, k);
    ShiftBit(b, k);
  }

  /** Bit `i` of a stream of bytes sent LSB-first: the low bit of its byte
      shifted to it. */
  function StreamBit(bytes: seq<bv8>, i: nat): bool
    requires i < 8 * |bytes|
  {
    if i < 8 then Shr(bytes[0], i) & 1 == 1 else StreamBit(bytes[1..], i - 8)
  }

  /** Bit `i`, bit `r` of byte `j`, is the low bit of byte `j` shifted `r`
      times. */
  lemma {:induction false} StreamBitAt(bytes: seq<bv8>, i: nat, j: nat, r: nat)
    requires i == 8 * j + r && r < 8 && j < |bytes|
    ensures StreamBit(bytes, i) == (Shr(bytes[j], r) & 1 == 1)
  {
    if j > 0 {
      StreamBitAt(bytes[1..], i - 8, j - 1, r);
    }
  }

  /** Moving to the next bit of a stream of bytes: within a byte, one more
      shift. */
  lemma ShrNext(bytes: seq<bv8>, i: nat)
    requires i / 8 < |bytes|
    ensures (i + 1) % 8 != 0 ==>
              (i + 1) / 8 == i / 8 && Shr(bytes[(i + 1) / 8], (i + 1) % 8) == Shr(bytes[i / 8], i % 8) >> 1
  {
  }

  /** The byte variable of a loop that walks a stream LSB-first moves to the
      next bit: shifted once more within a byte, or reloaded with the next
      byte after the eighth bit. */
  lemma ShrAdvance(bytes: seq<bv8>, j: nat, r: nat, cur: bv8, j': nat, r': nat, next: bv8)
    requires j < |bytes| && r < 8 && cur == Shr(bytes[j], r)
    requires r == 7 ==> j' == j + 1 && r' == 0 && j' < |bytes| && next == bytes[j']
    requires r < 7 ==> j' == j && r' == r + 1 && next == cur >> 1
    ensures next == Shr(bytes[j'], r')
  {
  }

  /** Bit `i` of a stream is bit `r` of byte `j`. */
  lemma BitOf(i: nat, j: nat, r: nat)
    requires i == 8 * j + r && r < 8
    ensures i / 8 == j && i % 8 == r
    ensures (i + 1) / 8 == (if r == 7 then j + 1 else j)
    ensures (i + 1) % 8 == (if r == 7 then 0 else r + 1)
  {
  }

  /** The number of bytes that hold `n` bits (ceil(n / 8)). */
  function ByteCount(n: nat): (c: nat)
    ensures 8 * c >= n && 8 * (c - 1) < n
  {
    (n + 7) / 8
  }

  /** Bit `i` of an `n`-bit stream, bit `r` of byte `j`, lies in one of its
      `ByteCount(n)` bytes, the last bit in the last byte. */
  lemma ByteOfBit(i: nat, j: nat, r: nat, n: nat)
    requires i == 8 * j + r && r < 8 && i < n
    ensures j < ByteCount(n)
    ensures i == n - 1 ==> j == ByteCount(n) - 1
  {
  }

  /** Bits `lo` to `hi` of the stream in one byte, bit `lo + k` at position
      `k`, built the way the driver accumulates it: each bit added above the
      ones before. */
  function PackBits(bits: seq<bool>, lo: nat, hi: nat): bv8
    requires lo <= hi <= |bits| && hi - lo <= 8
    decreases hi
  {
    if hi == lo then 0
    else PackBits(bits, lo, hi - 1) + (if bits[hi - 1] then Mask(hi - 1 - lo) else 0)
  }

  /** The stream packed LSB-first: bit `i` lands at bit `i % 8` of byte `i / 8`,
      the last byte holding what is left. */
  function Pack(bits: seq<bool>): (r: seq<bv8>)
    ensures |r| == ByteCount(|bits|)
  {
    seq(ByteCount(|bits|), k requires 0 <= k < ByteCount(|bits|) =>
      PackBits(bits, 8 * k, if 8 * k + 8 <= |bits| then 8 * k + 8 else |bits|))
  }

  /** Adding a bit above all set bits is an OR, bit by bit, and leaves the bits
      above it clear. */
  lemma AddAbove(a: bv8, c: bool, m: nat, k: nat)
    requires m < 8 && k < 8
    requires a & Above(m) == 0
    ensures Bit(a + (if c then Mask(m) else 0), k) == (if k == m then c else Bit(a, k))
    ensures (a + (if c then Mask(m) else 0)) & Above(m + 1) == 0
  {
    if m == 0 {} else if m == 1 {} else if m == 2 {} else if m == 3 {}
    else if m == 4 {} else if m == 5 {} else if m == 6 {} else {}
  }

  /** Bit `k` of a packed byte is bit `lo + k` of the stream, and the bits past
      the packed ones are zero. */
  lemma {:induction false} PackBitsBit(bits: seq<bool>, lo: nat, hi: nat, k: nat)
    requires lo <= hi <= |bits| && hi - lo <= 8 && k < 8
    ensures Bit(PackBits(bits, lo, hi), k) == (k < hi - lo && bits[lo + k])
    ensures PackBits(bits, lo, hi) & Above(hi - lo) == 0
    decreases hi
  {
    if hi > lo {
      PackBitsBit(bits, lo, hi - 1, k);
      AddAbove(PackBits(bits, lo, hi - 1), bits[hi - 1], hi - 1 - lo, k);
    }
  }

  /** Unpacking the packed stream gives the stream back, LSB-first, and every bit
      past the end of the stream in the last byte is zero. */
  lemma PackBit(bits: seq<bool>, i: nat)
    requires i < 8 * ByteCount(|bits|)
    ensures Bit(Pack(bits)[i / 8], i % 8) == (i < |bits| && bits[i])
  {
    var k := i / 8;
    var hi := if 8 * k + 8 <= |bits| then 8 * k + 8 else |bits|;
    PackBitsBit(bits, 8 * k, hi, i % 8);
  }

  /** Adding bit `i`, placed at its position within the byte that starts at
      bit `lo`, packs one more bit. */
  lemma PackAdd(bits: seq<bool>, lo: nat, i: nat, place: nat, b: bool)
    requires lo <= i < |bits| && place == i - lo < 8 && b == bits[i]
    ensures PackBits(bits, lo, i) + Place(b, place) == PackBits(bits, lo, i + 1)
  {
  }

  /** One step of the driver's accumulation: adding bit `i`, which is bit `r`
      of byte `j`, placed at position `i % 8` extends the byte being packed by
      that bit; the byte is complete (a byte of `Pack`) after its eighth bit or
      the last bit of the stream. */
  lemma PackNext(bits: seq<bool>, i: nat, j: nat, r: nat, acc: bv8, b: bool)
    requires i < |bits| && r < 8 && i == 8 * j + r
    requires acc == PackBits(bits, 8 * j, i) && b == bits[i]
    ensures var next := acc + Place(b, i % 8);
      && next == PackBits(bits, 8 * j, i + 1)
      && (r == 7 || i + 1 == |bits| ==> next == Pack(bits)[j])
  {
    BitOf(i, j, r);
    PackAdd(bits, 8 * j, i, i % 8, b);
  }

  /** A buffer whose first `j` bytes have been overwritten with those of
      `bytes`, the rest as they were. */
  function Stored(buf: seq<bv8>, bytes: seq<bv8>, j: nat): (r: seq<bv8>)
    requires j <= |bytes| <= |buf|
    ensures |r| == |buf|
  {
    bytes[..j] + buf[j..]
  }

  /** Byte `k` of the buffer once all of `bytes` is stored: the stored byte
      below `|bytes|`, the old contents above. */
  lemma StoredAt(buf: seq<bv8>, bytes: seq<bv8>, k: nat)
    requires |bytes| <= |buf| && k < |buf|
    ensures Stored(buf, bytes, |bytes|)[k] == if k < |bytes| then bytes[k] else buf[k]
  {
  }

  /** Storing byte `j` extends the overwritten prefix by one. */
  lemma StoreNext(buf: seq<bv8>, bytes: seq<bv8>, j: nat, b: bv8)
    requires j < |bytes| <= |buf| && b == bytes[j]
    ensures Stored(buf, bytes, j)[j := b] == Stored(buf, bytes, j + 1)
  {
    assert bytes[..j + 1] == bytes[..j] + [bytes[j]];
  }
}
