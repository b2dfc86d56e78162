# Parallel-port JTAG cable driver (xc3sprog `IOParport`)

This project models in Dafny the bit-level core of xc3sprog's parallel-port JTAG
driver, `xc3sprog/trunk/ioparport.cpp`, and proves properties of the model. The
driver does two jobs:

- It detects which cable hangs on the port: an Altera ByteBlaster or a Xilinx
  Parallel Cable III. It writes data bytes and checks which status lines follow
  them. It then installs that cable's profile: which data bits drive TCK, TMS and
  TDI, and which status bit carries TDO and with what polarity.
- It drives the IEEE 1149.1 TAP through that profile:
  - `txrx` and `tx` perform one TCK cycle, with or without sampling TDO;
  - `tx_tdi_byte` shifts one byte out on TDI;
  - `txrx_block` shifts a block LSB-first and packs the sampled TDO bits LSB-first;
  - `tx_tms` shifts a TMS pattern.

The operating-system register calls are replaced by an abstract port (`ParportIo.Port`):

- the data and control registers are fields;
- every register access is appended to a `trace` of `Access` values;
- the cable's answer on the status lines is a fixed function `respond` of the byte
  the data register drives.

`Driver.IOParport` is a class with the driver's mutable state:

- `profile` stands for `def_byte`, `tdi_value`, `tms_value`, `tck_value`, `tdo_mask`
  and `tdo_inv`;
- `cabletype`;
- `total`, the number of bits clocked.

Its methods follow the C++ member functions statement by statement. Each method's
contract ties the new trace to a specification function:

- `Detect` for detection;
- `Cycle` and `Shift` for the TCK cycles;
- `BlockSignals`, `TmsSignals` and `ByteSignals` for the signal streams;
- `Samples` and `Pack` for the TDO bits.

Lemmas then prove the promised properties of those functions.

Modules:

- `ParportIo` (`port.dfy`): the registers, the Linux `linux/parport.h` bit values,
  the access trace and the port class.
- `CableProfile` (`profile.dfy`): the two cable profiles, output-byte composition
  and TDO sampling.
- `BitPacking` (`packing.dfy`): LSB-first bit streams, the driver's shifts and
  masks, packing into bytes, and storing into a buffer.
- `CableDetect` (`detect.dfy`): detection as a function of the cable's answers,
  its register accesses, and the truth tables that identify each cable.
- `TapShift` (`shift.dfy`): the traces of TCK cycles and shifts, the sampled
  stream, the loop states of `txrx_block` and `tx_tms`, and the loopback round
  trip.
- `Driver` (`ioparport.dfy`): the `IOParport` class.

Several methods split one C++ function into pieces, each with its own contract:

- `DetectCable` calls `DetectByteBlaster` or `DetectParallelCable3` for the two
  branches of `detectcable`.
  - Each branch runs its toggle rounds through `ToggleRound`. In the C++ code each
    round is the same four statements, written out once per round.
  - `EnableByteBlaster` is the ByteBlaster branch's closing profile assignment and
    control read-modify-write.
- `TxRxBlock` is the set-up of `txrx_block`, followed by:
  - `BlockLoop`, its `while` loop;
  - `BlockBit`, one pass of that loop;
  - `BlockLastBit`, the bit clocked after the loop;
  - `SaveByte`, the guarded store `if (tdo) tdo[j] = tdo_byte`, which appears in
    both the loop body and after it.

Three behaviours of `txrx_block` follow directly from its code and are modelled as written:

- **`length <= 0` is not a no-op.** The final `txrx` after the loop, at line 433,
  still clocks one bit. `Clocked` models that.
- **Without a TDI buffer, TDI is not driven 0.** The byte variable `tdi_byte` is
  never initialised, never loaded and never shifted, so its initial value drives
  every bit. That value is the parameter `uninit`, and nothing is assumed about it.
- **The unused high bits of the last TDO byte are 0.** Each TDO byte starts at 0
  (lines 413 and 427), so the bits above the last sample stay 0
  (`BitPacking.PackBit`).

The status-as-function-of-data abstraction has one consequence. The second
Parallel Cable III round writes data 0 again. That reading already passed the
same check before the rounds. So the "Missing reaction on XILINX Cable(2)" exit
at lines 285-291 can never be taken (`CableDetect.XilinxSecondRoundRedundant`).
`DetectParallelCable3` marks that branch as unreachable.

## Model

| member | source | states |
|---|---|---|
| ParportIo.Port.WriteData | xc3sprog/trunk/ioparport.cpp:478-496 | a data-register write sets the data register and appends exactly that write to the trace |
| ParportIo.Port.ReadStatus | xc3sprog/trunk/ioparport.cpp:541-560 | a status read returns the cable's answer to the byte currently on the data register and appends one read to the trace |
| ParportIo.Port.ReadControl | xc3sprog/trunk/ioparport.cpp:520-539 | a control read returns the control register and appends one read |
| ParportIo.Port.WriteControl | xc3sprog/trunk/ioparport.cpp:498-518 | a control write sets the control register, leaves the data register alone and appends one write |
| ParportIo.DataWritesAppend | xc3sprog/trunk/ioparport.cpp:478-560 | the bytes written and the number of status reads of two traces in a row are those of each, concatenated and added |
| CableProfile.InstalledProfilesWellFormed | xc3sprog/trunk/ioparport.cpp:112-135 | in both cable profiles TCK, TMS and TDI are pairwise disjoint single bits outside the idle byte; only the ByteBlaster reads TDO inverted |
| CableProfile.DriveDecodes | xc3sprog/trunk/ioparport.cpp:361-366 | with a well-formed profile the two bytes of a cycle read back TCK low then high, TMS and TDI as driven, and the idle byte on every other bit |
| CableProfile.SamplePolarity | xc3sprog/trunk/ioparport.cpp:372 | the sampled TDO is the masked status bit, inverted exactly when `tdo_inv` is set |
| BitPacking.ShiftBit | xc3sprog/trunk/ioparport.cpp:404-405 | `(b >> k) & 1` reads bit `k` of `b` |
| BitPacking.PlaceShift | xc3sprog/trunk/ioparport.cpp:420 | placing a sample at position `k` is the driver's `bit << k` |
| BitPacking.ShrShift | xc3sprog/trunk/ioparport.cpp:421-422 | shifting a byte right once per bit for `k` bits shifts it right by `k` |
| BitPacking.ShrBit | xc3sprog/trunk/ioparport.cpp:420-422 | after `k` single shifts the low bit of a byte is its bit `k` |
| BitPacking.StreamBitAt | xc3sprog/trunk/ioparport.cpp:416-430 | bit `8j + r` of an LSB-first byte stream is the low bit of byte `j` shifted `r` times |
| BitPacking.ByteCount | xc3sprog/trunk/ioparport.cpp:424-435 | the number of TDO bytes, ceil(n / 8): enough for all `n` bits, and one fewer is not |
| BitPacking.PackBitsBit | xc3sprog/trunk/ioparport.cpp:420 | bit `k` of a byte accumulated by adding samples above each other is sample `lo + k`, and the bits past them are 0 |
| BitPacking.PackBit | xc3sprog/trunk/ioparport.cpp:408-437 | unpacking: bit `i % 8` of packed byte `i / 8` is sample `i`, and the unused high bits of the last byte are 0 |
| BitPacking.PackNext | xc3sprog/trunk/ioparport.cpp:420-428 | adding sample `i` at position `i % 8` extends the TDO byte by that sample, and after the eighth bit or the last bit the byte equals its byte of the packed stream |
| BitPacking.Stored | xc3sprog/trunk/ioparport.cpp:424-435 | storing bytes into the TDO buffer never changes its length |
| BitPacking.StoredAt | xc3sprog/trunk/ioparport.cpp:424-435 | once all bytes are stored, buffer byte `k` is the stored byte below their count and the old byte above it |
| BitPacking.StoreNext | xc3sprog/trunk/ioparport.cpp:424-426 | storing byte `j` into the buffer extends the stored prefix by one byte |
| CableDetect.Probes | xc3sprog/trunk/ioparport.cpp:184-287 | four ByteBlaster rounds and two Parallel Cable III rounds |
| CableDetect.FirstMiss | xc3sprog/trunk/ioparport.cpp:184-291 | the round at which detection stops lies between the starting round and the number of rounds |
| CableDetect.FirstMissIs | xc3sprog/trunk/ioparport.cpp:184-291 | when rounds `j` to `k - 1` pass and round `k` fails or is past the last, detection from round `j` stops at round `k` |
| CableDetect.FirstMissPasses | xc3sprog/trunk/ioparport.cpp:184-291 | conversely, every round before the stopping round passes, and the stopping round fails unless it is past the last |
| CableDetect.KindOf | xc3sprog/trunk/ioparport.cpp:140-302 | the return value is IS_BBLST exactly for a found ByteBlaster and IS_PCIII exactly for a found Parallel Cable III, NO_CABLE otherwise |
| CableDetect.Classify | xc3sprog/trunk/ioparport.cpp:140-302 | a missing reaction is reported for a round that exists |
| CableDetect.Rounds | xc3sprog/trunk/ioparport.cpp:184-291 | a missing reaction in the rounds of a family names that family and an existing round |
| CableDetect.DetectWrites | xc3sprog/trunk/ioparport.cpp:145 | detection always writes at least one data byte, the first being 0 |
| CableDetect.DetectAccesses | xc3sprog/trunk/ioparport.cpp:140-302 | detection writes data 0 and then exactly the bytes of the rounds it reaches, each followed by one status read |
| CableDetect.RoundsReached | xc3sprog/trunk/ioparport.cpp:184-300 | once the first reading enters a cable's rounds, the first failing round `k` gives "missing reaction (k+1)" after writing the bytes up to round `k`; if no round fails the cable is found after writing them all |
| CableDetect.AutofdOnly | xc3sprog/trunk/ioparport.cpp:240-242 | OR-ing in AUTOFD sets that bit and keeps every other control bit |
| CableDetect.DegenerateStatusRejected | xc3sprog/trunk/ioparport.cpp:145-154 | a first status of 0x00 or 0xFF gives NO_CABLE after exactly one data write, of 0 |
| CableDetect.ByteBlasterIdentified | xc3sprog/trunk/ioparport.cpp:156-243 | the ByteBlaster is found if and only if ERROR is low, PAPEROUT follows D7 at data 0, and PAPEROUT follows D7 and ACK follows D5 after each toggle; it is then probed with 0x00, 0x80, 0xA0, 0x20, 0x00 in that order |
| CableDetect.ParallelCable3Identified | xc3sprog/trunk/ioparport.cpp:245-300 | the Parallel Cable III is found if and only if ERROR is high and BUSY reads the complement of D6 and PAPEROUT reads D6 at data 0 and at 0x40; it is then probed with 0x00, 0x40, 0x00 |
| CableDetect.XilinxSecondRoundRedundant | xc3sprog/trunk/ioparport.cpp:281-291 | with answers that depend only on the data byte, the second Parallel Cable III round never fails |
| TapShift.Samples | xc3sprog/trunk/ioparport.cpp:357-379 | one TDO sample per cycle shifted |
| TapShift.Clocked | xc3sprog/trunk/ioparport.cpp:419-433 | a block shift clocks exactly `length` bits when `length >= 1` and exactly one bit otherwise |
| TapShift.BlockSignals | xc3sprog/trunk/ioparport.cpp:408-433 | a block shift drives one signal pair per clocked bit |
| TapShift.ShiftOneMore | xc3sprog/trunk/ioparport.cpp:419-433 | shifting one more signal appends exactly its cycle to the trace |
| TapShift.BlockSignalsBits | xc3sprog/trunk/ioparport.cpp:415-433 | bit `i` of a block drives TDI with bit `i % 8` of buffer byte `i / 8`, and TMS low except on the last bit, which carries `last` |
| TapShift.SampleAt | xc3sprog/trunk/ioparport.cpp:364-372 | sample `i` is the TDO level read after driving cycle `i`'s byte with TCK high |
| TapShift.CursorNext | xc3sprog/trunk/ioparport.cpp:421-430 | the TDI byte variable moves to the next bit: shifted once within a byte, reloaded with the next buffer byte, which exists, after the eighth |
| TapShift.BlockStep | xc3sprog/trunk/ioparport.cpp:420 | the cycle of bit `i` drives bit `i`'s signals and extends the trace of the first `i` bits |
| TapShift.BlockStart | xc3sprog/trunk/ioparport.cpp:411-417 | the loop state holds before the first bit: nothing shifted, first TDI byte loaded, empty TDO byte |
| TapShift.BlockNextBit | xc3sprog/trunk/ioparport.cpp:419-423 | one loop pass within a byte keeps the loop state: trace of `i + 1` cycles, TDI byte shifted, TDO byte holding the samples so far |
| TapShift.BlockNextByte | xc3sprog/trunk/ioparport.cpp:419-430 | the pass for the eighth bit of a byte completes that byte of the packed samples and starts the next byte with the next TDI byte |
| TapShift.PackSample | xc3sprog/trunk/ioparport.cpp:420 | adding the sample of cycle `i` packs one more sample into the TDO byte, completing a byte of the packed stream at its eighth or last bit |
| TapShift.BlockFinish | xc3sprog/trunk/ioparport.cpp:433-435 | the bit after the loop completes the trace of the whole shift and the last byte of the packed samples, which is the last TDO byte |
| TapShift.TmsSignals | xc3sprog/trunk/ioparport.cpp:440-453 | a TMS shift drives one signal pair per bit |
| TapShift.TmsStep | xc3sprog/trunk/ioparport.cpp:446-450 | one pass of the TMS loop extends the trace by the cycle of bit `i`, and the shifted pattern byte holds the next bit within a byte |
| TapShift.ByteSignals | xc3sprog/trunk/ioparport.cpp:400-406 | a byte shift drives eight signal pairs |
| TapShift.ClockBytes | xc3sprog/trunk/ioparport.cpp:357-398 | two data bytes per cycle |
| TapShift.ClockBytesAt | xc3sprog/trunk/ioparport.cpp:362-366 | cycle `k` writes its signal byte with TCK low at position `2k` and the same byte with TCK high at `2k + 1` |
| TapShift.CycleAccesses | xc3sprog/trunk/ioparport.cpp:357-398 | a cycle writes exactly two data bytes, first the signal byte and then the same byte with TCK set, and reads the status once if it samples and never otherwise |
| TapShift.ShiftWrites | xc3sprog/trunk/ioparport.cpp:357-453 | a shift writes exactly the clock bytes of its signals, in order |
| TapShift.ShiftReads | xc3sprog/trunk/ioparport.cpp:357-453 | a shift reads the status once per cycle if it samples and never otherwise |
| TapShift.ShiftExtends | xc3sprog/trunk/ioparport.cpp:357-453 | a shift only appends to the trace, two or three accesses per cycle |
| TapShift.BitsDetermineByte | xc3sprog/trunk/ioparport.cpp:420-435 | two bytes with the same eight bits are equal |
| TapShift.SampleEchoes | xc3sprog/trunk/ioparport.cpp:357-379 | with TDO wired to TDI, each sample reads back the TDI level driven in its cycle |
| TapShift.Loopback | xc3sprog/trunk/ioparport.cpp:408-437 | loopback round trip: with TDO mirroring TDI, bit `i` of the packed samples is bit `i` of the TDI buffer for `i < n`, and 0 in the unused high bits |
| TapShift.LoopbackBytes | xc3sprog/trunk/ioparport.cpp:408-437 | for a whole number of bytes the loopback round trip gives the TDI buffer back byte for byte |
| Driver.SaveByte | xc3sprog/trunk/ioparport.cpp:425-426 | storing a completed TDO byte, when there is a buffer, extends the stored prefix of packed samples by that byte |
| Driver.IOParport.constructor | xc3sprog/trunk/ioparport.cpp:304-306 | a new driver has clocked no bits |
| Driver.IOParport.DetectCable | xc3sprog/trunk/ioparport.cpp:140-302 | the diagnosis is `Classify` of the cable's answers and the result is its kind; the trace is exactly `Detect`'s; the last data byte is the last probe; the profile is the found cable's or unchanged; the control register gains AUTOFD for a ByteBlaster and is unchanged otherwise |
| Driver.IOParport.ToggleRound | xc3sprog/trunk/ioparport.cpp:185-195 | a round writes the toggled byte, which is the next probe byte, reads the status once, and passes exactly when the status follows the data the way the family is wired; a failed round fixes the diagnosis and the bytes written |
| Driver.IOParport.DetectByteBlaster | xc3sprog/trunk/ioparport.cpp:184-243 | the ByteBlaster rounds give `Classify`'s diagnosis and exactly the rounds' accesses, followed by the AUTOFD read-modify-write when the cable is found |
| Driver.IOParport.EnableByteBlaster | xc3sprog/trunk/ioparport.cpp:233-242 | installs the ByteBlaster profile and sets AUTOFD with one control read and one control write |
| Driver.IOParport.DetectParallelCable3 | xc3sprog/trunk/ioparport.cpp:245-300 | the Parallel Cable III rounds give `Classify`'s diagnosis and exactly the rounds' accesses, with the control register untouched |
| Driver.IOParport.Init | xc3sprog/trunk/ioparport.cpp:348-354 | the cable type is the detected kind, and the return code is 1 exactly when no cable is found, 0 otherwise; the trace, profile, data register and control register are those detection leaves, AUTOFD set for a ByteBlaster |
| Driver.IOParport.TxRx | xc3sprog/trunk/ioparport.cpp:357-379 | one cycle: writes the signal byte and then that byte with TCK set, reads the status once, counts one bit, and returns the sampled TDO level of the answer |
| Driver.IOParport.Tx | xc3sprog/trunk/ioparport.cpp:381-398 | the same two writes and count with no status read |
| Driver.IOParport.TxTdiByte | xc3sprog/trunk/ioparport.cpp:400-406 | eight cycles without sampling, TMS low and TDI bit `k` of the byte at step `k` |
| Driver.IOParport.BlockBit | xc3sprog/trunk/ioparport.cpp:419-431 | one loop pass keeps the loop state and the stored prefix of TDO bytes, and counts one bit |
| Driver.IOParport.BlockLoop | xc3sprog/trunk/ioparport.cpp:419-432 | the loop stops before the last bit with the loop state and the stored prefix intact |
| Driver.IOParport.BlockLastBit | xc3sprog/trunk/ioparport.cpp:433-435 | the last bit, with TMS `last`, completes the trace of the shift and stores the last TDO byte |
| Driver.IOParport.TxRxBlock | xc3sprog/trunk/ioparport.cpp:408-438 | the trace is the sampled cycles of the block's signals followed by the idle byte; exactly `Clocked(length)` bits are counted; the TDO buffer holds the packed samples in its first ceil(n/8) bytes and is unchanged beyond them |
| Driver.IOParport.TxTms | xc3sprog/trunk/ioparport.cpp:440-453 | the trace is the unsampled cycles of the first `length` TMS pattern bits (none when `length <= 0`), LSB-first with TDI high, followed by the idle byte; that many bits are counted |
| Driver.IOParport.Teardown | xc3sprog/trunk/ioparport.cpp:455-463 | for a ByteBlaster, one control read and one write that clears AUTOFD and keeps every other bit; otherwise no register access |

## Left out

- Opening the device, `PPCLAIM` and `PPNEGOT`, and `getenv` in `Init` (lines 308-346) are OS I/O. So are the release and close in the destructor (lines 464-471). Only the cable-type tail of `Init` is modelled.
- The register wrappers (lines 478-560) are ioctl or DeviceIoControl calls. They are modelled as `Port` methods. Their error codes are never checked by the driver, so they are not modelled.
- The FreeBSD and Windows register calls are left out, including the Windows `S1284_INVERTED` XOR on control reads at line 534. The Linux `linux/parport.h` bit values are fixed constants.
- `fprintf` diagnostics, `debug` logging and the bytes report in the destructor are left out. `Diagnosis` names the message of each detection exit instead.
- The commented-out "Missing power for Parallel Cable III" check (lines 256-268) is not compiled, so it is not modelled.
- The `force` parameter of `tx_tms` is unused by the code and is left out.
- `tx_tms` tests `(i & 0x7) == 0` and indexes `pat[i>>3]`. The model writes these as `i % 8 == 0` and `pat[i / 8]`, which agree for the non-negative `i` the loop uses.
- C++ buffers are modelled as values. The TDI buffer is an `Option<seq<bv8>>` (absent for a null pointer). The TDO buffer is an `array?<bv8>` updated in place.
  - Aliasing between the two buffers is not modelled.
  - The model requires the buffers to hold ceil(n/8) bytes. The C++ code relies on its callers for that.
- The cable is modelled as a status function of the current data byte. It cannot model a cable whose answer changes over time or depends on earlier writes. This is why the second Parallel Cable III round cannot fail in the model.
- `Driver.IOParport.DetectCable`: the bit-level form of the AUTOFD update is not in this contract. The contract states the control result as `old | AUTOFD`. `CableDetect.AutofdOnly` then proves that this sets AUTOFD and keeps every other bit.
