/** The parallel-port JTAG driver (class IOParport of xc3sprog): cable detection
    at initialisation, the TAP bit, byte, block and TMS shifts, and the
    ByteBlaster disable at teardown, all over an abstract port. */
module Driver {
  import opened Wrappers
  import opened ParportIo
  import opened BitPacking
  import opened CableProfile
  import opened CableDetect
  import opened TapShift

  /** Save a completed TDO byte, `if (tdo) tdo[j] = byte`: byte `j` of the
      packed samples `got` goes to its place in the caller's buffer, which
      already holds the bytes before it over its initial contents `buf`. */
  method SaveByte(tdo: array?<bv8>, ghost buf: seq<bv8>, ghost got: seq<bv8>, j: nat, byte: bv8)
    requires j < |got| && byte == got[j]
    requires tdo != null ==> |got| <= |buf| && tdo[..] == Stored(buf, got, j)
    modifies tdo
    ensures tdo != null ==> tdo[..] == Stored(buf, got, j + 1)
  {
    if tdo != null {
      StoreNext(buf, got, j, byte);
      tdo[j] := byte;
    }
  }

  class IOParport {
    const port: Port
    var profile: Profile
    var cabletype: CableKind
    /** Bits clocked so far (for the byte count reported at teardown). */
    var total: nat

    /** The C++ constructor sets only `total`; the profile and cable type it
        leaves uninitialised are parameters here. */
    constructor (port: Port, profile: Profile, cabletype: CableKind)
      ensures this.port == port && this.profile == profile && this.cabletype == cabletype
      ensures total == 0
    {
      this.port := port;
      this.profile := profile;
      this.cabletype := cabletype;
      total := 0;
    }

    /** detectcable: probe the cable and install the profile of the one found.
        `diagnosis` stands for the message printed on each path. */
    method DetectCable() returns (kind: CableKind, diagnosis: Diagnosis)
      modifies this`profile, port
      ensures diagnosis == Classify(port.respond) && kind == KindOf(diagnosis)
      ensures port.trace == Detect(old(port.trace), port.respond, old(port.control))
      ensures port.data == DetectWrites(port.respond)[|DetectWrites(port.respond)| - 1]
      ensures profile == Installed(kind, old(profile))
      ensures port.control == if kind == ByteBlaster then old(port.control) | CONTROL_AUTOFD else old(port.control)
    {
      var data: bv8 := 0;
      port.WriteData(data);
      var status := port.ReadStatus();
      var control := port.ReadControl();
      ghost var head := port.trace;
      if status == 0x00 || status == 0xFF {
        return NoCable, CheckDriverSetup;
      }
      if status & STATUS_ERROR == 0 {
        // ERROR is tied to ground on a ByteBlaster.
        if !LoopbackTracks(data, status) {
          if AckTracks(data, status) {
            return NoCable, UnpoweredByteBlaster;
          } else if XilinxUnpowered(data, status) {
            return NoCable, UnpoweredParallelCable3;
          } else {
            return NoCable, NoDongle;
          }
        }
        kind, diagnosis := DetectByteBlaster(head);
      } else {
        // Probably a Parallel Cable III.
        if !XilinxTracks(data, status) {
          return NoCable, NoDongle;
        }
        kind, diagnosis := DetectParallelCable3(head);
      }
    }

    /** One toggle round of detection: flip `bit` of the data byte, write it and
        read the status; the round passes when the status follows the data the
        way family `c` is wired. */
    method ToggleRound(c: Family, ghost head: seq<Access>, ghost k: nat, data: bv8, bit: bv8)
      returns (next: bv8, ok: bool)
      requires k < |Probes(c)| && Toggle(data, bit) == Probes(c)[k]
      requires PassedRounds(c, port.respond, k)
      requires port.trace == Probe(head, Probes(c)[..k])
      modifies port
      ensures next == Probes(c)[k] && port.data == next
      ensures ok == Passes(c, next, port.respond(next))
      ensures ok ==> PassedRounds(c, port.respond, k + 1)
      ensures port.trace == Probe(head, Probes(c)[..k + 1])
      ensures port.control == old(port.control)
      ensures !ok && Enters(c, port.respond(0)) ==>
                && Classify(port.respond) == MissingReaction(c, k + 1)
                && ProbesWritten(port.respond) == Probes(c)[..k + 1]
                && DetectWrites(port.respond)[|DetectWrites(port.respond)| - 1] == next
    {
      next := Toggle(data, bit);
      port.WriteData(next);
      var status := port.ReadStatus();
      ok := Passes(c, next, status);
      ProbeOneMore(head, Probes(c), k);
      if !ok && Enters(c, port.respond(0)) {
        RoundsReached(c, port.respond, k);
      }
    }

    /** The ByteBlaster branch of detectcable: four rounds flipping D7 and D5 in
        turn, then the profile and the read-modify-write of the control register
        that sets AUTOFD. */
    method DetectByteBlaster(ghost head: seq<Access>) returns (kind: CableKind, diagnosis: Diagnosis)
      requires Enters(Altera, port.respond(0))
      requires port.trace == head && port.data == 0
      modifies this`profile, port
      ensures diagnosis == Classify(port.respond) && kind == KindOf(diagnosis)
      ensures port.trace == Enable(Probe(head, ProbesWritten(port.respond)),
                                   diagnosis == Found(Altera), old(port.control))
      ensures port.data == DetectWrites(port.respond)[|DetectWrites(port.respond)| - 1]
      ensures profile == Installed(kind, old(profile))
      ensures port.control == if kind == ByteBlaster then old(port.control) | CONTROL_AUTOFD else old(port.control)
    {
      ghost var f := port.respond;
      var data: bv8, ok := 0, true;
      ghost var k: nat := 0;
      data, ok := ToggleRound(Altera, head, k, data, BBLST_LB_OUT);
      if !ok {
        return NoCable, MissingReaction(Altera, 1);
      }
      k := k + 1;
      data, ok := ToggleRound(Altera, head, k, data, BBLST_ACK_OUT);
      if !ok {
        return NoCable, MissingReaction(Altera, 2);
      }
      k := k + 1;
      data, ok := ToggleRound(Altera, head, k, data, BBLST_LB_OUT);
      if !ok {
        return NoCable, MissingReaction(Altera, 3);
      }
      k := k + 1;
      data, ok := ToggleRound(Altera, head, k, data, BBLST_ACK_OUT);
      if !ok {
        return NoCable, MissingReaction(Altera, 4);
      }
      k := k + 1;
      RoundsReached(Altera, f, k);
      assert Probes(Altera)[..4] == Probes(Altera);
      EnableByteBlaster();
      return ByteBlaster, Found(Altera);
    }

    /** The end of the ByteBlaster branch once all rounds pass: install the
        ByteBlaster profile and set AUTOFD, which enables the cable's drivers,
        by a read-modify-write of the control register. */
    method EnableByteBlaster()
      modifies this`profile, port
      ensures profile == ByteBlasterProfile
      ensures port.trace == Enable(old(port.trace), true, old(port.control))
      ensures port.data == old(port.data)
      ensures port.control == old(port.control) | CONTROL_AUTOFD
    {
      profile := ByteBlasterProfile;
      var control := port.ReadControl();
      control := control | CONTROL_AUTOFD;
      port.WriteControl(control);
    }

    /** The Parallel Cable III branch of detectcable: two rounds flipping D6,
        then the profile. */
    method DetectParallelCable3(ghost head: seq<Access>) returns (kind: CableKind, diagnosis: Diagnosis)
      requires Enters(Xilinx, port.respond(0))
      requires port.trace == head && port.data == 0
      modifies this`profile, port
      ensures diagnosis == Classify(port.respond) && kind == KindOf(diagnosis)
      ensures port.trace == Probe(head, ProbesWritten(port.respond))
      ensures port.data == DetectWrites(port.respond)[|DetectWrites(port.respond)| - 1]
      ensures profile == Installed(kind, old(profile))
      ensures port.control == old(port.control)
    {
      ghost var f := port.respond;
      var data: bv8, ok := 0, true;
      data, ok := ToggleRound(Xilinx, head, 0, data, PCIII_CHECK_OUT);
      if !ok {
        return NoCable, MissingReaction(Xilinx, 1);
      }
      data, ok := ToggleRound(Xilinx, head, 1, data, PCIII_CHECK_OUT);
      if !ok {
        // The second round writes data 0 again, whose reading already passed
        // the same check before the rounds (XilinxSecondRoundRedundant), so
        // the driver's "missing reaction (2)" exit cannot be taken here.
        assert false;
      }
      RoundsReached(Xilinx, f, 2);
      assert Probes(Xilinx)[..2] == Probes(Xilinx);
      profile := ParallelCable3Profile;
      return ParallelCable3, Found(Xilinx);
    }

    /** The cable-detection tail of Init: no cable found is return code 1. */
    method Init() returns (rc: int)
      modifies this`profile, this`cabletype, port
      ensures cabletype == KindOf(Classify(port.respond))
      ensures rc == if cabletype == NoCable then 1 else 0
      ensures port.trace == Detect(old(port.trace), port.respond, old(port.control))
      ensures profile == Installed(cabletype, old(profile))
      ensures port.data == DetectWrites(port.respond)[|DetectWrites(port.respond)| - 1]
      ensures port.control == if cabletype == ByteBlaster then old(port.control) | CONTROL_AUTOFD else old(port.control)
    {
      var diagnosis;
      cabletype, diagnosis := DetectCable();
      if cabletype == NoCable {
        return 1;
      }
      return 0;
    }

    /** txrx: one TCK cycle that samples TDO after the rising edge. */
    method TxRx(tms: bool, tdi: bool) returns (tdo: bool)
      modifies this`total, port
      ensures port.trace == Cycle(old(port.trace), profile, Signals(tms, tdi), true)
      ensures port.data == Drive(profile, Signals(tms, tdi)) | profile.tckValue
      ensures port.control == old(port.control)
      ensures tdo == Sample(profile, port.respond(port.data))
      ensures total == old(total) + 1
    {
      var data := Drive(profile, Signals(tms, tdi));
      port.WriteData(data);
      data := data | profile.tckValue;  // clock high
      port.WriteData(data);
      total := total + 1;
      var ret := port.ReadStatus();
      tdo := Sample(profile, ret);
    }

    /** tx: one TCK cycle without reading TDO. */
    method Tx(tms: bool, tdi: bool)
      modifies this`total, port
      ensures port.trace == Cycle(old(port.trace), profile, Signals(tms, tdi), false)
      ensures port.data == Drive(profile, Signals(tms, tdi)) | profile.tckValue
      ensures port.control == old(port.control)
      ensures total == old(total) + 1
    {
      var data := Drive(profile, Signals(tms, tdi));
      port.WriteData(data);
      data := data | profile.tckValue;  // clock high
      total := total + 1;
      port.WriteData(data);
    }

    /** tx_tdi_byte: eight cycles shifting `b` out on TDI, LSB first, TMS low. */
    method TxTdiByte(b: bv8)
      modifies this`total, port
      ensures port.trace == Shift(old(port.trace), profile, ByteSignals(b), false)
      ensures port.data == Drive(profile, ByteSignals(b)[7]) | profile.tckValue
      ensures port.control == old(port.control)
      ensures total == old(total) + 8
    {
      ghost var sigs := ByteSignals(b);
      for k := 0 to 8
        invariant port.trace == Shift(old(port.trace), profile, sigs[..k], false)
        invariant k > 0 ==> port.data == Drive(profile, sigs[k - 1]) | profile.tckValue
        invariant port.control == old(port.control)
        invariant total == old(total) + k
      {
        ShiftBit(b, k);
        assert sigs[k] == Signals(false, (b >> k) & 1 == 1);
        ShiftOneMore(old(port.trace), profile, sigs, k, false);
        Tx(false, (b >> k) & 1 == 1);
      }
      assert sigs[..8] == sigs;
    }

    /** One pass of the loop of txrx_block, for bit `i` of `n` (not the last):
        clock the bit, add its sample to the TDO byte, shift the TDI byte, and
        after the eighth bit of a byte store the TDO byte into `tdo` and load
        the next TDI byte. `got` is the packed samples of the whole shift and
        `buf` what `tdo` held before it. */
    method BlockBit(tdi: Option<seq<bv8>>, tdo: array?<bv8>, ghost n: nat, ghost last: bool, ghost uninit: bv8,
                    ghost t0: seq<Access>, ghost buf: seq<bv8>, ghost got: seq<bv8>,
                    i: nat, j: nat, tdiByte: bv8, tdoByte: bv8, ghost r: nat)
      returns (i': nat, j': nat, tdiByte': bv8, tdoByte': bv8, ghost r': nat)
      requires BlockState(profile, port.respond, tdi, uninit, n, last, t0, port.trace, i, j, r, tdiByte, tdoByte)
      requires i < n - 1
      requires got == Pack(Samples(profile, port.respond, BlockSignals(tdi, uninit, n, last)))
      requires tdo != null ==> |got| <= |buf| && tdo[..] == Stored(buf, got, j)
      modifies this`total, port, tdo
      ensures BlockState(profile, port.respond, tdi, uninit, n, last, t0, port.trace, i', j', r', tdiByte', tdoByte')
      ensures i' == i + 1
      ensures tdo != null ==> tdo[..] == Stored(buf, got, j')
      ensures port.control == old(port.control)
      ensures total == old(total) + 1
    {
      ghost var p, f, before := profile, port.respond, port.trace;
      var b := TxRx(false, tdiByte & 1 == 1);
      ghost var after := port.trace;
      BitOf(i, j, r);
      i', j', r', tdiByte', tdoByte' := i, j, r, tdiByte, tdoByte;
      tdoByte' := tdoByte' + Place(b, i' % 8);
      if tdi.Some? {
        tdiByte' := tdiByte' >> 1;
      }
      i' := i' + 1;
      r' := r' + 1;
      if i' % 8 == 0 {  // next byte
        BlockNextByte(p, f, tdi, uninit, n, last, t0, before, i, j, r, tdiByte, tdoByte, b, after);
        SaveByte(tdo, buf, got, j', tdoByte');
        tdoByte' := 0;
        j' := j' + 1;
        r' := 0;
        if tdi.Some? {
          tdiByte' := tdi.value[j'];  // get the next TDI byte
        }
      } else {
        BlockNextBit(p, f, tdi, uninit, n, last, t0, before, i, j, r, tdiByte, tdoByte, b, after);
      }
    }

    /** The final bit of txrx_block, clocked with TMS `last` after the loop:
        its sample completes the last TDO byte, which is stored into `tdo`. */
    method BlockLastBit(tdi: Option<seq<bv8>>, tdo: array?<bv8>, ghost n: nat, last: bool, ghost uninit: bv8,
                        ghost t0: seq<Access>, ghost buf: seq<bv8>, ghost got: seq<bv8>,
                        i: nat, j: nat, tdiByte: bv8, tdoByte: bv8, ghost r: nat)
      requires BlockState(profile, port.respond, tdi, uninit, n, last, t0, port.trace, i, j, r, tdiByte, tdoByte)
      requires i == n - 1
      requires got == Pack(Samples(profile, port.respond, BlockSignals(tdi, uninit, n, last)))
      requires tdo != null ==> |got| <= |buf| && tdo[..] == Stored(buf, got, j)
      modifies this`total, port, tdo
      ensures port.trace == Shift(t0, profile, BlockSignals(tdi, uninit, n, last), true)
      ensures tdo != null ==> tdo[..] == Stored(buf, got, |got|)
      ensures port.control == old(port.control)
      ensures total == old(total) + 1
    {
      ghost var p, f, before := profile, port.respond, port.trace;
      var b := TxRx(last, tdiByte & 1 == 1);
      BlockFinish(p, f, tdi, uninit, n, last, t0, before, port.trace, i, j, r, tdiByte, tdoByte, b);
      var byte := tdoByte + Place(b, i % 8);
      SaveByte(tdo, buf, got, j, byte);
    }

    /** The loop of txrx_block: clock bits up to, not including, the last
        one, from any state the loop reaches. */
    method BlockLoop(tdi: Option<seq<bv8>>, tdo: array?<bv8>, length: int, ghost n: nat, ghost last: bool,
                     ghost uninit: bv8, ghost t0: seq<Access>, ghost buf: seq<bv8>, ghost got: seq<bv8>,
                     i0: nat, j0: nat, tdiByte0: bv8, tdoByte0: bv8, ghost r0: nat)
      returns (i: nat, j: nat, tdiByte: bv8, tdoByte: bv8, ghost r: nat)
      requires n == Clocked(length)
      requires BlockState(profile, port.respond, tdi, uninit, n, last, t0, port.trace, i0, j0, r0, tdiByte0, tdoByte0)
      requires got == Pack(Samples(profile, port.respond, BlockSignals(tdi, uninit, n, last)))
      requires tdo != null ==> |got| <= |buf| && tdo[..] == Stored(buf, got, j0)
      modifies this`total, port, tdo
      ensures i == n - 1
      ensures BlockState(profile, port.respond, tdi, uninit, n, last, t0, port.trace, i, j, r, tdiByte, tdoByte)
      ensures tdo != null ==> tdo[..] == Stored(buf, got, j)
      ensures port.control == old(port.control)
      ensures total == old(total) + (i - i0)
    {
      ghost var p, f := profile, port.respond;
      i, j, r, tdiByte, tdoByte := i0, j0, r0, tdiByte0, tdoByte0;
      while i < length - 1
        invariant profile == p
        invariant BlockState(p, f, tdi, uninit, n, last, t0, port.trace, i, j, r, tdiByte, tdoByte)
        invariant tdo != null ==> tdo[..] == Stored(buf, got, j)
        invariant port.control == old(port.control)
        invariant i0 <= i && total == old(total) + (i - i0)
      {
        i, j, tdiByte, tdoByte, r := BlockBit(tdi, tdo, n, last, uninit, t0, buf, got, i, j, tdiByte, tdoByte, r);
      }
    }

    /** txrx_block: shift Clocked(length) bits from `tdi` (LSB first) while TMS
        stays low until the last bit, which carries `last`, and store the
        sampled TDO bits LSB first into `tdo`. `uninit` stands for the value of
        the uninitialised byte variable that drives TDI when `tdi` is absent. */
    method TxRxBlock(tdi: Option<seq<bv8>>, tdo: array?<bv8>, length: int, last: bool, uninit: bv8)
      requires tdi.Some? ==> |tdi.value| >= ByteCount(Clocked(length))
      requires tdo != null ==> tdo.Length >= ByteCount(Clocked(length))
      modifies this`total, port, tdo
      ensures port.trace == Shift(old(port.trace), profile, BlockSignals(tdi, uninit, Clocked(length), last), true)
                + [DataOut(profile.defByte)]
      ensures port.data == profile.defByte
      ensures port.control == old(port.control)
      ensures total == old(total) + Clocked(length)
      ensures tdo != null ==>
                tdo[..] == Stored(old(tdo[..]), Pack(Samples(profile, port.respond, BlockSignals(tdi, uninit, Clocked(length), last))),
                                  ByteCount(Clocked(length)))
    {
      ghost var n := Clocked(length);
      ghost var p, f, t0 := profile, port.respond, port.trace;
      ghost var got := Pack(Samples(p, f, BlockSignals(tdi, uninit, n, last)));
      ghost var buf := if tdo != null then tdo[..] else [];
      var i: nat := 0;
      var j: nat := 0;
      ghost var r: nat := 0;
      var tdoByte: bv8 := 0;
      var tdiByte: bv8 := uninit;
      var data := profile.defByte;
      if tdi.Some? {
        tdiByte := tdi.value[j];
      }
      BlockStart(p, f, tdi, uninit, n, last, port.trace, tdiByte);
      i, j, tdiByte, tdoByte, r := BlockLoop(tdi, tdo, length, n, last, uninit, t0, buf, got, i, j, tdiByte, tdoByte, r);
      BlockLastBit(tdi, tdo, n, last, uninit, t0, buf, got, i, j, tdiByte, tdoByte, r);
      port.WriteData(data);  // make sure TCK is low
    }

    /** tx_tms: shift `length` TMS bits from `pat`, LSB first, with TDI high,
        then return the data register to the idle byte. */
    method TxTms(pat: seq<bv8>, length: int)
      requires length > 0 ==> |pat| >= ByteCount(length)
      modifies this`total, port
      ensures var n := if length > 0 then length else 0;
        port.trace == Shift(old(port.trace), profile, TmsSignals(pat, n), false) + [DataOut(profile.defByte)]
      ensures port.data == profile.defByte
      ensures port.control == old(port.control)
      ensures total == old(total) + (if length > 0 then length else 0)
    {
      ghost var n := if length > 0 then length else 0;
      ghost var sigs := TmsSignals(pat, n);
      ghost var p, t0 := profile, port.trace;
      var data := profile.defByte;
      var tms: bv8 := 0;
      var i := 0;
      while i < length
        invariant 0 <= i <= n
        invariant i % 8 != 0 ==> tms == Shr(pat[i / 8], i % 8)
        invariant port.trace == Shift(t0, p, sigs[..i], false)
        invariant port.control == old(port.control)
        invariant total == old(total) + i
      {
        if i % 8 == 0 {
          tms := pat[i / 8];
        }
        ghost var before := port.trace;
        Tx(tms & 1 == 1, true);
        TmsStep(p, pat, n, i, tms, t0, before, port.trace);
        tms := tms >> 1;
        i := i + 1;
      }
      assert sigs[..i] == sigs;
      port.WriteData(data);  // make sure TCK is low
    }

    /** The destructor's register work: a ByteBlaster session clears the
        enable bit (AUTOFD) with one read-modify-write of the control register. */
    method Teardown()
      modifies port
      ensures cabletype == ByteBlaster ==>
                && port.trace == old(port.trace) + [ControlIn, ControlOut(port.control)]
                && port.control & CONTROL_AUTOFD == 0
                && port.control & !CONTROL_AUTOFD == old(port.control) & !CONTROL_AUTOFD
      ensures cabletype != ByteBlaster ==> port.trace == old(port.trace) && port.control == old(port.control)
      ensures port.data == old(port.data)
    {
      if cabletype == ByteBlaster {
        var control := port.ReadControl();
        control := control & !CONTROL_AUTOFD;
        port.WriteControl(control);
      }
    }
  }
}
