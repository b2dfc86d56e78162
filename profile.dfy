/** The two supported JTAG cables and how each one maps the TAP signals onto the
    parallel port: which data bits drive TCK, TMS and TDI, which status bit
    carries TDO and whether it arrives inverted. */
module CableProfile {
  import opened ParportIo
  import opened BitPacking

  /** NO_CABLE, IS_PCIII and IS_BBLST. */
  datatype CableKind = NoCable | ParallelCable3 | ByteBlaster

  /** The driver's def_byte, tdi_value, tms_value, tck_value, tdo_mask and tdo_inv. */
  datatype Profile = Profile(
    defByte: bv8,
    tdiValue: bv8,
    tmsValue: bv8,
    tckValue: bv8,
    tdoMask: bv8,
    tdoInv: bool)

  /** Altera ByteBlaster: TCK on D0, TMS on D1, TDI on D6, TDO on BUSY, which the
      port reports inverted. */
  const ByteBlasterProfile := Profile(0x00, 0x40, 0x02, 0x01, STATUS_BUSY, true)

  /** Xilinx Parallel Cable III: TDI on D0, TCK on D1, TMS on D2, the idle byte
      holds D4 (PROG_EN_N) high, TDO on SELECT. */
  const ParallelCable3Profile := Profile(0x10, 0x01, 0x04, 0x02, STATUS_SELECT, false)

  /** Exactly one bit of `v` is set. */
  predicate SingleBit(v: bv8) {
    v != 0 && v & (v - 1) == 0
  }

  /** The three outputs are distinct single bits outside the idle byte, so OR-ing
      them into an output byte never disturbs another signal. */
  predicate WellFormed(p: Profile) {
    && SingleBit(p.tdiValue) && SingleBit(p.tmsValue) && SingleBit(p.tckValue)
    && p.tdiValue & p.tmsValue == 0
    && p.tdiValue & p.tckValue == 0
    && p.tmsValue & p.tckValue == 0
    && (p.tdiValue | p.tmsValue | p.tckValue) & p.defByte == 0
  }

  /** The logical TMS and TDI levels for one TCK cycle. */
  datatype Signals = Signals(tms: bool, tdi: bool)

  /** The data byte driven while TCK is low. */
  function Drive(p: Profile, s: Signals): bv8 {
    p.defByte | (if s.tdi then p.tdiValue else 0) | (if s.tms then p.tmsValue else 0)
  }

  /** The logical TDO level read from a status byte. */
  function Sample(p: Profile, status: bv8): bool {
    if status & p.tdoMask != 0 then !p.tdoInv else p.tdoInv
  }

  /** Both installed profiles are well formed; only the ByteBlaster reads TDO
      inverted. */
  lemma InstalledProfilesWellFormed()
    ensures WellFormed(ByteBlasterProfile) && WellFormed(ParallelCable3Profile)
    ensures ByteBlasterProfile.tdoInv && !ParallelCable3Profile.tdoInv
  {
  }

  /** With a well-formed profile the two bytes of a clock cycle can be decoded
      back into the signals: TCK is low then high, TMS and TDI read back as
      driven in both bytes, and every other bit is the idle byte's. */
  lemma DriveDecodes(p: Profile, s: Signals)
    requires WellFormed(p)
    ensures var lo := Drive(p, s); var hi := lo | p.tckValue;
      && lo & p.tckValue == 0 && hi & p.tckValue != 0
      && (lo & p.tmsValue != 0) == s.tms && (hi & p.tmsValue != 0) == s.tms
      && (lo & p.tdiValue != 0) == s.tdi && (hi & p.tdiValue != 0) == s.tdi
      && hi & !(p.tckValue | p.tmsValue | p.tdiValue) == p.defByte
  {
    var t := if s.tdi then p.tdiValue else 0;
    var m := if s.tms then p.tmsValue else 0;
    assert t & p.tmsValue == 0 && t & p.tckValue == 0 && m & p.tckValue == 0 && m & p.tdiValue == 0;
    assert p.defByte & p.tmsValue == 0 && p.defByte & p.tdiValue == 0 && p.defByte & p.tckValue == 0;
  }

  /** The TDO polarity rule: with tdo_inv set a raw 1 reads as logical 0, with it
      clear a raw 1 reads as logical 1. */
  lemma SamplePolarity(p: Profile, status: bv8)
    ensures p.tdoInv ==> (Sample(p, status) <==> status & p.tdoMask == 0)
    ensures !p.tdoInv ==> (Sample(p, status) <==> status & p.tdoMask != 0)
  {
  }
}
