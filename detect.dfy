/** What the cable detector decides from the cable's answers on the status
    lines, which register accesses it makes on the way, and the truth tables
    that say when each cable is recognised. */
module CableDetect {
  import opened ParportIo
  import opened CableProfile

  // ByteBlaster: D7 loops back to PAPEROUT, D5 to ACK.
  const BBLST_LB_OUT: bv8 := 0x80
  const BBLST_ACK_OUT: bv8 := 0x20
  // Parallel Cable III: D6 drives BUSY (inverted by the port) and PAPEROUT.
  const PCIII_CHECK_OUT: bv8 := 0x40

  /** Flip `bit` of `d`, as the detector does between rounds. */
  function Toggle(d: bv8, bit: bv8): bv8 {
    if d & bit != 0 then d & !bit else d | bit
  }

  /** PAPEROUT follows D7. */
  predicate LoopbackTracks(d: bv8, s: bv8) {
    (d & BBLST_LB_OUT != 0) == (s & STATUS_PAPEROUT != 0)
  }

  /** ACK follows D5. */
  predicate AckTracks(d: bv8, s: bv8) {
    (d & BBLST_ACK_OUT != 0) == (s & STATUS_ACK != 0)
  }

  /** The check a ByteBlaster toggle round makes. */
  predicate AlteraTracks(d: bv8, s: bv8) {
    LoopbackTracks(d, s) && AckTracks(d, s)
  }

  /** The check the Parallel Cable III makes: BUSY reads the complement of D6 and
      PAPEROUT reads D6. */
  predicate XilinxTracks(d: bv8, s: bv8) {
    && (s & STATUS_BUSY != 0) != (d & PCIII_CHECK_OUT != 0)
    && (s & STATUS_PAPEROUT != 0) == (d & PCIII_CHECK_OUT != 0)
  }

  /** The reading taken for an unpowered Parallel Cable III: BUSY reads the
      complement of D6, or PAPEROUT reads D6. */
  predicate XilinxUnpowered(d: bv8, s: bv8) {
    || (s & STATUS_BUSY != 0) != (d & PCIII_CHECK_OUT != 0)
    || (s & STATUS_PAPEROUT != 0) == (d & PCIII_CHECK_OUT != 0)
  }

  /** The two cable families the detector tries, each with its own toggle
      rounds. */
  datatype Family = Altera | Xilinx

  /** The data bytes of a family's toggle rounds: D7 and D5 flipped in turn for
      the ByteBlaster, D6 flipped twice for the Parallel Cable III. */
  function Probes(c: Family): (ds: seq<bv8>)
    ensures |ds| == if c == Altera then 4 else 2
  {
    match c
    case Altera => [0x80, 0xA0, 0x20, 0x00]
    case Xilinx => [0x40, 0x00]
  }

  /** The check a toggle round of family `c` makes on data `d` and status `s`. */
  predicate Passes(c: Family, d: bv8, s: bv8) {
    match c
    case Altera => AlteraTracks(d, s)
    case Xilinx => XilinxTracks(d, s)
  }

  /** The first `k` rounds of family `c` pass with a cable that answers `f`. */
  predicate PassedRounds(c: Family, f: bv8 -> bv8, k: nat)
    requires k <= |Probes(c)|
  {
    k == 0 || (PassedRounds(c, f, k - 1) && Passes(c, Probes(c)[k - 1], f(Probes(c)[k - 1])))
  }

  /** The first round of family `c`, from round `k` on, whose check fails, or
      the number of rounds if none does. */
  function FirstMiss(c: Family, f: bv8 -> bv8, k: nat): (r: nat)
    requires k <= |Probes(c)|
    ensures k <= r <= |Probes(c)|
    decreases |Probes(c)| - k
  {
    if k == |Probes(c)| then k
    else if !Passes(c, Probes(c)[k], f(Probes(c)[k])) then k
    else FirstMiss(c, f, k + 1)
  }

  /** The outcome of detection together with the diagnostic the driver prints. */
  datatype Diagnosis =
    | CheckDriverSetup             // status 0x00 or 0xFF
    | UnpoweredByteBlaster
    | UnpoweredParallelCable3
    | NoDongle
    | MissingReaction(family: Family, round: nat)
    | Found(family: Family)

  function KindOf(d: Diagnosis): (k: CableKind)
    ensures k == ByteBlaster <==> d == Found(Altera)
    ensures k == ParallelCable3 <==> d == Found(Xilinx)
  {
    match d
    case Found(Altera) => ByteBlaster
    case Found(Xilinx) => ParallelCable3
    case _ => NoCable
  }

  /** The first reading, taken with data 0, sends detection into the toggle
      rounds of family `c`: ERROR low and PAPEROUT following D7 for the
      ByteBlaster, ERROR high and the Parallel Cable III check passing for the
      Parallel Cable III. */
  predicate Enters(c: Family, s: bv8) {
    && s != 0x00 && s != 0xFF
    && match c
       case Altera => s & STATUS_ERROR == 0 && LoopbackTracks(0, s)
       case Xilinx => s & STATUS_ERROR != 0 && XilinxTracks(0, s)
  }

  /** Detection as a function of the cable's answers `f`: the status read after
      data 0, then the ERROR line chooses the cable to try. */
  function Classify(f: bv8 -> bv8): (d: Diagnosis)
    ensures d.MissingReaction? ==> 1 <= d.round <= |Probes(d.family)|
  {
    var s := f(0);
    if s == 0x00 || s == 0xFF then CheckDriverSetup
    else if s & STATUS_ERROR == 0 then
      if !LoopbackTracks(0, s) then
        if AckTracks(0, s) then UnpoweredByteBlaster
        else if XilinxUnpowered(0, s) then UnpoweredParallelCable3
        else NoDongle
      else Rounds(Altera, f)
    else if !XilinxTracks(0, s) then NoDongle
    else Rounds(Xilinx, f)
  }

  /** The toggle rounds of family `c` end at the first round that fails, or
      find the cable. */
  function Rounds(c: Family, f: bv8 -> bv8): (d: Diagnosis)
    ensures d.MissingReaction? ==> d.family == c && 1 <= d.round <= |Probes(c)|
  {
    var m := FirstMiss(c, f, 0);
    if m < |Probes(c)| then MissingReaction(c, m + 1) else Found(c)
  }

  /** The toggle-round bytes detection writes after the initial 0. */
  function ProbesWritten(f: bv8 -> bv8): seq<bv8> {
    match Classify(f)
    case MissingReaction(c, r) => Probes(c)[..r]
    case Found(c) => Probes(c)
    case _ => []
  }

  /** Every byte detection writes to the data register, in order. */
  function DetectWrites(f: bv8 -> bv8): (w: seq<bv8>)
    ensures |w| >= 1 && w[0] == 0
  {
    [0] + ProbesWritten(f)
  }

  /** The trace `t` followed by the toggle rounds `ds`: each writes its byte and
      reads the status. */
  function Probe(t: seq<Access>, ds: seq<bv8>): seq<Access> {
    if ds == [] then t
    else Probe(t, ds[..|ds| - 1]) + [DataOut(ds[|ds| - 1])] + [StatusIn]
  }

  /** One more round appends its write and its read. */
  lemma ProbeOneMore(t: seq<Access>, ds: seq<bv8>, k: nat)
    requires k < |ds|
    ensures Probe(t, ds[..k + 1]) == Probe(t, ds[..k]) + [DataOut(ds[k])] + [StatusIn]
  {
    assert ds[..k + 1][..k] == ds[..k];
  }

  /** The read-modify-write of the control register that enables a
      ByteBlaster: read `ctrl`, write it back with AUTOFD set. */
  function Enable(t: seq<Access>, found: bool, ctrl: bv8): seq<Access> {
    if found then t + [ControlIn] + [ControlOut(ctrl | CONTROL_AUTOFD)] else t
  }

  /** The trace `t` followed by every register access detection makes, given
      the control register `ctrl` it starts with: data 0, a status read and a
      control read, the rounds reached, and for a ByteBlaster the
      read-modify-write that sets AUTOFD. */
  function Detect(t: seq<Access>, f: bv8 -> bv8, ctrl: bv8): seq<Access> {
    Enable(Probe(t + [DataOut(0)] + [StatusIn] + [ControlIn], ProbesWritten(f)), Classify(f) == Found(Altera), ctrl)
  }

  /** The profile in force after detection, starting from `previous`. */
  function Installed(k: CableKind, previous: Profile): Profile {
    match k
    case ByteBlaster => ByteBlasterProfile
    case ParallelCable3 => ParallelCable3Profile
    case NoCable => previous
  }

  /** A powered ByteBlaster's truth table: ERROR low, PAPEROUT low at data 0, and
      after each toggle PAPEROUT reads D7 and ACK reads D5. */
  predicate ByteBlasterAnswers(f: bv8 -> bv8) {
    var s := f(0);
    && s != 0x00 && s != 0xFF
    && s & STATUS_ERROR == 0
    && s & STATUS_PAPEROUT == 0
    && forall d :: d in Probes(Altera) ==>
         && (f(d) & STATUS_PAPEROUT != 0) == (d & 0x80 != 0)
         && (f(d) & STATUS_ACK != 0) == (d & 0x20 != 0)
  }

  /** A Parallel Cable III's truth table: ERROR high, and at data 0 and at data
      0x40 BUSY reads the complement of D6 and PAPEROUT reads D6. */
  predicate ParallelCable3Answers(f: bv8 -> bv8) {
    var s := f(0);
    && s != 0x00 && s != 0xFF
    && s & STATUS_ERROR != 0
    && forall d :: d in [0x00, 0x40] ==>
         && (f(d) & STATUS_BUSY != 0) == (d & 0x40 == 0)
         && (f(d) & STATUS_PAPEROUT != 0) == (d & 0x40 != 0)
  }

  /** The rounds write exactly their bytes and read the status once each. */
  lemma {:induction false} ProbeAccesses(t: seq<Access>, ds: seq<bv8>)
    ensures DataWrites(Probe(t, ds)) == DataWrites(t) + ds
    ensures StatusReads(Probe(t, ds)) == StatusReads(t) + |ds|
    decreases |ds|
  {
    if ds != [] {
      var n := |ds| - 1;
      var u := Probe(t, ds[..n]);
      ProbeAccesses(t, ds[..n]);
      AccessAppend(u, DataOut(ds[n]));
      AccessAppend(u + [DataOut(ds[n])], StatusIn);
      assert DataWrites(t) + ds[..n] + [ds[n]] == DataWrites(t) + ds;
    }
  }

  /** The opening accesses: data 0, a status read, a control read. */
  lemma OpeningAccesses(t: seq<Access>)
    ensures DataWrites(t + [DataOut(0)] + [StatusIn] + [ControlIn]) == DataWrites(t) + [0]
    ensures StatusReads(t + [DataOut(0)] + [StatusIn] + [ControlIn]) == StatusReads(t) + 1
  {
    AccessAppend(t, DataOut(0));
    AccessAppend(t + [DataOut(0)], StatusIn);
    AccessAppend(t + [DataOut(0)] + [StatusIn], ControlIn);
  }

  /** The closing read-modify-write of the control register. */
  lemma ControlAccesses(t: seq<Access>, c: bv8)
    ensures DataWrites(t + [ControlIn] + [ControlOut(c)]) == DataWrites(t)
    ensures StatusReads(t + [ControlIn] + [ControlOut(c)]) == StatusReads(t)
  {
    AccessAppend(t, ControlIn);
    AccessAppend(t + [ControlIn], ControlOut(c));
  }

  /** Detection writes data 0 and then exactly the bytes of the rounds it reaches,
      reading the status once after each write. */
  lemma DetectAccesses(t: seq<Access>, f: bv8 -> bv8, ctrl: bv8)
    ensures DataWrites(Detect(t, f, ctrl)) == DataWrites(t) + DetectWrites(f)
    ensures StatusReads(Detect(t, f, ctrl)) == StatusReads(t) + |DetectWrites(f)|
  {
    DetectShapeAccesses(t, ProbesWritten(f), Classify(f) == Found(Altera), ctrl);
  }

  /** The accesses of detection for any rounds `ds`, with or without the closing
      control write. */
  lemma DetectShapeAccesses(t: seq<Access>, ds: seq<bv8>, found: bool, ctrl: bv8)
    ensures var r := Enable(Probe(t + [DataOut(0)] + [StatusIn] + [ControlIn], ds), found, ctrl);
      DataWrites(r) == DataWrites(t) + ([0] + ds) && StatusReads(r) == StatusReads(t) + |[0] + ds|
  {
    var head := t + [DataOut(0)] + [StatusIn] + [ControlIn];
    OpeningAccesses(t);
    ProbeAccesses(head, ds);
    AppendAssoc(DataWrites(t), [0], ds);
    var u := Probe(head, ds);
    if found {
      ControlAccesses(u, ctrl | CONTROL_AUTOFD);
    }
  }

  /** FirstMiss from round `j` is round `k` when the rounds `j` to `k - 1` pass
      and round `k` fails or is past the last. */
  lemma {:induction false} FirstMissIs(c: Family, f: bv8 -> bv8, j: nat, k: nat)
    requires j <= k <= |Probes(c)| && PassedRounds(c, f, k)
    requires k < |Probes(c)| ==> !Passes(c, Probes(c)[k], f(Probes(c)[k]))
    ensures FirstMiss(c, f, j) == k
    decreases k - j
  {
    if j < k {
      PassedBefore(c, f, j, k);
      FirstMissIs(c, f, j + 1, k);
    }
  }

  /** A passed prefix of rounds contains every earlier round. */
  lemma {:induction false} PassedBefore(c: Family, f: bv8 -> bv8, m: nat, k: nat)
    requires m < k <= |Probes(c)| && PassedRounds(c, f, k)
    ensures Passes(c, Probes(c)[m], f(Probes(c)[m]))
    decreases k
  {
    if m < k - 1 {
      PassedBefore(c, f, m, k - 1);
    }
  }

  /** Conversely, every round before FirstMiss passes, and FirstMiss itself
      fails unless it is past the last round. */
  lemma {:induction false} FirstMissPasses(c: Family, f: bv8 -> bv8, k: nat)
    requires k <= |Probes(c)| && PassedRounds(c, f, k)
    ensures PassedRounds(c, f, FirstMiss(c, f, k))
    ensures FirstMiss(c, f, k) < |Probes(c)| ==>
              !Passes(c, Probes(c)[FirstMiss(c, f, k)], f(Probes(c)[FirstMiss(c, f, k)]))
    decreases |Probes(c)| - k
  {
    if k < |Probes(c)| && Passes(c, Probes(c)[k], f(Probes(c)[k])) {
      FirstMissPasses(c, f, k + 1);
    }
  }

  /** Once the first reading enters the rounds of family `c`, detection stops at
      the first round whose check fails, after writing the bytes of the rounds up
      to and including it; when none fails the cable is found. */
  lemma RoundsReached(c: Family, f: bv8 -> bv8, k: nat)
    requires Enters(c, f(0))
    requires k <= |Probes(c)| && PassedRounds(c, f, k)
    requires k < |Probes(c)| ==> !Passes(c, Probes(c)[k], f(Probes(c)[k]))
    ensures k < |Probes(c)| ==> Classify(f) == MissingReaction(c, k + 1) && ProbesWritten(f) == Probes(c)[..k + 1]
    ensures k == |Probes(c)| ==> Classify(f) == Found(c) && ProbesWritten(f) == Probes(c)
    ensures DetectWrites(f)[|DetectWrites(f)| - 1] == Probes(c)[if k < |Probes(c)| then k else k - 1]
  {
    FirstMissIs(c, f, 0, k);
  }

  /** Setting AUTOFD by OR sets that bit and keeps every other control bit. */
  lemma AutofdOnly(ctrl: bv8)
    ensures (ctrl | CONTROL_AUTOFD) & CONTROL_AUTOFD != 0
    ensures (ctrl | CONTROL_AUTOFD) & !CONTROL_AUTOFD == ctrl & !CONTROL_AUTOFD
  {
  }

  /** A stuck status bus (0x00 or 0xFF) is rejected after the single write of data 0. */
  lemma DegenerateStatusRejected(f: bv8 -> bv8, ctrl: bv8)
    requires f(0) == 0x00 || f(0) == 0xFF
    ensures Classify(f) == CheckDriverSetup && KindOf(Classify(f)) == NoCable
    ensures DataWrites(Detect([], f, ctrl)) == [0]
  {
    DetectAccesses([], f, ctrl);
  }

  /** The ByteBlaster is recognised exactly when the cable follows its truth table
      through the initial check and all four rounds; it is then probed with data
      0x00, 0x80, 0xA0, 0x20, 0x00 in that order. */
  lemma ByteBlasterIdentified(f: bv8 -> bv8, ctrl: bv8)
    ensures Classify(f) == Found(Altera) <==> ByteBlasterAnswers(f)
    ensures Classify(f) == Found(Altera) ==>
              DataWrites(Detect([], f, ctrl)) == [0x00, 0x80, 0xA0, 0x20, 0x00]
  {
    DetectAccesses([], f, ctrl);
  }

  /** The Parallel Cable III is recognised exactly when the cable follows its
      truth table at data 0 and data 0x40; it is then probed with data 0x00,
      0x40, 0x00 in that order. */
  lemma ParallelCable3Identified(f: bv8 -> bv8, ctrl: bv8)
    ensures Classify(f) == Found(Xilinx) <==> ParallelCable3Answers(f)
    ensures Classify(f) == Found(Xilinx) ==>
              DataWrites(Detect([], f, ctrl)) == [0x00, 0x40, 0x00]
  {
    DetectAccesses([], f, ctrl);
  }

  /** Because the answer depends only on the data byte, the second Parallel
      Cable III round (back at data 0) repeats the initial check and never fails. */
  lemma XilinxSecondRoundRedundant(f: bv8 -> bv8)
    ensures Classify(f) != MissingReaction(Xilinx, 2)
  {
  }
}
