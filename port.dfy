/** The three registers of a PC parallel port, seen through the Linux ppdev
    interface: an 8-bit data register (outputs D0..D7), a status register
    (input lines) and a control register. The OS calls are replaced by an
    abstract port that records every register access in order. */
module ParportIo {

  // Status register bits (linux/parport.h).
  const STATUS_ERROR: bv8 := 0x08
  const STATUS_SELECT: bv8 := 0x10
  const STATUS_PAPEROUT: bv8 := 0x20
  const STATUS_ACK: bv8 := 0x40
  const STATUS_BUSY: bv8 := 0x80

  // Control register bit (linux/parport.h).
  const CONTROL_AUTOFD: bv8 := 0x02

  /** One register access, in the order the driver issues them. */
  datatype Access =
    | DataOut(data: bv8)      // write the data register
    | StatusIn                // read the status register
    | ControlIn               // read the control register
    | ControlOut(control: bv8) // write the control register

  /** The bytes written to the data register, in order. */
  function DataWrites(t: seq<Access>): (w: seq<bv8>)
    ensures |w| <= |t|
  {
    if t == [] then []
    else DataWrites(t[..|t| - 1]) + (if t[|t| - 1].DataOut? then [t[|t| - 1].data] else [])
  }

  /** The number of status-register reads. */
  function StatusReads(t: seq<Access>): (n: nat)
    ensures n <= |t|
  {
    if t == [] then 0
    else StatusReads(t[..|t| - 1]) + (if t[|t| - 1].StatusIn? then 1 else 0)
  }

  /** Both counts distribute over concatenation of traces. */
  lemma {:induction false} DataWritesAppend(s: seq<Access>, t: seq<Access>)
    ensures DataWrites(s + t) == DataWrites(s) + DataWrites(t)
    ensures StatusReads(s + t) == StatusReads(s) + StatusReads(t)
    decreases |t|
  {
    if t == [] {
      assert s + t == s;
    } else {
      var n := |t| - 1;
      assert (s + t)[..|s + t| - 1] == s + t[..n];
      DataWritesAppend(s, t[..n]);
    }
  }

  /** One more access adds its byte or its read and nothing else. */
  lemma AccessAppend(t: seq<Access>, a: Access)
    ensures DataWrites(t + [a]) == DataWrites(t) + (if a.DataOut? then [a.data] else [])
    ensures StatusReads(t + [a]) == StatusReads(t) + (if a.StatusIn? then 1 else 0)
  {
    assert (t + [a])[..|t|] == t;
  }

  /** Sequence concatenation is associative. */
  lemma AppendAssoc<T>(a: seq<T>, b: seq<T>, c: seq<T>)
    ensures a + b + c == a + (b + c)
  {
  }

  /** A parallel port with a cable attached. The cable's answer on the status
      lines is a fixed function of what the data register currently drives. */
  class Port {
    var data: bv8
    var control: bv8
    var trace: seq<Access>
    const respond: bv8 -> bv8

    /** A port whose registers hold `data` and `control` when the driver starts. */
    constructor (respond: bv8 -> bv8, data: bv8, control: bv8)
      ensures this.respond == respond && this.data == data && this.control == control
      ensures trace == []
    {
      this.respond := respond;
      this.data := data;
      this.control := control;
      trace := [];
    }

    /** One data-register write (PPWDATA); the OS error code is never checked. */
    method WriteData(b: bv8)
      modifies this
      ensures data == b && control == old(control)
      ensures trace == old(trace) + [DataOut(b)]
    {
      data := b;
      trace := trace + [DataOut(b)];
    }

    /** One status-register read (PPRSTATUS). */
    method ReadStatus() returns (s: bv8)
      modifies this`trace
      ensures s == respond(data)
      ensures trace == old(trace) + [StatusIn]
    {
      s := respond(data);
      trace := trace + [StatusIn];
    }

    /** One control-register read (PPRCONTROL). */
    method ReadControl() returns (c: bv8)
      modifies this`trace
      ensures c == control
      ensures trace == old(trace) + [ControlIn]
    {
      c := control;
      trace := trace + [ControlIn];
    }

    /** One control-register write (PPWCONTROL). */
    method WriteControl(c: bv8)
      modifies this
      ensures control == c && data == old(data)
      ensures trace == old(trace) + [ControlOut(c)]
    {
      control := c;
      trace := trace + [ControlOut(c)];
    }
  }
}
