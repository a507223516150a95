/**
 * The serial device as the transaction sees it: an open flag, the input that
 * has arrived and not yet been read, and the bytes written so far. Opening,
 * driver faults and the modem's transmissions are not computed here: they are
 * given when the port is built (`canOpen`, `resetFault`, `writeFault`) or
 * delivered by `Receive`.
 */
module SerialPort {
  import opened Wrappers
  import opened Utf8

  /**
   * What one `read(inWaiting())` finds at the head of the input: the bytes
   * that have arrived since the previous read, or a read the driver fails.
   */
  datatype RawChunk = Arrived(data: seq<byte>) | ReadFault

  /** A chunk is never empty: `inWaiting()` reports it as waiting input. */
  type Chunk = c: RawChunk | c.ReadFault? || |c.data| > 0 witness ReadFault

  class Serial {
    var isOpen: bool
    /** Input received and not yet read, in arrival order. */
    var waiting: seq<Chunk>
    /** Every byte written to the device, in order. */
    var written: seq<byte>
    /** Whether `open()` succeeds on this device. */
    const canOpen: bool
    /** Whether the driver fails `reset_input_buffer()`. */
    const resetFault: bool
    /** Whether the driver fails `write()`. */
    const writeFault: bool

    constructor (isOpen: bool, canOpen: bool, resetFault: bool, writeFault: bool, stale: seq<Chunk>)
      ensures this.isOpen == isOpen && this.canOpen == canOpen
      ensures this.resetFault == resetFault && this.writeFault == writeFault
      ensures waiting == stale && written == []
    {
      this.isOpen := isOpen;
      this.canOpen := canOpen;
      this.resetFault := resetFault;
      this.writeFault := writeFault;
      waiting := stale;
      written := [];
    }

    /** `open()`; false stands for the exception it raises. */
    method Open() returns (ok: bool)
      modifies this
      ensures ok == canOpen && isOpen == (old(isOpen) || canOpen)
      ensures waiting == old(waiting) && written == old(written)
    {
      ok := canOpen;
      if ok {
        isOpen := true;
      }
    }

    /** `reset_input_buffer()`: discards every byte waiting to be read. */
    method ResetInputBuffer() returns (ok: bool)
      modifies this
      ensures ok == !resetFault
      ensures waiting == (if ok then [] else old(waiting))
      ensures isOpen == old(isOpen) && written == old(written)
    {
      ok := !resetFault;
      if ok {
        waiting := [];
      }
    }

    /** `write(data)`. */
    method Write(data: seq<byte>) returns (ok: bool)
      modifies this
      ensures ok == !writeFault
      ensures written == (if ok then old(written) + data else old(written))
      ensures isOpen == old(isOpen) && waiting == old(waiting)
    {
      ok := !writeFault;
      if ok {
        written := written + data;
      }
    }

    /** `inWaiting()`: the number of bytes that can be read now. */
    function InWaiting(): (n: nat)
      reads this
      ensures n == 0 <==> waiting == []
    {
      if waiting == [] then 0
      else match waiting[0]
        case Arrived(data) => |data|
        case ReadFault => 1
    }

    /** `read(inWaiting())`: takes the chunk at the head of the input; None when the read fails. */
    method ReadWaiting() returns (data: Option<seq<byte>>)
      requires waiting != []
      modifies this
      ensures waiting == old(waiting)[1..]
      ensures data == (if old(waiting)[0].Arrived? then Some(old(waiting)[0].data) else None)
      ensures isOpen == old(isOpen) && written == old(written)
    {
      data := if waiting[0].Arrived? then Some(waiting[0].data) else None;
      waiting := waiting[1..];
    }

    /** The modem's transmission arriving in the input buffer. */
    method Receive(chunks: seq<Chunk>)
      modifies this
      ensures waiting == old(waiting) + chunks
      ensures isOpen == old(isOpen) && written == old(written)
    {
      waiting := waiting + chunks;
    }
  }
}
