/**
 * The AT-command transaction of class `ATCom`: framing and writing a command
 * (`send_at_comm_once`), collecting the reply (`get_response`) and the two in
 * sequence (`send_at_comm`).
 */
module Transaction {
  import opened Wrappers
  import opened Utf8
  import opened Values
  import opened SerialPort

  /**
   * The exceptions a transaction raises. TypeError is Python's own, raised by
   * the timeout comparison when the timeout is not a number.
   */
  datatype Error = RuntimeError(message: string) | TimeoutError(message: string) | TypeError

  const PortClosed := "Serial Port is closed or doesn't exist..."
  const ReadFailed := "An error occured while reading from serial port"
  const TimedOut := "timeout!"
  const OpenFailed := "Serial port couldn't be opened!"
  const WriteFailed := "Occured an error while writing to serial port!"

  /** `str(command) + "\r"`: the frame written for a command. */
  function Frame(command: string): string {
    command + "\r"
  }

  /** How many times `c` occurs in `s`. */
  function Count(c: char, s: string): nat {
    if s == [] then 0 else Count(c, s[..|s| - 1]) + (if s[|s| - 1] == c then 1 else 0)
  }

  /**
   * The frame is the command followed by exactly one carriage return, also
   * when the command already ends in one, and on the wire it is the
   * command's bytes followed by the single byte 13, which decode back to it.
   */
  lemma FrameAppendsOneCarriageReturn(command: string)
    ensures |Frame(command)| == |command| + 1
    ensures Frame(command)[..|command|] == command && Frame(command)[|command|] == '\r'
    ensures Count('\r', Frame(command)) == Count('\r', command) + 1
    ensures Encode(Frame(command)) == Encode(command) + [13]
    ensures Decode(Encode(Frame(command))) == Some(command + "\r")
  {
    var f := Frame(command);
    assert f[..|f| - 1] == command;
    EncodeAppend(command, "\r");
    EncodeAscii('\r');
    DecodeEncode(f);
  }

  /** The text one chunk contributes: its bytes decoded on their own. */
  function ChunkText(c: Chunk): Option<string> {
    match c
    case ReadFault => None
    case Arrived(data) => Decode(data)
  }

  /**
   * The text the drain accumulates from these chunks, read and decoded one
   * after another; None as soon as one read or one decode fails.
   */
  function Collect(chunks: seq<Chunk>): (r: Option<string>)
    ensures r.Some? <==> forall i :: 0 <= i < |chunks| ==> ChunkText(chunks[i]).Some?
  {
    if chunks == [] then Some("")
    else
      var init := chunks[..|chunks| - 1];
      assert forall i :: 0 <= i < |init| ==> init[i] == chunks[i];
      match (Collect(init), ChunkText(chunks[|chunks| - 1]))
      case (Some(t), Some(u)) => Some(t + u)
      case _ => None
  }

  /** All bytes the chunks carry, in arrival order. */
  function Bytes(chunks: seq<Chunk>): seq<byte> {
    if chunks == [] then []
    else Bytes(chunks[..|chunks| - 1]) + (match chunks[|chunks| - 1] case Arrived(d) => d case ReadFault => [])
  }

  /** A collected response is exactly the text of all the bytes that arrived, in arrival order. */
  lemma {:induction false} CollectIsArrivalOrder(chunks: seq<Chunk>)
    requires Collect(chunks).Some?
    ensures Encode(Collect(chunks).value) == Bytes(chunks)
    ensures Decode(Bytes(chunks)) == Collect(chunks)
  {
    if chunks != [] {
      var init := chunks[..|chunks| - 1];
      CollectIsArrivalOrder(init);
      var t, u := Collect(init).value, ChunkText(chunks[|chunks| - 1]).value;
      EncodeAppend(t, u);
    }
    DecodeIsInverse(Bytes(chunks), Collect(chunks).value);
  }

  /**
   * Each chunk is decoded on its own, so a character whose bytes arrive in
   * two reads fails the drain although the bytes together are valid UTF-8.
   */
  lemma SplitCharacterRejected()
    ensures Decode([0xC3, 0xA9]) == Some("\U{E9}")
    ensures Collect([Arrived([0xC3]), Arrived([0xA9])]) == None
  {
    assert EncodeChar('\U{E9}') == [0xC3, 0xA9];
    assert Encode("\U{E9}") == EncodeChar('\U{E9}') + Encode([]);
    DecodeEncode("\U{E9}");
  }

  /** The index of the first chunk whose read or decode fails. */
  function FirstFailure(chunks: seq<Chunk>): (k: nat)
    requires Collect(chunks).None?
    ensures k < |chunks| && ChunkText(chunks[k]).None?
    ensures forall i :: 0 <= i < k ==> ChunkText(chunks[i]).Some?
  {
    if ChunkText(chunks[0]).None? then 0
    else
      assert forall i :: 1 <= i < |chunks| ==> chunks[1..][i - 1] == chunks[i];
      var k := FirstFailure(chunks[1..]);
      assert chunks[1..][k] == chunks[k + 1];
      k + 1
  }

  /** Collect grows one chunk at a time. */
  lemma CollectStep(chunks: seq<Chunk>, k: nat)
    requires k < |chunks|
    ensures Collect(chunks[..k + 1]) ==
      match (Collect(chunks[..k]), ChunkText(chunks[k]))
      case (Some(t), Some(u)) => Some(t + u)
      case _ => None
  {
    assert chunks[..k + 1][..k] == chunks[..k];
  }

  /** A chunk that fails after chunks that all succeed is the first failure. */
  lemma FirstFailureAt(chunks: seq<Chunk>, k: nat)
    requires k < |chunks| && ChunkText(chunks[k]).None?
    requires Collect(chunks[..k]).Some?
    ensures Collect(chunks).None? && FirstFailure(chunks) == k
  {
    assert forall i :: 0 <= i < k ==> chunks[..k][i] == chunks[i];
  }

  /** `millis() - timer < timeout` for a whole number of elapsed seconds; None where Python raises TypeError. */
  function ElapsedBelow(elapsed: nat, timeout: Value): Option<bool> {
    match timeout
    case Int(t) => Some(elapsed < t)
    case Bool(b) => Some(elapsed < if b then 1 else 0)
    case _ => None
  }

  /** What draining `waiting` gives: the decoded response, or the read RuntimeError. */
  function Drained(waiting: seq<Chunk>): Result<string, Error> {
    match Collect(waiting)
    case Some(text) => Ok(text)
    case None => Err(RuntimeError(ReadFailed))
  }

  /** The input left after draining `waiting`: nothing after a full drain, the chunks after the failing one otherwise. */
  function DrainLeft(waiting: seq<Chunk>): seq<Chunk> {
    if Collect(waiting).Some? then [] else waiting[FirstFailure(waiting) + 1..]
  }

  /**
   * What `get_response` returns or raises on an open port, given the
   * elapsed seconds at its first poll and the input waiting then.
   */
  function Poll(timeout: Value, elapsed: nat, waiting: seq<Chunk>): Result<string, Error> {
    match ElapsedBelow(elapsed, timeout)
    case None => Err(TypeError)
    case Some(false) => Err(TimeoutError(TimedOut))
    case Some(true) => Drained(waiting)
  }

  /**
   * The input still waiting after `get_response` polled an open port:
   * nothing after a full drain, the chunks after the failing one after a
   * read error, and all of it when the poll read nothing.
   */
  function Remaining(timeout: Value, elapsed: nat, waiting: seq<Chunk>): seq<Chunk> {
    if ElapsedBelow(elapsed, timeout) != Some(true) then waiting else DrainLeft(waiting)
  }

  /**
   * A larger timeout never loses a response: a poll that succeeds, or
   * fails reading, within a timeout does the same within any larger one.
   */
  lemma LargerTimeoutKeepsResponse(shorter: int, longer: int, elapsed: nat, waiting: seq<Chunk>)
    requires shorter <= longer && Poll(Int(shorter), elapsed, waiting) != Err(TimeoutError(TimedOut))
    ensures Poll(Int(longer), elapsed, waiting) == Poll(Int(shorter), elapsed, waiting)
  {
  }

  class ATCom {
    const serial: Serial
    /** The frame composed by the last `SendAtCommOnce` that got past opening the port. */
    var compose: string

    /** The port-opening constructor is not modelled: the object wraps a given port. */
    constructor (serial: Serial)
      ensures this.serial == serial && compose == ""
    {
      this.serial := serial;
      compose := "";
    }

    /**
     * `get_response(timeout)`. Every path through the body of its
     * `while True` ends in `return` or `raise`, so the body runs exactly once
     * and is modelled without the loop: on an open port one poll either
     * drains every chunk waiting into the response or raises.
     */
    method GetResponse(timeout: Value, elapsed: nat) returns (r: Result<string, Error>)
      modifies serial
      ensures !old(serial.isOpen) ==> r == Err(RuntimeError(PortClosed)) && serial.waiting == old(serial.waiting)
      ensures old(serial.isOpen) ==> r == Poll(timeout, elapsed, old(serial.waiting))
      ensures old(serial.isOpen) ==> serial.waiting == Remaining(timeout, elapsed, old(serial.waiting))
      ensures r.Ok? ==> serial.waiting == []
      ensures serial.isOpen == old(serial.isOpen) && serial.written == old(serial.written)
    {
      if serial.isOpen {
        // delay(100) and the clock readings are abstracted into `elapsed`
        match ElapsedBelow(elapsed, timeout) {
          case None =>
            r := Err(TypeError);
          case Some(false) =>
            r := Err(TimeoutError(TimedOut));
          case Some(true) =>
            r := Drain();
        }
      } else {
        r := Err(RuntimeError(PortClosed));
      }
    }

    /**
     * The inner loop of `get_response`: while `inWaiting()` is non-zero, reads
     * what is waiting and appends its decoding to the response.
     */
    method Drain() returns (r: Result<string, Error>)
      modifies serial
      ensures r == Drained(old(serial.waiting))
      ensures serial.waiting == DrainLeft(old(serial.waiting))
      ensures serial.isOpen == old(serial.isOpen) && serial.written == old(serial.written)
    {
      var response := "";
      ghost var arrived := serial.waiting;
      ghost var k := 0;
      while serial.InWaiting() > 0
        invariant 0 <= k <= |arrived| && serial.waiting == arrived[k..]
        invariant Collect(arrived[..k]) == Some(response)
        invariant serial.isOpen == old(serial.isOpen) && serial.written == old(serial.written)
        decreases |serial.waiting|
      {
        var data := serial.ReadWaiting();
        var text := if data.Some? then Decode(data.value) else None;
        assert text == ChunkText(arrived[k]);
        CollectStep(arrived, k);
        if text.None? {
          FirstFailureAt(arrived, k);
          return Err(RuntimeError(ReadFailed));
        }
        response := response + text.value;
        k := k + 1;
      }
      assert arrived[..k] == arrived;
      r := Ok(response);
    }

    /**
     * `send_at_comm_once(command)`: opens the port if it is closed, then
     * discards the waiting input and writes the frame.
     */
    method SendAtCommOnce(command: string) returns (r: Outcome<Error>)
      modifies this, serial
      ensures serial.isOpen == (old(serial.isOpen) || serial.canOpen)
      ensures !old(serial.isOpen) && !serial.canOpen ==>
        r == Fail(RuntimeError(OpenFailed)) && compose == old(compose) &&
        serial.waiting == old(serial.waiting) && serial.written == old(serial.written)
      ensures old(serial.isOpen) || serial.canOpen ==> compose == Frame(command)
      ensures (old(serial.isOpen) || serial.canOpen) && serial.resetFault ==>
        r == Fail(RuntimeError(WriteFailed)) &&
        serial.waiting == old(serial.waiting) && serial.written == old(serial.written)
      ensures (old(serial.isOpen) || serial.canOpen) && !serial.resetFault && serial.writeFault ==>
        r == Fail(RuntimeError(WriteFailed)) && serial.waiting == [] && serial.written == old(serial.written)
      ensures (old(serial.isOpen) || serial.canOpen) && !serial.resetFault && !serial.writeFault ==>
        r == Pass && serial.waiting == [] && serial.written == old(serial.written) + Encode(Frame(command))
    {
      if !serial.isOpen {
        var openOk := serial.Open();
        if !openOk {
          return Fail(RuntimeError(OpenFailed));
        }
      }
      compose := Frame(command);
      var reset := serial.ResetInputBuffer();
      if !reset {
        return Fail(RuntimeError(WriteFailed));
      }
      var wrote := serial.Write(Encode(compose));
      if !wrote {
        return Fail(RuntimeError(WriteFailed));
      }
      r := Pass;
    }

    /**
     * `send_at_comm(command, timeout)`. `reply` is what the modem transmits
     * after the write, while `get_response` sleeps before its first poll.
     * Input that was waiting before the write never reaches the result.
     */
    method SendAtComm(command: string, timeout: Value, reply: seq<Chunk>, elapsed: nat) returns (r: Result<string, Error>)
      modifies this, serial
      ensures serial.isOpen == (old(serial.isOpen) || serial.canOpen)
      ensures !old(serial.isOpen) && !serial.canOpen ==>
        r == Err(RuntimeError(OpenFailed)) && compose == old(compose) &&
        serial.waiting == old(serial.waiting) && serial.written == old(serial.written)
      ensures old(serial.isOpen) || serial.canOpen ==> compose == Frame(command)
      ensures (old(serial.isOpen) || serial.canOpen) && serial.resetFault ==>
        r == Err(RuntimeError(WriteFailed)) &&
        serial.waiting == old(serial.waiting) && serial.written == old(serial.written)
      ensures (old(serial.isOpen) || serial.canOpen) && !serial.resetFault && serial.writeFault ==>
        r == Err(RuntimeError(WriteFailed)) && serial.waiting == [] && serial.written == old(serial.written)
      ensures (old(serial.isOpen) || serial.canOpen) && !serial.resetFault && !serial.writeFault ==>
        r == Poll(timeout, elapsed, reply) && serial.waiting == Remaining(timeout, elapsed, reply) &&
        serial.written == old(serial.written) + Encode(Frame(command))
      ensures r.Ok? ==> serial.waiting == []
    {
      var sent := SendAtCommOnce(command);
      if sent.Fail? {
        return Err(sent.error);
      }
      serial.Receive(reply);
      assert serial.waiting == reply;
      r := GetResponse(timeout, elapsed);
    }
  }
}
