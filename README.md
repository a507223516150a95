# atcom: a Dafny model of the AT-command CLI

`atcom` is a command-line tool that sends one AT command to a modem over a
serial line and prints the reply. This project models its core, all of it in
`atcom/cli.py`:

- **Command framing** (`ATCom.send_at_comm_once`): the port is opened if it is
  closed, the command gets one carriage return appended, the input buffer is
  reset, and the frame is written UTF-8 encoded.
- **Response collection** (`ATCom.get_response`): a single poll. The elapsed
  time is compared with the timeout, then every chunk waiting on the port is
  drained and decoded into the response. Read and decode failures, the
  timeout and a closed port each raise their own exception.
- **Response rendering** (handler lines 195-212): the reply is split on line
  feeds, an echoed `AT...` first line is recognised, and the lines are joined
  or prefixed.
- **Configuration resolution** (handler lines 122-181): truthy options
  override the YAML file, the port is searched for automatically or is
  required, and defaults fill the remaining keys.
- **Exit-code mapping** (handler lines 214-219): a RuntimeError returns 1 and
  a TimeoutError returns 2.

Modules:

- `Wrappers` (`wrappers.dfy`): Option, Result and Outcome.
- `Values` (`values.dfy`): the Python values the model lets a config entry hold (None, booleans, integers and strings), and their truthiness.
- `Utf8` (`utf8.dfy`): strict UTF-8 encoding (`str.encode()`) and decoding (`bytes.decode('utf-8')`).
- `SerialPort` (`serial_port.dfy`): the serial port as a class.
  - Its state is an open flag, the queue of chunks waiting to be read, and the bytes written so far.
  - Three fixed flags decide whether opening succeeds, whether `reset_input_buffer()` fails and whether `write()` fails.
- `Transaction` (`transaction.dfy`): class `ATCom`, with `SendAtCommOnce`, `GetResponse` (its drain loop is in `Drain`) and `SendAtComm`.
- `Rendering` (`render.dfy`): pure functions over the response text.
- `Config` (`config.dfy`): the two `for` loops and the default assignments, written as methods over a `map<string, Value>`. `Settle` runs the override loop and the port step; `Resolve` adds the defaults.
- `Handler` (`handler.dfy`): the handler end to end, and how it ends.
  - It can return normally, return a code, exit through `Logger.error`, or let an exception escape.
  - It records the lines it prints.

Modelling choices:

- A *chunk* is what one `read(inWaiting())` returns. Each chunk is decoded on its own, as the source does. So a multi-byte character split across two reads makes the read fail (`SplitCharacterRejected`).
- `millis()` returns `int(time.time())`, i.e. whole seconds. The clock is abstracted as `elapsed: nat`, the whole seconds counted at the single poll.
- The timeout is whatever the configuration holds:
  - An integer is compared with `elapsed`.
  - A boolean is compared as 0 or 1.
  - Anything else makes the comparison raise a Python TypeError, which the handler does not catch.
- The serial line's behaviour is given to the model as inputs:
  - whether the port opens
  - whether resetting the input fails
  - whether writing fails
  - the stale input
  - the modem's reply chunks
  - the elapsed time

  The result of `decide_port()` is also an input.
- `Logger.error` prints `"[ERR]  "`, a space and the message, then exits with status 1.

Behaviour worth knowing:

- The echo test does not trim the first line.
- Quiet rendering joins the remaining lines with no separator. So `"AT+CSQ\n+CSQ: 20,99\n\nOK\n"` prints `+CSQ: 20,99OK` (`RenderQuietReply`).
- Verbose rendering prints a blank line first. It also prints `">  "` for the empty line after the final line feed. So `"AT\nOK\n"` prints `""`, `"<  AT"`, `""`, `">  OK"`, `">  "` (`RenderVerboseExample`).
- A reply without a line feed prints only its first character. An empty reply raises IndexError.
- The exit codes 1 and 2 are the handler's return values.

## Model

| member | source | states |
|---|---|---|
| Utf8.EncodeChar | atcom/cli.py:99 | a character encodes to 1-4 bytes; the first byte is ASCII exactly when the encoding is one byte long, and every later byte is a continuation byte |
| Utf8.Decode | atcom/cli.py:70 | strict decoding: whatever it accepts re-encodes to exactly the bytes given |
| Utf8.DecodeEncode | atcom/cli.py:70 | decoding the encoding of any string gives the string back |
| Utf8.DecodeIsInverse | atcom/cli.py:70 | decoding gives `s` exactly when `s` encodes to the bytes, so decoding is the inverse of encoding on its whole domain |
| Utf8.EncodeAppend | atcom/cli.py:99 | encoding distributes over concatenation |
| Utf8.EncodeAscii | atcom/cli.py:96 | an ASCII character such as the carriage return encodes to its own code as one byte |
| SerialPort.Serial.Open | atcom/cli.py:90-93 | opening succeeds exactly when the port can be opened; queue and written bytes are untouched |
| SerialPort.Serial.ResetInputBuffer | atcom/cli.py:98 | unless the reset fails, the waiting input is discarded; if it fails, nothing changes |
| SerialPort.Serial.Write | atcom/cli.py:99 | unless the write fails, the data is appended to what was written; if it fails, nothing changes |
| SerialPort.Serial.InWaiting | atcom/cli.py:68 | nothing is waiting exactly when the queue is empty |
| SerialPort.Serial.ReadWaiting | atcom/cli.py:70 | returns the bytes of the first waiting chunk, or reports the read failure, and removes it from the queue |
| Transaction.FrameAppendsOneCarriageReturn | atcom/cli.py:95-99 | the frame is the command plus exactly one more carriage return, even when the command already ends in one; its bytes are the command's bytes followed by 13 and decode back to the frame |
| Transaction.Collect | atcom/cli.py:68-72 | the chunks decode to a response exactly when every chunk is read and decoded successfully |
| Transaction.CollectIsArrivalOrder | atcom/cli.py:68-70 | a collected response encodes to all chunk bytes in arrival order, and is what decoding those bytes as one gives |
| Transaction.SplitCharacterRejected | atcom/cli.py:70 | the two bytes of "é" decode as a whole, but the same bytes arriving in two reads make the drain fail |
| Transaction.FirstFailure | atcom/cli.py:69-72 | when draining fails, the index of the chunk it fails on: that chunk fails and every earlier one succeeds |
| Transaction.LargerTimeoutKeepsResponse | atcom/cli.py:67-75 | a poll that did not time out gives the same result under any larger integer timeout |
| Transaction.ATCom.GetResponse | atcom/cli.py:57-79 | a closed port raises the closed-port RuntimeError. Otherwise there is one poll: elapsed seconds not below the timeout raise TimeoutError and read nothing; a non-number timeout raises TypeError. Within the timeout the result is the whole drained response with nothing left waiting, or the read RuntimeError, with no partial response, leaving the chunks after the failing one |
| Transaction.ATCom.Drain | atcom/cli.py:68-72 | the loop reads chunk after chunk until none is waiting and returns their decodings concatenated in order; at the first failing chunk it raises the read RuntimeError |
| Transaction.ATCom.SendAtCommOnce | atcom/cli.py:82-101 | a closed port that cannot open raises the open RuntimeError and writes nothing. Otherwise `compose` is the frame. A failing reset raises the write RuntimeError with the input still waiting. A failing write after a successful reset raises it with the input already discarded. Otherwise the input is discarded and the frame's UTF-8 bytes are appended to what was written |
| Transaction.ATCom.SendAtComm | atcom/cli.py:105-107 | open, reset and write failures propagate with the state `SendAtCommOnce` leaves. Otherwise `compose` is the frame, the frame's bytes are written, and the result is the poll of the reply the modem sends after the frame, whatever input was waiting before. The input left waiting is what that poll leaves of the reply: nothing after a successful response |
| Rendering.Split | atcom/cli.py:195 | splitting always yields at least one line |
| Rendering.SplitJoin | atcom/cli.py:195 | the split lines hold no line feed, and joining them with line feeds rebuilds the response |
| Rendering.SplitSingle | atcom/cli.py:200 | a response splits into more than one line exactly when it holds a line feed; otherwise it splits into itself |
| Rendering.SplitAtFirstLineFeed | atcom/cli.py:195 | the first line is everything before the first line feed |
| Rendering.ConcatSplit | atcom/cli.py:208-210 | joining the split lines without a separator removes every line feed and keeps every other character in order |
| Rendering.Prefixed | atcom/cli.py:205-206 | each body line is printed after `">  "`, one output line per body line, in order |
| Rendering.Render | atcom/cli.py:195-212 | the render raises IndexError exactly when the response is empty; a verbose render starts with a blank line |
| Rendering.RenderEchoQuiet | atcom/cli.py:201-208 | quietly, an echoed response prints the rest after the echo line with all line feeds removed |
| Rendering.RenderEchoVerbose | atcom/cli.py:197-206 | verbosely, an echoed response prints a blank line, the echo after `"<  "`, a blank line, then each later line after `">  "` |
| Rendering.RenderPlain | atcom/cli.py:209-210 | a multi-line response without an echo prints the whole response with all line feeds removed |
| Rendering.RenderSingleLine | atcom/cli.py:211-212 | a response without a line feed prints its first character only, and raises IndexError when empty |
| Rendering.RenderQuietReply | atcom/cli.py:207-208 | an echo, an information line, a blank line and a result code print quietly as the information line and code joined |
| Rendering.RenderVerboseExample | atcom/cli.py:197-206 | `"AT\nOK\n"` prints verbosely as `""`, `"<  AT"`, `""`, `">  OK"`, `">  "` |
| Rendering.RenderErrorExample | atcom/cli.py:211-212 | a bare `"ERROR"` reply prints as its first character |
| Config.ApplyOverrides | atcom/cli.py:144-149 | every key holds its truthy option value if it is one of port, rts_cts, dsr_dtr, timeout; otherwise it keeps the file's value, and absent keys stay absent |
| Config.SettlePort | atcom/cli.py:151-166 | with automatic search and no truthy port, the discovered port is used or the no-port error is raised. Otherwise a missing port key raises the required-property error. Success changes only the port key |
| Config.Settle | atcom/cli.py:144-166 | fails exactly when the port cannot be settled, with that message. Otherwise the port is the settled one, every other key holds its value after the overrides, and the keys are the file's plus the port and possibly the other overridden properties |
| Config.FillDefaults | atcom/cli.py:168-181 | present keys keep their values; the absent ones among timeout, baudrate, rts_cts, dsr_dtr and verbose get 3, 115200 and the option flags |
| Config.Resolve | atcom/cli.py:122-181 | fails exactly when the port cannot be settled, with that message. Otherwise the result has the file's keys plus the six resolved ones. It holds the settled port, the overridden or default timeout and flags, and the file's baudrate or 115200, never the baudrate option. Every other key keeps the file's value |
| Handler.Report | atcom/cli.py:193-219 | a RuntimeError returns 1 and a TimeoutError returns 2, both printing the message. A response is rendered, and an empty one raises IndexError. A non-number timeout lets TypeError escape |
| Handler.QuietReplyReport | atcom/cli.py:207-208 | a quiet run on an echoed reply ends normally, printing the information line and result code joined |
| Handler.Handle | atcom/cli.py:120-219 | how the handler ends. A port that cannot be settled exits with status 1 after the logged error. A `None` port returns 1 with the open error. A port that does not connect exits 1. A reset or write fault returns 1. Otherwise the report of the reply polled with the resolved timeout, rendered under the `verbose` option |

## Left out

- The pyserial constructor's parity, stop-bit and byte-size settings, the baudrate and the flow-control flags (lines 44-54) have no effect on the model. Whether `serial.Serial` opens is an input. A port that is neither `None` nor a string raises ValueError, as pyserial's port setter does.
- Handler.Handle: an invalid baudrate from the YAML file (such as `fast` or `-1`) makes pyserial raise ValueError, which escapes the handler. This is not modelled: such a baudrate is treated like a valid one.
- `time.time()` and `time.sleep` (lines 25-36) are replaced by the whole seconds elapsed at the poll, a `nat`. A wall clock that steps back during `delay(100)` is not modelled: `int(time.time())` (lines 29 and 67) can then make `millis() - timer` negative, and under a truthy negative timeout such as `-t -1` the code drains where the model times out.
- Option parsing by click, reading the YAML file and `yaml.load` (lines 110-134) are left out. The file's content is a given map, empty when the file is missing. A YAML document that is not a mapping is not modelled. Nor are YAML values other than None, booleans, integers and strings (floats, lists, mappings, dates), under any key, or keys that are not strings. So a falsy `port: []` or `port: 0.0` is not modelled: with `--auto` it would start the port search, and without it pyserial would raise ValueError.
- `decide_port` (line 155) lives in `atcom/utils.py`, which is not part of this model. Its result is an input.
- The `Logger.info` lines are not recorded among the printed lines.
- Click discards the handler's return value, so the process exit status on a RuntimeError or TimeoutError is not modelled; only the returned code is.
- `inWaiting()` failing is not modelled; only `read` and decoding can fail while draining.
- Transaction.ATCom.GetResponse: the `while True` loop is not written as a loop, because every path through its body returns or raises on the first pass.
- Commands holding lone surrogate code points (which `str.encode()` rejects) cannot be expressed: a Dafny string holds Unicode scalar values only.
- The `cli_handler` entry point on line 223 names a function the file does not define; only `handler` is modelled.
