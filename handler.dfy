/**
 * The command-line handler end to end: resolve the configuration, connect,
 * send the command, render the reply and map the error raised, if any, to
 * the handler's return code. Only the lines the handler prints with `print`
 * and `Logger.error` are recorded; the `Logger.info` lines are not.
 */
module Handler {
  import opened Wrappers
  import opened Values
  import opened SerialPort
  import opened Transaction
  import opened Rendering
  import opened Config

  /** How one run of the handler ends, with what it printed. */
  datatype Ending =
    | Finished(printed: seq<string>)               // returns None
    | Returned(code: int, printed: seq<string>)    // returns an int
    | Exited(status: int, printed: seq<string>)    // sys.exit(status) via Logger.error
    | Raised(exception: string, printed: seq<string>)  // an exception escapes the handler

  const CouldNotConnect := "Couldn't open serial communication"

  /** `Logger.error(text)` prints "[ERR]  " and the text, separated by one space, then exits with status 1. */
  function LoggedError(text: string): Ending {
    Exited(1, ["[ERR]   " + text])
  }

  /**
   * Lines 193-219: what the handler does with the result of `send_at_comm`.
   * A response is rendered; a RuntimeError prints its message and returns 1,
   * a TimeoutError returns 2; any other exception escapes.
   */
  function Report(r: Result<string, Error>, verbose: bool): (e: Ending)
    ensures e.Returned? <==> r.Err? && !r.error.TypeError?
    ensures e.Returned? ==> e.printed == [r.error.message]
    ensures e.Returned? && e.code == 1 <==> r.Err? && r.error.RuntimeError?
    ensures e.Returned? && e.code == 2 <==> r.Err? && r.error.TimeoutError?
    ensures e.Finished? <==> r.Ok? && r.value != ""
    ensures e.Raised? && e.exception == "IndexError" <==> r == Ok("")
    ensures r.Ok? ==> e.printed == Render(r.value, verbose).printed
    ensures r == Err(TypeError) ==> e == Raised("TypeError", [])
  {
    match r
    case Ok(response) =>
      var rendered := Render(response, verbose);
      if rendered.indexError then Raised("IndexError", rendered.printed) else Finished(rendered.printed)
    case Err(RuntimeError(message)) => Returned(1, [message])
    case Err(TimeoutError(message)) => Returned(2, [message])
    case Err(TypeError) => Raised("TypeError", [])
  }

  /**
   * A quiet run whose modem echoes the command and answers with an
   * information line, a blank line and a result code prints the two joined.
   */
  lemma QuietReplyReport(echo: string, info: string, code: string)
    requires '\n' !in echo && StartsWith(echo, "AT") && '\n' !in info && '\n' !in code
    ensures Report(Ok(echo + "\n" + info + "\n\n" + code + "\n"), false) == Finished([info + code])
  {
    RenderQuietReply(echo, info, code);
  }

  /**
   * The serial line as the handler meets it: whether `serial.Serial` opens
   * the port, whether resetting its input or writing to it fails, the input
   * already waiting when it opens, what the modem sends after the command,
   * and the whole seconds `get_response` finds elapsed at its first poll.
   */
  datatype Modem = Modem(connects: bool, resetFault: bool, writeFault: bool, stale: seq<Chunk>, reply: seq<Chunk>, elapsed: nat)

  /**
   * `handler(...)`. `file` is the YAML configuration (empty when the file
   * does not exist) and `discovered` what `decide_port()` returns.
   */
  method Handle(args: CliArgs, file: map<string, Value>, discovered: Value, modem: Modem) returns (e: Ending)
    ensures ResolvePort(args, file, discovered).Err? ==> e == LoggedError(ResolvePort(args, file, discovered).error)
    ensures ResolvePort(args, file, discovered) == Ok(NoneValue) ==> e == Returned(1, [OpenFailed])
    ensures ResolvePort(args, file, discovered).Ok? && ResolvePort(args, file, discovered).value.Str? ==>
      e == if !modem.connects then LoggedError(CouldNotConnect)
           else if modem.resetFault || modem.writeFault then Returned(1, [WriteFailed])
           else Report(Poll(Overridden(args, file, "timeout").GetOr(Int(3)), modem.elapsed, modem.reply), args.verbose)
    ensures ResolvePort(args, file, discovered).Ok? ==>
      (!ResolvePort(args, file, discovered).value.NoneValue? && !ResolvePort(args, file, discovered).value.Str? ==>
         e == Raised("ValueError", []))
  {
    var resolved := Resolve(args, file, discovered);
    if resolved.Err? {
      return LoggedError(resolved.error);
    }
    var configs := resolved.value;
    var serial: Serial;
    match configs["port"] {
      case NoneValue =>
        // an unconfigured port is created closed, and opening it fails
        serial := new Serial(false, false, modem.resetFault, modem.writeFault, []);
      case Str(_) =>
        if !modem.connects {
          return LoggedError(CouldNotConnect);
        }
        serial := new Serial(true, true, modem.resetFault, modem.writeFault, modem.stale);
      case _ =>
        // the port setter accepts only None or a string
        return Raised("ValueError", []);
    }
    var at := new ATCom(serial);
    var r := at.SendAtComm(args.atCommand, configs["timeout"], modem.reply, modem.elapsed);
    e := Report(r, args.verbose);
  }
}
