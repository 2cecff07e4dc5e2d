/** The command interpreter of server/src/tcp/interpreter.js: it recognises
    command names and runs the handler of that name, turning a rejected
    handler into one `server_error` reply. */
module Interpreter {
  import opened Js
  import opened Lines
  import opened Commands
  import opened Wire

  /** `isCommand(msg)`: the handler names are walked in order and compared
      with `===`, so only a string can name a command. */
  method IsCommand(msg: Value) returns (found: bool)
    ensures found <==> msg.Str? && msg.s in CommandNames
  {
    var i := 0;
    while i < |CommandNames|
      invariant 0 <= i <= |CommandNames|
      invariant forall j :: 0 <= j < i ==> msg != Str(CommandNames[j])
    {
      if msg == Str(CommandNames[i]) {
        return true;
      }
      i := i + 1;
    }
    return false;
  }

  /** The error `runCommand` throws for a name that is not a command. */
  function NotSupported(cmd: Value): JsError
  {
    JsError(Error, "ERR_INVALID_ARG_VALUE: command \"" + ToStr(cmd) + "\" not supported")
  }

  /** The message of the `server_error` reply: the rejection's `type`,
      when truthy, then its `message`. */
  function ServerErrorMessage(r: Rejection): string
  {
    (if Truthy(r.errType) then ToStr(r.errType) + ": " else "") + ToStr(r.message)
  }

  /** The replies a handler's call sends at once: a rejection is reported
      as one `server_error`, `use_ssh` answers `ssh_connection`, `reset`
      answers `reset_complete`, and the others send nothing (the processes
      they start answer later, through their sessions). */
  function Replies(e: Effect): (r: seq<Reply>)
    ensures |r| <= 1
    ensures |r| == 1 <==> e.Rejected? || e.SshAnswered? || e.ResetTo?
    ensures e.Rejected? ==> r == [ErrorReplyOf("server_error", ServerErrorMessage(e.reason), e.reason.stack)]
    ensures e.SshAnswered? ==> r == [SshConnection(e.success)]
    ensures e.ResetTo? ==> r == [ResetComplete]
  {
    match e
    case Rejected(reason) => [ErrorReplyOf("server_error", ServerErrorMessage(reason), reason.stack)]
    case SshAnswered(_, success) => [SshConnection(success)]
    case ResetTo(_) => [ResetComplete]
    case _ => []
  }

  /** An error the modelled code throws has no `type`: its reply carries
      its message alone, and its stack trace. */
  lemma BuiltinErrorReply(err: JsError)
    ensures Replies(Rejected(RejectionOf(err)))
      == [ErrorReply("server_error", err.message, Some(RejectionOf(err).stack))]
  {
    var r := RejectionOf(err);
    assert ServerErrorMessage(r) == "" + err.message == err.message;
    assert |r.stack.s| >= |KindName(err.kind)| > 0;
  }

  /** A rejection with a `type` is reported as `type: message`. */
  lemma TypedErrorReply(t: string, message: string, stack: Value)
    requires t != ""
    ensures ServerErrorMessage(Rejection(Str(t), Str(message), stack)) == t + ": " + message
  {
  }

  /** `run_bin` on an idle device whose binary is missing answers exactly
      one `server_error` naming the binary's path, whatever the payload. */
  lemma MissingBinaryIsReported(d: Device, payload: Value)
    requires !d.busy && d.binExists == Ok(Bool(false))
    ensures var message := "ERR_INVALID_FILE_URL_PATH: Couldn't execute the binary. '"
        + ToStr(d.binPath) + "' does not exist.";
      Replies(HandlerEffect(RunBin, d, payload))
        == [ErrorReply("server_error", message, Some(Str("Error: " + message)))]
  {
    assert RunBinStart(d.busy, d.binExists, d.binPath, payload) == Refused(RejectionOf(MissingBinary(d.binPath)));
    assert HandlerEffect(RunBin, d, payload) == Rejected(RejectionOf(MissingBinary(d.binPath)));
    BuiltinErrorReply(MissingBinary(d.binPath));
    assert "Error" + ": " == "Error: ";
  }

  /** A handler whose promise rejects sends exactly one reply, a
      `server_error`, and starts nothing. */
  lemma RejectionReportedOnce(c: Command, d: Device, payload: Value)
    requires HandlerEffect(c, d, payload).Rejected?
    ensures var r := Replies(HandlerEffect(c, d, payload));
      |r| == 1 && r[0].ErrorReply? && r[0].errType == "server_error"
  {
  }

  /** `runCommand(bbb, socket_wrapper, cmd, msg_payload)`. A name that is
      not a command throws; otherwise the handler of that name runs against
      the answers `devices(bbb)` of the handle `bbb`, and the replies it
      sends at once are written to the wrapper. `reset` rebinds the
      wrapper's handle before answering. A handler that starts a process
      hands back the session its callbacks run in. */
  method RunCommand(bbb: nat, w: Wrapper, cmd: Value, payload: Value, devices: nat -> Device)
    returns (r: Result<Effect, JsError>, run: RunSession?, compile: CompileSession?)
    modifies w`written, w`bbb
    ensures !(cmd.Str? && cmd.s in CommandNames) ==>
      && r == Err(NotSupported(cmd))
      && w.written == old(w.written) && w.bbb == old(w.bbb)
      && run == null && compile == null
    ensures cmd.Str? && cmd.s in CommandNames ==>
      && r == Ok(HandlerEffect(CommandOf(cmd.s).value, devices(bbb), payload))
      && w.written == old(w.written) + w.Delivered(Replies(r.value))
      && w.bbb == (if r.value.ResetTo? then r.value.handle else old(w.bbb))
      && (run != null <==> r.value.RunStarted?)
      && (compile != null <==> r.value.CompileStarted?)
    ensures run != null ==>
      fresh(run) && fresh(run.parser) && run.Valid() && run.wrapper == w && run.chunks == [] && run.handed == []
    ensures compile != null ==>
      fresh(compile) && compile.Valid() && compile.wrapper == w && compile.errors == ""
  {
    run, compile := null, null;
    var known := IsCommand(cmd);
    if !known {
      return Err(NotSupported(cmd)), null, null;
    }
    var effect := HandlerEffect(CommandOf(cmd.s).value, devices(bbb), payload);
    r := Ok(effect);
    match effect
    case Rejected(reason) =>
      w.SendError("server_error", ServerErrorMessage(reason), reason.stack);
    case SshAnswered(_, success) =>
      w.SendFormatted(SshConnection(success));
    case ResetTo(handle) =>
      w.bbb := handle;
      w.SendFormatted(ResetComplete);
    case RunStarted(_, _) =>
      run := new RunSession(w);
    case CompileStarted(_) =>
      compile := new CompileSession(w);
    case _ =>
  }
}
