/** The receiving side of `Wrapper` in server/src/tcp/socket.js:
    `handleIncoming` and `interpretMsg`. They are methods of the wrapper in
    the source; here they take the wrapper as their first argument, since
    the interpreter they call sends through it. */
module Inbound {
  import opened Js
  import opened Commands
  import opened Wire
  import opened Interpreter

  const NotJsonNotice := "Not in JSON format\n"
  const UnknownNotice := "Could not interpret json message\n"

  /** `interpretMsg(msg, msg_payload)`: a message that names no command is
      answered with a plain-text notice; otherwise the command runs against
      the wrapper's current device handle. The whole message is the
      payload the handler reads its options from. */
  method InterpretMsg(w: Wrapper, devices: nat -> Device, msg: Value, payload: Value)
    returns (effect: Option<Effect>, run: RunSession?, compile: CompileSession?)
    modifies w`written, w`bbb
    ensures !(msg.Str? && msg.s in CommandNames) ==>
      && effect == None && run == null && compile == null && w.bbb == old(w.bbb)
      && w.written == old(w.written) + (if w.throwing then [] else [UnknownNotice])
    ensures msg.Str? && msg.s in CommandNames ==>
      && effect == Some(HandlerEffect(CommandOf(msg.s).value, devices(old(w.bbb)), payload))
      && w.written == old(w.written) + w.Delivered(Replies(effect.value))
      && w.bbb == (if effect.value.ResetTo? then effect.value.handle else old(w.bbb))
      && (run != null <==> effect.value.RunStarted?)
      && (compile != null <==> effect.value.CompileStarted?)
    ensures run != null ==>
      fresh(run) && fresh(run.parser) && run.Valid() && run.wrapper == w && run.chunks == [] && run.handed == []
    ensures compile != null ==>
      fresh(compile) && compile.Valid() && compile.wrapper == w && compile.errors == ""
  {
    var known := IsCommand(msg);
    if !known {
      w.Write(UnknownNotice);
      return None, null, null;
    }
    var r;
    r, run, compile := RunCommand(w.bbb, w, msg, payload, devices);
    effect := Some(r.value);
  }

  /** `handleIncoming(rawData)`, with `rawData` already through
      `JSON.parse`: `None` when it is not JSON. Text that is not JSON is
      answered with a notice; reading `msg` of a JSON `null` throws. */
  method HandleIncoming(w: Wrapper, devices: nat -> Device, parsed: Option<Value>)
    returns (thrown: Option<JsError>, effect: Option<Effect>, run: RunSession?, compile: CompileSession?)
    modifies w`written, w`bbb
    ensures parsed.None? ==>
      && thrown == None && effect == None && run == null && compile == null && w.bbb == old(w.bbb)
      && w.written == old(w.written) + (if w.throwing then [] else [NotJsonNotice])
    ensures parsed.Some? && Get(parsed.value, "msg").Err? ==>
      && thrown == Some(Get(parsed.value, "msg").error) && thrown.value.kind == TypeError
      && effect == None && run == null && compile == null
      && w.written == old(w.written) && w.bbb == old(w.bbb)
    ensures parsed.Some? && Get(parsed.value, "msg").Ok? ==>
      var msg := Get(parsed.value, "msg").value;
      && thrown == None
      && (effect.Some? <==> msg.Str? && msg.s in CommandNames)
      && (effect.None? ==> w.written == old(w.written) + (if w.throwing then [] else [UnknownNotice]))
      && (effect.Some? ==>
            && effect.value == HandlerEffect(CommandOf(msg.s).value, devices(old(w.bbb)), parsed.value)
            && w.written == old(w.written) + w.Delivered(Replies(effect.value)))
      && w.bbb == (if effect.Some? && effect.value.ResetTo? then effect.value.handle else old(w.bbb))
      && (run != null <==> effect.Some? && effect.value.RunStarted?)
      && (compile != null <==> effect.Some? && effect.value.CompileStarted?)
    ensures run != null ==>
      fresh(run) && fresh(run.parser) && run.Valid() && run.wrapper == w && run.chunks == [] && run.handed == []
    ensures compile != null ==>
      fresh(compile) && compile.Valid() && compile.wrapper == w && compile.errors == ""
  {
    match parsed
    case None =>
      w.Write(NotJsonNotice);
      return None, None, null, null;
    case Some(data) =>
      match Get(data, "msg")
      case Err(e) =>
        return Some(e), None, null, null;
      case Ok(msg) =>
        thrown := None;
        effect, run, compile := InterpretMsg(w, devices, msg, data);
  }
}
