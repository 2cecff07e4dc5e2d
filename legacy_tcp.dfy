/** The older, broadcast-based server of server/src/tcp.js: one module-wide
    registry of sockets and one `Bbb` device; every reply goes to every
    connected socket. Socket writes are recorded as (socket, text) pairs in
    the order they happen; replies are encoded by an encoder given as a
    parameter. */
module LegacyTcp {
  import opened Js
  import opened Lines
  import opened LogLine
  import opened Parser
  import opened Registry
  import opened Device

  /** The legacy replies: `error`, `console_data` and `completed`. */
  datatype Message =
    | ErrorMessage(payload: string)
    | ConsoleData(records: seq<Record>)
    | Completed(task: string)

  /** What `handleRequest(msg, data)` does. */
  datatype Request =
    | RunBinRequest(flags: Value, level: Value)
    | KillRequest
    | CompileRequest(makeParams: Value)
    | NoAction

  /** `handleRequest(msg, data)`: a `switch` on `msg` (strict equality),
      applying `||` defaults; any other message does nothing. */
  function RequestOf(msg: Value, data: Value): (r: Result<Request, JsError>)
    ensures !(msg in {Str("run_bin"), Str("kill_running_bin"), Str("compile_bin")}) ==> r == Ok(NoAction)
    ensures msg == Str("kill_running_bin") ==> r == Ok(KillRequest)
    ensures r.Err? <==> (msg == Str("run_bin") || msg == Str("compile_bin")) && (data.Undefined? || data.Null?)
    ensures r.Ok? && r.value.RunBinRequest? ==>
      && msg == Str("run_bin")
      && r.value.flags == Or(Get(data, "flags").value, Arr([]))
      && r.value.level == Or(Get(data, "debug_level").value, Num(3))
    ensures r.Ok? && r.value.CompileRequest? ==>
      msg == Str("compile_bin") && r.value.makeParams == Or(Get(data, "make_params").value, Arr([]))
  {
    if msg == Str("run_bin") then
      match Get(data, "flags")
      case Err(e) => Err(e)
      case Ok(flags) => Ok(RunBinRequest(Or(flags, Arr([])), Or(Get(data, "debug_level").value, Num(3))))
    else if msg == Str("kill_running_bin") then Ok(KillRequest)
    else if msg == Str("compile_bin") then
      match Get(data, "make_params")
      case Err(e) => Err(e)
      case Ok(params) => Ok(CompileRequest(Or(params, Arr([]))))
    else Ok(NoAction)
  }

  /** `tcpHandleData(dataRaw)`, with `dataRaw` already through
      `JSON.parse` (`None` when it is not JSON). */
  function HandleData(parsed: Option<Value>): (r: Result<Request, JsError>)
  {
    match parsed
    case None => Ok(NoAction)
    case Some(data) =>
      match Get(data, "msg")
      case Err(e) => Err(e)
      case Ok(msg) => RequestOf(msg, data)
  }

  /** Text that is not JSON is dropped without a word; a JSON value other
      than null is dispatched on its `msg`, and the only failure is reading
      `msg` of null. */
  lemma HandleDataMeaning(parsed: Option<Value>)
    ensures parsed.None? ==> HandleData(parsed) == Ok(NoAction)
    ensures HandleData(parsed).Err? <==> parsed.Some? && (parsed.value.Undefined? || parsed.value.Null?)
    ensures parsed.Some? && !parsed.value.Undefined? && !parsed.value.Null? ==>
      HandleData(parsed) == RequestOf(Get(parsed.value, "msg").value, parsed.value)
  {
  }

  /** `run_bin` with a falsy level, 0 included, runs at level 3, and
      without flags runs with none. */
  lemma RunBinDefaults(level: Value)
    requires !Truthy(level)
    ensures RequestOf(Str("run_bin"), Obj(map["msg" := Str("run_bin"), "debug_level" := level]))
      == Ok(RunBinRequest(Arr([]), Num(3)))
  {
    var m := map["msg" := Str("run_bin"), "debug_level" := level];
    assert Field(m, "flags") == Undefined;
    assert Field(m, "debug_level") == level;
  }

  /** The writes one broadcast of `line` makes: one per registered
      socket, in registry order. */
  function Broadcasts(socks: seq<Sock>, line: string): (r: seq<(Sock, string)>)
    ensures |r| == |socks|
    ensures forall k :: 0 <= k < |r| ==> r[k] == (socks[k], line)
  {
    seq(|socks|, k requires 0 <= k < |socks| => (socks[k], line))
  }

  const MissingBinary := "Couldn't execute the binary. './hyped' does not exist."

  /** The module's state: the socket registry, the device and every write
      made to a socket. */
  class Hub {
    const sockets: List
    const execBin: Bbb
    const stringify: Message -> string
    var writes: seq<(Sock, string)>

    constructor (sockets: List, execBin: Bbb, stringify: Message -> string)
      ensures this.sockets == sockets && this.execBin == execBin && this.stringify == stringify
      ensures writes == []
    {
      this.sockets := sockets;
      this.execBin := execBin;
      this.stringify := stringify;
      writes := [];
    }

    /** `broadcast(data)`: `data` and a newline to every registered
        socket, in registry order. */
    method Broadcast(data: string)
      modifies this`writes
      ensures writes == old(writes) + Broadcasts(sockets.socks, data + "\n")
    {
      var socks := sockets.All();
      var i := 0;
      while i < |socks|
        invariant 0 <= i <= |socks|
        invariant writes == old(writes) + Broadcasts(socks[..i], data + "\n")
      {
        writes := writes + [(socks[i], data + "\n")];
        assert Broadcasts(socks[..i + 1], data + "\n") == Broadcasts(socks[..i], data + "\n") + [(socks[i], data + "\n")];
        i := i + 1;
      }
      assert socks[..i] == socks;
    }

    /** `broadcastError(err)` */
    method BroadcastError(err: string)
      modifies this`writes
      ensures writes == old(writes) + Broadcasts(sockets.socks, stringify(ErrorMessage(err)) + "\n")
    {
      Broadcast(stringify(ErrorMessage(err)));
    }

    /** `broadcastData(payload)` */
    method BroadcastData(records: seq<Record>)
      modifies this`writes
      ensures writes == old(writes) + Broadcasts(sockets.socks, stringify(ConsoleData(records)) + "\n")
    {
      Broadcast(stringify(ConsoleData(records)));
    }

    /** `broadcastCompleted(cmd)` */
    method BroadcastCompleted(task: string)
      modifies this`writes
      ensures writes == old(writes) + Broadcasts(sockets.socks, stringify(Completed(task)) + "\n")
    {
      Broadcast(stringify(Completed(task)));
    }

    /** `run_bin(payload)` over the file system `files`, the binary's
        process named `id`: a busy device does nothing; a missing binary is
        reported to everyone and nothing runs; otherwise a session is set
        up and the device runs the binary, whose outcome `run` is. */
    method RunBin(flags: Value, level: Value, files: set<string>, id: nat)
      returns (session: LegacyRun?, run: Option<Result<Value, JsError>>)
      modifies this`writes, execBin`child, execBin`connected, execBin`launches
      ensures execBin.IsBusy() ==>
        && session == null && run == None && writes == old(writes)
        && execBin.launches == old(execBin.launches) && execBin.child == old(execBin.child)
      ensures !execBin.IsBusy() && !execBin.DoesCompiledBinExist(files) ==>
        && session == null && run == None
        && writes == old(writes) + Broadcasts(sockets.socks, stringify(ErrorMessage(MissingBinary)) + "\n")
        && execBin.launches == old(execBin.launches)
      ensures !execBin.IsBusy() && execBin.DoesCompiledBinExist(files) ==>
        && session != null && fresh(session) && fresh(session.parser)
        && session.hub == this && session.parser.queue == Text("")
        && writes == old(writes)
        && (flags.Arr? ==>
              && run == Some(Ok(Undefined)) && execBin.child == Some(id) && execBin.connected == Bool(true)
              && execBin.launches == old(execBin.launches) + [Launch(id, "./hyped", flags.items + [Str(DebugFlag(level))])])
        && (!flags.Arr? ==>
              && run.Some? && run.value.Err? && run.value.error.kind == TypeError
              && execBin.launches == old(execBin.launches) && execBin.child == old(execBin.child))
    {
      if execBin.IsBusy() {
        return null, None;
      }
      if !execBin.DoesCompiledBinExist(files) {
        BroadcastError(MissingBinary);
        return null, None;
      }
      session := new LegacyRun(this);
      var r := execBin.Run(flags, level, files, id);
      run := Some(r);
    }

    /** `compile_bin(make_params)`: a busy device does nothing; otherwise
        a session for its events is set up and `make` is started, with the
        parameters as its arguments when they are a list; parameters that
        `spawn` refuses make the handler throw, and nothing starts. */
    method CompileBin(makeParams: Value, id: nat) returns (session: LegacyCompile?, thrown: Option<JsError>)
      modifies execBin`launches
      ensures execBin.IsBusy() ==>
        session == null && thrown == None && execBin.launches == old(execBin.launches)
      ensures !execBin.IsBusy() ==> session != null && fresh(session) && session.hub == this
      ensures !execBin.IsBusy() && makeParams.Arr? ==>
        thrown == None && execBin.launches == old(execBin.launches) + [Launch(id, MakeCommand, makeParams.items)]
      ensures !execBin.IsBusy() && (makeParams.Bool? || makeParams.Num? || makeParams.Str?) ==>
        thrown.Some? && thrown.value.kind == TypeError && execBin.launches == old(execBin.launches)
    {
      if execBin.IsBusy() {
        return null, None;
      }
      session := new LegacyCompile(this);
      thrown := execBin.Compile(makeParams, id);
    }
  }

  /** The closures of one legacy `run_bin`. */
  class LegacyRun {
    const parser: ExecParser
    const hub: Hub

    constructor (hub: Hub)
      ensures this.hub == hub && fresh(parser) && parser.queue == Text("")
    {
      this.hub := hub;
      parser := new ExecParser();
    }

    /** `outputHandler(data)`: as in the newer server, only complete lines
        are parsed, once `countLines() > 1`; the records go to everyone.
        The chunk is queued before the lines are counted, so output after
        the exit handler turns the `[]` it left back into text. */
    method OnOutput(data: string) returns (thrown: Option<JsError>)
      modifies parser, hub`writes
      ensures var t := QueueString(old(parser.queue)) + data;
        if CountNewlines(t) == 0 then
          thrown == None && hub.writes == old(hub.writes) && parser.queue == Text(t)
        else
          && parser.queue == Text(CutLines(t).1)
          && match ParseLines(CutLines(t).0)
             case Err(e) => thrown == Some(e) && hub.writes == old(hub.writes)
             case Ok(recs) =>
               && thrown == None
               && hub.writes == old(hub.writes)
                 + Broadcasts(hub.sockets.socks, hub.stringify(ConsoleData(recs)) + "\n")
    {
      parser.AddToQueue(data);
      var count := parser.CountLines();
      if count.value <= 1 {
        return None;
      }
      var parsed := parser.Parse();
      match parsed
      case Err(e) =>
        thrown := Some(e);
      case Ok(recs) =>
        hub.BroadcastData(recs);
        thrown := None;
    }

    /** `exitHandler()`: unlike the newer server there is no empty-queue
        check, so the rest of the queue, even when empty, is parsed; the
        records and `completed` go to everyone. */
    method OnExit() returns (thrown: Option<JsError>)
      modifies parser, hub`writes
      ensures old(parser.queue).EmptyArray? ==> thrown == Some(NotAFunction()) && hub.writes == old(hub.writes)
      ensures old(parser.queue).Text? ==>
        && parser.queue == EmptyArray
        && match ParseLines(Split(old(parser.queue).s))
           case Err(e) => thrown == Some(e) && hub.writes == old(hub.writes)
           case Ok(recs) =>
             && thrown == None
             && hub.writes == old(hub.writes)
               + Broadcasts(hub.sockets.socks, hub.stringify(ConsoleData(recs)) + "\n")
               + Broadcasts(hub.sockets.socks, hub.stringify(Completed("run_bin")) + "\n")
    {
      var parsed := parser.ParseRest();
      match parsed
      case Err(e) =>
        thrown := Some(e);
      case Ok(recs) =>
        hub.BroadcastData(recs);
        hub.BroadcastCompleted("run_bin");
        thrown := None;
    }

    /** `errorHandler(errCode)`: it reports `err`, a name bound nowhere, so
        every stderr chunk of the binary throws instead of being
        reported. */
    method OnError(errCode: string) returns (thrown: Option<JsError>)
      ensures thrown == Some(JsError(ReferenceError, "err is not defined"))
    {
      thrown := Some(JsError(ReferenceError, "err is not defined"));
    }
  }

  /** The closures of one legacy `compile_bin`. */
  class LegacyCompile {
    const hub: Hub

    constructor (hub: Hub)
      ensures this.hub == hub
    {
      this.hub := hub;
    }

    /** `errorHandler(err)`: each stderr chunk is reported to everyone. */
    method OnError(err: string)
      modifies hub`writes
      ensures hub.writes == old(hub.writes) + Broadcasts(hub.sockets.socks, hub.stringify(ErrorMessage(err)) + "\n")
    {
      hub.BroadcastError(err);
    }

    /** `exitHandler()`: it reads `parseQueue`, which is local to `run_bin`,
        so the compile's exit throws and `completed` is never sent. */
    method OnExit() returns (thrown: Option<JsError>)
      ensures thrown == Some(JsError(ReferenceError, "parseQueue is not defined"))
    {
      thrown := Some(JsError(ReferenceError, "parseQueue is not defined"));
    }
  }

  /** An exit with nothing queued still parses the empty rest, which
      matches no log line: the handler throws and `completed` is never
      broadcast. */
  lemma EmptyExitThrows()
    ensures ParseLines(Split("")).Err?
  {
    assert Split("") == [""];
    ParseLinesSingle("");
    EmptyLineThrows();
  }
}
