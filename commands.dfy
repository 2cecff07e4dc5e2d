/** The command handlers of server/src/commands.js.

    The handlers talk to a device object (`isBusy`, `doesCompiledBinExist`,
    `bin_path`, `runBin`, `compileBin`, `binLastModified`, `useSSH`,
    `reset`, `kill`) whose class is not part of this model; its answers are
    inputs here. The processes the handlers start report back through
    callbacks, modelled as the methods of `RunSession` and
    `CompileSession`, called in the order the events arrive. */
module Commands {
  import opened Js
  import opened Lines
  import opened LogLine
  import opened Parser
  import opened Wire

  /** The exported handlers, by name. */
  datatype Command = RunBin | CompileBin | KillRunningBin | UseSsh | Reset

  /** `module.exports`, in order: the names a message may carry. */
  const CommandNames: seq<string> := ["run_bin", "compile_bin", "kill_running_bin", "use_ssh", "reset"]

  function Name(c: Command): string
  {
    match c
    case RunBin => "run_bin"
    case CompileBin => "compile_bin"
    case KillRunningBin => "kill_running_bin"
    case UseSsh => "use_ssh"
    case Reset => "reset"
  }

  /** `commandFunctions[name]`, when there is such a handler. */
  function CommandOf(name: string): (r: Option<Command>)
    ensures r.Some? <==> name in CommandNames
  {
    if name == "run_bin" then Some(RunBin)
    else if name == "compile_bin" then Some(CompileBin)
    else if name == "kill_running_bin" then Some(KillRunningBin)
    else if name == "use_ssh" then Some(UseSsh)
    else if name == "reset" then Some(Reset)
    else None
  }

  /** Names and handlers correspond one to one. */
  lemma NamesRoundTrip(c: Command, name: string)
    ensures CommandOf(Name(c)) == Some(c)
    ensures CommandOf(name).Some? ==> Name(CommandOf(name).value) == name
    ensures Name(c) in CommandNames
  {
  }

  // ---------------------------------------------------------------- run_bin

  /** What `run_bin` does before the process starts. */
  datatype RunStart =
    | Busy                                // the device is busy: nothing happens
    | Refused(reason: Rejection)          // the returned promise rejects
    | Start(flags: Value, level: Value)   // `runBin` is called with these

  function MissingBinary(binPath: Value): JsError
  {
    JsError(Error, "ERR_INVALID_FILE_URL_PATH: Couldn't execute the binary. '" + ToStr(binPath)
      + "' does not exist.")
  }

  /** `run_bin(bbb, socket_wrapper, msg_payload)` up to the call of `runBin`.
      `binExists` is the settled `doesCompiledBinExist()` promise; it is
      consulted only when the device is not busy. Missing or falsy `flags`
      become [] and a missing or falsy `debug_level`, 0 included, becomes 3. */
  function RunBinStart(busy: bool, binExists: Result<Value, Rejection>, binPath: Value, payload: Value): (r: RunStart)
    ensures busy <==> r.Busy?
    ensures r.Refused? <==> !busy && (binExists.Err? || !Truthy(binExists.value)
                                      || payload.Undefined? || payload.Null?)
    ensures !busy && binExists.Err? ==> r == Refused(binExists.error)
    ensures !busy && binExists.Ok? && !Truthy(binExists.value) ==> r == Refused(RejectionOf(MissingBinary(binPath)))
    ensures r.Start? ==> Truthy(r.flags) || r.flags == Arr([])
    ensures r.Start? ==> Truthy(r.level) || r.level == Num(3)
  {
    if busy then Busy
    else match binExists
      case Err(e) => Refused(e)
      case Ok(found) =>
        if !Truthy(found) then Refused(RejectionOf(MissingBinary(binPath)))
        else match Get(payload, "flags")
          case Err(e) => Refused(RejectionOf(e))
          case Ok(flags) =>
            match Get(payload, "debug_level")
            case Err(e) => Refused(RejectionOf(e))
            case Ok(level) => Start(Or(flags, Arr([])), Or(level, Num(3)))
  }

  /** The defaults of `run_bin` read the payload with `||`: a given, truthy
      value is passed on unchanged, and every falsy one is replaced. */
  lemma RunBinDefaults(fields: map<string, Value>)
    ensures var r := RunBinStart(false, Ok(Bool(true)), Undefined, Obj(fields));
      && r.Start?
      && (Truthy(Field(fields, "flags")) ==> r.flags == Field(fields, "flags"))
      && (!Truthy(Field(fields, "flags")) ==> r.flags == Arr([]))
      && (Truthy(Field(fields, "debug_level")) ==> r.level == Field(fields, "debug_level"))
      && (!Truthy(Field(fields, "debug_level")) ==> r.level == Num(3))
  {
  }

  /** An explicit level 0 is not honoured: it runs at level 3. */
  lemma RunBinLevelZero()
    ensures RunBinStart(false, Ok(Bool(true)), Undefined, Obj(map["debug_level" := Num(0)]))
      == Start(Arr([]), Num(3))
  {
    assert Field(map["debug_level" := Num(0)], "flags") == Undefined;
  }

  /** The closures `run_bin` registers, over the parser it creates and the
      client's wrapper. The text handed to `parse()` so far is recorded in
      `handed`, the output received in `chunks`. */
  class RunSession {
    const parser: ExecParser
    const wrapper: Wrapper
    ghost var chunks: seq<string>
    ghost var handed: seq<string>

    /** Nothing is lost: the output so far is the lines handed to `parse()`,
        each with its newline, followed by the queue, which holds no
        newline. */
    ghost predicate Valid()
      reads this, parser
    {
      && parser.queue.Text?
      && Concat(chunks) == Lines.Terminated(handed) + parser.queue.s
      && AllNoNewline(handed) && NoNewline(parser.queue.s)
    }

    constructor (wrapper: Wrapper)
      ensures Valid() && fresh(parser)
      ensures this.wrapper == wrapper && chunks == [] && handed == []
    {
      parser := new ExecParser();
      this.wrapper := wrapper;
      chunks := [];
      handed := [];
    }

    /** `outputHandler(data)`, for stdout and stderr alike: the chunk is
        queued, and when the queue holds a newline its complete lines are
        parsed and sent as one `console_data` reply. A line that does not
        parse makes the handler throw, and nothing is sent. */
    method OnOutput(data: string) returns (thrown: Option<JsError>)
      requires Valid()
      modifies this, parser, wrapper`written
      ensures Valid() && chunks == old(chunks) + [data]
      ensures var t := old(parser.queue.s) + data;
        if CountNewlines(t) == 0 then
          handed == old(handed) && thrown == None && wrapper.written == old(wrapper.written)
        else
          var lines := CutLines(t).0;
          && handed == old(handed) + lines
          && match ParseLines(lines)
             case Err(e) => thrown == Some(e) && wrapper.written == old(wrapper.written)
             case Ok(recs) =>
               && thrown == None
               && wrapper.written == old(wrapper.written) + wrapper.Delivered([ConsoleData(recs)])
    {
      OutputKeepsEverything(chunks, handed, parser.queue.s, data);
      parser.AddToQueue(data);
      chunks := chunks + [data];
      var count := parser.CountLines();
      if count.value <= 1 {
        return None;
      }
      ghost var t := parser.queue.s;
      var parsed := parser.Parse();
      handed := handed + CutLines(t).0;
      match parsed
      case Err(e) =>
        thrown := Some(e);
      case Ok(recs) =>
        wrapper.SendData(recs);
        thrown := None;
    }

    /** `exitHandler()`: an empty queue sends nothing at all, not even
        `terminated`; otherwise the rest of the queue is parsed and sent,
        followed by `terminated('run_bin', true)`. While `Valid()` holds the
        queue has no newline, so that is its one line's record
        (`ParseRestOfOneLine`). A second exit finds the queue replaced by
        `[]`, which is not `''`, and `parseRest` throws. */
    method OnExit() returns (thrown: Option<JsError>)
      modifies parser, wrapper`written
      ensures old(parser.queue) == Text("") ==>
        thrown == None && wrapper.written == old(wrapper.written) && parser.queue == old(parser.queue)
      ensures old(parser.queue).EmptyArray? ==>
        thrown == Some(NotAFunction()) && wrapper.written == old(wrapper.written) && parser.queue == EmptyArray
      ensures old(parser.queue).Text? && old(parser.queue.s) != "" ==>
        && parser.queue == EmptyArray
        && match ParseLines(Split(old(parser.queue.s)))
           case Err(e) => thrown == Some(e) && wrapper.written == old(wrapper.written)
           case Ok(recs) =>
             && thrown == None
             && wrapper.written == old(wrapper.written)
               + wrapper.Delivered([ConsoleData(recs)])
               + wrapper.Delivered([TerminatedOf("run_bin", Bool(true), Undefined)])
    {
      if parser.queue == Text("") {
        return None;
      }
      var parsed := parser.ParseRest();
      if parsed.Err? {
        return Some(parsed.error);
      }
      var recs := parsed.value;
      wrapper.SendData(recs);
      wrapper.SendTerminated("run_bin", Bool(true), Undefined);
      thrown := None;
    }
  }

  /** One output chunk keeps the session's account of its output: queued
      when it completes no line, otherwise cut into the lines handed to
      `parse()` and the new queue. */
  lemma OutputKeepsEverything(chunks: seq<string>, handed: seq<string>, q: string, data: string)
    requires Concat(chunks) == Lines.Terminated(handed) + q
    requires AllNoNewline(handed) && NoNewline(q)
    ensures var t := q + data;
      if CountNewlines(t) == 0 then
        Concat(chunks + [data]) == Lines.Terminated(handed) + t && NoNewline(t)
      else
        var (lines, rest) := CutLines(t);
        && Concat(chunks + [data]) == Lines.Terminated(handed + lines) + rest
        && AllNoNewline(handed + lines) && NoNewline(rest)
  {
    var t := q + data;
    assert Concat(chunks + [data]) == Lines.Terminated(handed) + t by {
      ConcatSnoc(chunks, data);
    }
    if CountNewlines(t) == 0 {
      NoNewlineOfCount(t);
    } else {
      var lines, rest := CutLines(t).0, CutLines(t).1;
      assert t == Lines.Terminated(lines) + rest && AllNoNewline(lines) && NoNewline(rest) by {
        CutLinesLosesNothing(t);
      }
      assert Lines.Terminated(handed) + (Lines.Terminated(lines) + rest) == Lines.Terminated(handed + lines) + rest by {
        TerminatedAppend(handed, lines);
      }
      forall k | 0 <= k < |handed + lines|
        ensures NoNewline((handed + lines)[k])
      {
        if k < |handed| {
          assert (handed + lines)[k] == handed[k];
        } else {
          assert (handed + lines)[k] == lines[k - |handed|];
        }
      }
    }
  }

  /** Whatever the chunking, a run session has handed to `parse()` exactly
      the complete lines of all output so far, and queues its unterminated
      tail. */
  lemma SessionIsChunkIndependent(chunks: seq<string>, handed: seq<string>, queue: string)
    requires Concat(chunks) == Lines.Terminated(handed) + queue
    requires AllNoNewline(handed) && NoNewline(queue)
    ensures CutLines(Concat(chunks)) == (handed, queue)
    ensures Feed("", chunks) == (handed, queue)
  {
    SplitOfTerminated(handed, queue);
    assert AllButLast(handed + [queue]) == handed;
    FeedIndependentOfChunks("", chunks);
    assert "" + Concat(chunks) == Concat(chunks);
  }

  // ------------------------------------------------------------ compile_bin

  /** The compile succeeded: the binary exists and was modified at most one
      second (1000 ms) before the exit was handled. A failing
      `binLastModified` makes the exit handler reject: no verdict. */
  function CompileVerdict(binExists: bool, lastModified: Result<int, JsError>, now: int): (r: Result<bool, JsError>)
    ensures r == Ok(true) <==> binExists && lastModified.Ok? && now - lastModified.value <= 1000
    ensures r.Err? <==> binExists && lastModified.Err?
  {
    if !binExists then Ok(false)
    else match lastModified
      case Err(e) => Err(e)
      case Ok(t) => Ok(now - t <= 1000)
  }

  /** The verdict as written: `bbb.doesCompiledBinExist()` is not awaited,
      and a promise is always truthy, so the existence check always passes
      and the modification time is always looked up. */
  function CompileVerdictAsWritten(binExists: bool, lastModified: Result<int, JsError>, now: int): (r: Result<bool, JsError>)
    ensures r == Ok(true) <==> lastModified.Ok? && now - lastModified.value <= 1000
    ensures r.Err? <==> lastModified.Err?
  {
    match lastModified
    case Err(e) => Err(e)
    case Ok(t) => Ok(now - t <= 1000)
  }

  /** When the binary is missing and looking up its modification time
      rejects, as an SSH stat of a missing file does, the exit handler as
      written rejects and no `terminated` reply is ever sent, where the
      awaited check reports an unsuccessful compile. */
  lemma CompileVerdictMissingBinary(e: JsError, now: int)
    ensures CompileVerdictAsWritten(false, Err(e), now) == Err(e)
    ensures CompileVerdict(false, Err(e), now) == Ok(false)
  {
  }

  /** The local shell answers `null` for a missing file, which `-` reads
      as 0: then, at any time later than one second after the epoch, both
      verdicts report an unsuccessful compile. */
  lemma CompileVerdictMissingBinaryLocal(now: int)
    requires now > 1000
    ensures CompileVerdictAsWritten(false, Ok(0), now) == Ok(false)
    ensures CompileVerdict(false, Ok(0), now) == Ok(false)
  {
  }

  /** With the binary present, both verdicts agree. */
  lemma CompileVerdictsAgree(lastModified: Result<int, JsError>, now: int)
    ensures CompileVerdictAsWritten(true, lastModified, now) == CompileVerdict(true, lastModified, now)
  {
  }

  /** The closures `compile_bin` registers: stderr chunks are collected in
      `errors` (`error_collection`), stdout is ignored. */
  class CompileSession {
    var errors: string
    const wrapper: Wrapper
    ghost var stderr: seq<string>

    ghost predicate Valid()
      reads this
    {
      errors == Concat(stderr)
    }

    constructor (wrapper: Wrapper)
      ensures Valid() && this.wrapper == wrapper && errors == "" && stderr == []
    {
      this.wrapper := wrapper;
      errors := "";
      stderr := [];
    }

    /** `errorHandler(err)`: the chunk is appended to what was collected. */
    method OnStderr(chunk: string)
      requires Valid()
      modifies this
      ensures Valid() && stderr == old(stderr) + [chunk]
      ensures errors == old(errors) + chunk
    {
      ConcatSnoc(stderr, chunk);
      errors := errors + chunk;
      stderr := stderr + [chunk];
    }

    /** `exitHandler()` with the existence check awaited: one `terminated`
        reply carrying the verdict and everything collected from stderr, in
        arrival order. */
    method OnExit(binExists: bool, lastModified: Result<int, JsError>, now: int) returns (thrown: Option<JsError>)
      requires Valid()
      modifies wrapper`written
      ensures match CompileVerdict(binExists, lastModified, now)
        case Err(e) => thrown == Some(e) && wrapper.written == old(wrapper.written)
        case Ok(ok) =>
          && thrown == None
          && wrapper.written == old(wrapper.written)
            + wrapper.Delivered([TerminatedOf("compile_bin", Bool(ok), Str(Concat(stderr)))])
    {
      match CompileVerdict(binExists, lastModified, now)
      case Err(e) =>
        thrown := Some(e);
      case Ok(ok) =>
        wrapper.SendTerminated("compile_bin", Bool(ok), Str(errors));
        thrown := None;
    }

    /** `exitHandler()` as written. */
    method OnExitAsWritten(binExists: bool, lastModified: Result<int, JsError>, now: int) returns (thrown: Option<JsError>)
      requires Valid()
      modifies wrapper`written
      ensures match CompileVerdictAsWritten(binExists, lastModified, now)
        case Err(e) => thrown == Some(e) && wrapper.written == old(wrapper.written)
        case Ok(ok) =>
          && thrown == None
          && wrapper.written == old(wrapper.written)
            + wrapper.Delivered([TerminatedOf("compile_bin", Bool(ok), Str(Concat(stderr)))])
    {
      match CompileVerdictAsWritten(binExists, lastModified, now)
      case Err(e) =>
        thrown := Some(e);
      case Ok(ok) =>
        wrapper.SendTerminated("compile_bin", Bool(ok), Str(errors));
        thrown := None;
    }
  }

  /** `compile_bin` before the process starts: `make_params` is read first,
      then a busy device does nothing. */
  function CompileBinStart(busy: bool, payload: Value): (r: Result<Option<Value>, JsError>)
    ensures r.Err? <==> payload.Undefined? || payload.Null?
    ensures r.Ok? ==> (r.value.None? <==> busy)
    ensures r.Ok? && !busy ==> r.value == Some(Get(payload, "make_params").value)
  {
    match Get(payload, "make_params")
    case Err(e) => Err(e)
    case Ok(params) => if busy then Ok(None) else Ok(Some(params))
  }

  // ---------------------------------------------------------------- use_ssh

  datatype SshRequest = SshRequest(host: Value, username: Value, password: Value, dir: Value)

  /** `const { host, username, password = '', dir = '' } = msg_payload`:
      destructuring `null` or `undefined` throws a TypeError. */
  function SshRequestOf(payload: Value): (r: Result<SshRequest, JsError>)
    ensures r.Err? <==> payload.Undefined? || payload.Null?
    ensures r.Err? ==> r.error.kind == TypeError
  {
    match payload
    case Undefined => Err(JsError(TypeError, "Cannot destructure property 'host' of 'msg_payload' as it is undefined."))
    case Null => Err(JsError(TypeError, "Cannot destructure property 'host' of 'msg_payload' as it is null."))
    case _ =>
      Ok(SshRequest(Get(payload, "host").value, Get(payload, "username").value,
        Default(Get(payload, "password").value, Str("")), Default(Get(payload, "dir").value, Str(""))))
  }

  /** For a message object, `password` and `dir` become '' only when they
      are missing: a given `null` or '' is passed on as it is, unlike the
      `||` defaults of `run_bin`. `host` and `username` have no default. */
  lemma SshDefaults(fields: map<string, Value>)
    ensures var r := SshRequestOf(Obj(fields));
      && r.Ok?
      && r.value.host == Field(fields, "host") && r.value.username == Field(fields, "username")
      && ("password" !in fields ==> r.value.password == Str(""))
      && ("password" in fields && !fields["password"].Undefined? ==> r.value.password == fields["password"])
      && ("dir" !in fields ==> r.value.dir == Str(""))
      && ("dir" in fields && !fields["dir"].Undefined? ==> r.value.dir == fields["dir"])
  {
  }

  /** `use_ssh` with a null password keeps the null. */
  lemma SshKeepsNullPassword()
    ensures SshRequestOf(Obj(map["password" := Null])).value.password == Null
  {
  }

  // ------------------------------------------------------ handler outcomes

  /** The answers one device handle gives the handlers: whether it is busy,
      the settled `doesCompiledBinExist()`, its `bin_path`, whether `kill()`
      throws, the settled `useSSH(...)` and what `reset()` returns or
      throws. */
  datatype Device = Device(
    busy: bool,
    binExists: Result<Value, Rejection>,
    binPath: Value,
    kill: Option<Rejection>,
    ssh: Result<Value, Rejection>,
    reset: Result<nat, Rejection>)

  /** How a handler's call ends. */
  datatype Effect =
    | Ignored                                      // the device is busy
    | Rejected(reason: Rejection)                  // the returned promise rejects
    | RunStarted(flags: Value, level: Value)       // `runBin` is called
    | CompileStarted(makeParams: Value)            // `compileBin` is called
    | Killed                                       // `kill()` returned
    | SshAnswered(request: SshRequest, success: Value)
    | ResetTo(handle: nat)                         // the wrapper's new device handle

  /** The handler named by `c`, called with the device `d` and the message
      payload. */
  function HandlerEffect(c: Command, d: Device, payload: Value): (e: Effect)
    ensures e.RunStarted? ==> c == RunBin && !d.busy
    ensures c == RunBin ==> (e.Ignored? <==> d.busy)
    ensures c == CompileBin ==> (e.Rejected? <==> payload.Undefined? || payload.Null?)
    ensures c == CompileBin && e.Ignored? ==> d.busy
    ensures e.CompileStarted? ==> c == CompileBin && !d.busy
    ensures e.Killed? <==> c == KillRunningBin && d.kill.None?
    ensures e.SshAnswered? <==> c == UseSsh && !payload.Undefined? && !payload.Null? && d.ssh.Ok?
    ensures e.ResetTo? <==> c == Reset && d.reset.Ok?
    ensures e.Ignored? ==> d.busy && (c == RunBin || c == CompileBin)
  {
    match c
    case RunBin => RunEffect(d, payload)
    case CompileBin => CompileEffect(d, payload)
    case KillRunningBin => KillEffect(d)
    case UseSsh => SshEffect(d, payload)
    case Reset => ResetEffect(d)
  }

  function RunEffect(d: Device, payload: Value): (e: Effect)
    ensures e.RunStarted? || e.Ignored? || e.Rejected?
    ensures e.Ignored? <==> d.busy
    ensures e.RunStarted? ==> !d.busy
  {
    match RunBinStart(d.busy, d.binExists, d.binPath, payload)
    case Busy => Ignored
    case Refused(r) => Rejected(r)
    case Start(flags, level) => RunStarted(flags, level)
  }

  function CompileEffect(d: Device, payload: Value): (e: Effect)
    ensures e.CompileStarted? || e.Ignored? || e.Rejected?
    ensures e.Rejected? <==> payload.Undefined? || payload.Null?
    ensures e.Ignored? || e.CompileStarted? ==> (e.Ignored? <==> d.busy)
  {
    match CompileBinStart(d.busy, payload)
    case Err(err) => Rejected(RejectionOf(err))
    case Ok(None) => Ignored
    case Ok(Some(params)) => CompileStarted(params)
  }

  function KillEffect(d: Device): (e: Effect)
    ensures e.Killed? || e.Rejected?
    ensures e.Killed? <==> d.kill.None?
  {
    match d.kill
    case None => Killed
    case Some(r) => Rejected(r)
  }

  function SshEffect(d: Device, payload: Value): (e: Effect)
    ensures e.SshAnswered? || e.Rejected?
    ensures e.SshAnswered? <==> !payload.Undefined? && !payload.Null? && d.ssh.Ok?
  {
    match SshRequestOf(payload)
    case Err(err) => Rejected(RejectionOf(err))
    case Ok(req) =>
      match d.ssh
      case Err(r) => Rejected(r)
      case Ok(success) => SshAnswered(req, success)
  }

  function ResetEffect(d: Device): (e: Effect)
    ensures e.ResetTo? || e.Rejected?
    ensures e.ResetTo? <==> d.reset.Ok?
  {
    match d.reset
    case Err(r) => Rejected(r)
    case Ok(handle) => ResetTo(handle)
  }
}
