/** The older device controller of server/src/Bbb.js: it compiles the pod
    code with `make` and runs the `./hyped` binary as child processes.
    Spawning is recorded rather than performed, each process named by a
    number the caller supplies; the processes' exits arrive as calls of
    `OnExit`, and the file system is the set of existing paths. */
module Device {
  import opened Js

  /** `HYPED_PATH`: `../../hyped-pod_code` from `server/src`, as a path
      relative to the repository root. */
  const HypedPath := "hyped-pod_code"
  /** `path.join(HYPED_PATH, './hyped')` */
  const BinaryPath := HypedPath + "/hyped"
  const MakeCommand := "sh ./setup.sh && make"

  /** One `spawn(cmd, params, { cwd: HYPED_PATH, ... })` call, with the
      argument list spawn makes of `params`. */
  datatype Launch = Launch(id: nat, cmd: string, args: seq<Value>)

  /** The callbacks a process exit fires, in order. */
  datatype Callback = ExitCallback | ErrorCallback(message: string)

  /** `` `--debug=${debug_level}` `` */
  function DebugFlag(level: Value): string
  {
    "--debug=" + ToStr(level)
  }

  /** `flags.concat([--debug=N])`: an array gets the flag as one more
      element; a string gets it appended as text; anything else throws. */
  function RunParams(flags: Value, level: Value): (r: Result<Value, JsError>)
    ensures flags.Arr? ==> r == Ok(Arr(flags.items + [Str(DebugFlag(level))]))
    ensures flags.Str? ==> r == Ok(Str(flags.s + DebugFlag(level)))
    ensures r.Err? <==> !flags.Arr? && !flags.Str?
    ensures r.Err? ==> r.error.kind == TypeError
  {
    match flags
    case Arr(items) => Ok(Arr(items + [Str(DebugFlag(level))]))
    case Str(s) => Ok(Str(s + DebugFlag(level)))   // the one-element array reads as its element
    case Undefined => Err(JsError(TypeError, "Cannot read properties of undefined (reading 'concat')"))
    case Null => Err(JsError(TypeError, "Cannot read properties of null (reading 'concat')"))
    case _ => Err(JsError(TypeError, "flags.concat is not a function"))
  }

  /** For an array of flags, the binary gets the flags unchanged, in
      order, followed by exactly one debug flag. */
  lemma RunParamsKeepFlags(items: seq<Value>, level: Value)
    ensures var p := RunParams(Arr(items), level).value.items;
      |p| == |items| + 1 && p[..|items|] == items && p[|items|] == Str(DebugFlag(level))
  {
    var p := RunParams(Arr(items), level).value.items;
    assert p == items + [Str(DebugFlag(level))];
    assert p[..|items|] == items;
  }

  /** The arguments `./hyped` is spawned with: `flags.concat(...)`, then
      `spawn`'s reading of it. Only a list of flags gets through: a string
      concatenates to text, which `spawn` refuses, and anything else has no
      `concat`. */
  function RunArgs(flags: Value, level: Value): (r: Result<seq<Value>, JsError>)
    ensures flags.Arr? ==> r == Ok(flags.items + [Str(DebugFlag(level))])
    ensures !flags.Arr? ==> r.Err? && r.error.kind == TypeError
    ensures flags.Str? ==> r == Err(SpawnArgs(Str(flags.s + DebugFlag(level))).error)
    ensures !flags.Arr? && !flags.Str? ==> r == Err(RunParams(flags, level).error)
  {
    match RunParams(flags, level)
    case Err(e) => Err(e)
    case Ok(params) => SpawnArgs(params)
  }

  /** The exit message of a process: `code != 0` compares loosely, so a
      process killed by a signal (code `null`) also reports it. */
  function ExitCallbacks(code: Option<int>): (r: seq<Callback>)
    ensures |r| >= 1 && r[0] == ExitCallback
    ensures |r| == 2 <==> code != Some(0)
    ensures |r| <= 2
    ensures code.None? ==> r == [ExitCallback, ErrorCallback("Child process exited with code null")]
    ensures code.Some? && code.value != 0 ==>
      r == [ExitCallback, ErrorCallback("Child process exited with code " + IntToString(code.value))]
  {
    match code
    case None => [ExitCallback, ErrorCallback("Child process exited with code null")]
    case Some(n) =>
      if n != 0 then [ExitCallback, ErrorCallback("Child process exited with code " + IntToString(n))]
      else [ExitCallback]
  }

  class Bbb {
    /** `_running` and `_compiling`: initialised false, never set. */
    var running: bool
    var compiling: bool
    /** `_connected`: not initialised, so `undefined` until a run. */
    var connected: Value
    /** `child`: the binary last run. */
    var child: Option<nat>
    var launches: seq<Launch>
    /** The processes sent SIGINT, in order. */
    var signalled: seq<nat>

    /** Nothing in the class sets `_running` or `_compiling`. */
    predicate Valid()
      reads this
    {
      !running && !compiling
    }

    constructor ()
      ensures Valid() && connected == Undefined && child == None
      ensures launches == [] && signalled == []
    {
      running := false;
      compiling := false;
      connected := Undefined;
      child := None;
      launches := [];
      signalled := [];
    }

    /** `isBusy()`: never true, since neither flag is ever set. */
    function IsBusy(): (b: bool)
      reads this
      ensures b <==> running || compiling
      ensures Valid() ==> !b
    {
      running || compiling
    }

    /** `isRunning()` */
    function IsRunning(): (b: bool)
      reads this
      ensures Valid() ==> !b
    {
      running
    }

    /** `doesCompiledBinExist()` over the set of existing paths. */
    function DoesCompiledBinExist(files: set<string>): (b: bool)
      ensures b <==> BinaryPath in files
    {
      BinaryPath in files
    }

    /** `compile(params, ...)`: `make` is spawned in the pod code. The
        handle is not kept, so `kill` cannot stop a compile. Parameters
        that are neither a list, nor missing, nor an object make `spawn`
        throw, and nothing starts. */
    method Compile(params: Value, id: nat) returns (thrown: Option<JsError>)
      modifies this`launches
      ensures params.Arr? ==> thrown == None && launches == old(launches) + [Launch(id, MakeCommand, params.items)]
      ensures params.Undefined? || params.Null? || params.Obj? ==>
        thrown == None && launches == old(launches) + [Launch(id, MakeCommand, [])]
      ensures params.Bool? || params.Num? || params.Str? ==>
        thrown.Some? && thrown.value.kind == TypeError && launches == old(launches)
    {
      match SpawnArgs(params)
      case Err(e) =>
        thrown := Some(e);
      case Ok(args) =>
        launches := launches + [Launch(id, MakeCommand, args)];
        thrown := None;
    }

    /** `run(flags, debug_level, ...)` as written: its first statement
        reads the undefined global `self` and throws, so no binary is ever
        run. */
    method RunAsWritten(flags: Value, level: Value, files: set<string>, id: nat) returns (r: Result<Value, JsError>)
      ensures r == Err(JsError(ReferenceError, "self is not defined"))
    {
      r := Err(JsError(ReferenceError, "self is not defined"));
    }

    /** `run(flags, debug_level, ...)` with `this` for `self`: false
        without spawning when the binary is missing; otherwise, for a list
        of flags, the binary runs with the flags and one debug flag, the
        device counts as connected, and `run` returns `undefined`. Any
        other flags throw, either at `concat` or, for a string, whose
        `concat` is text, at `spawn`; then nothing changes. */
    method Run(flags: Value, level: Value, files: set<string>, id: nat) returns (r: Result<Value, JsError>)
      modifies this`child, this`connected, this`launches
      ensures !DoesCompiledBinExist(files) ==>
        r == Ok(Bool(false)) && child == old(child) && connected == old(connected) && launches == old(launches)
      ensures DoesCompiledBinExist(files) && RunArgs(flags, level).Ok? ==>
        && r == Ok(Undefined) && child == Some(id) && connected == Bool(true)
        && launches == old(launches) + [Launch(id, "./hyped", RunArgs(flags, level).value)]
      ensures DoesCompiledBinExist(files) && RunArgs(flags, level).Err? ==>
        && r == Err(RunArgs(flags, level).error)
        && child == old(child) && connected == old(connected) && launches == old(launches)
    {
      if !DoesCompiledBinExist(files) {
        return Ok(Bool(false));
      }
      match RunArgs(flags, level)
      case Err(e) =>
        return Err(e);
      case Ok(args) =>
        child := Some(id);
        launches := launches + [Launch(id, "./hyped", args)];
        connected := Bool(true);
        return Ok(Undefined);
    }

    /** The `exit` listener of a compile or a run: the device is no longer
        connected, then `exitCallback` fires, then `errorCallback` iff the
        exit code is not 0. */
    method OnExit(code: Option<int>) returns (fired: seq<Callback>)
      modifies this`connected
      ensures connected == Bool(false)
      ensures fired == ExitCallbacks(code)
    {
      connected := Bool(false);
      fired := ExitCallbacks(code);
    }

    /** `kill()`: SIGINT to the binary last run; before any run the
        undefined `child` throws. */
    method Kill() returns (thrown: Option<JsError>)
      modifies this`signalled
      ensures child.None? ==>
        thrown == Some(JsError(TypeError, "Cannot read properties of undefined (reading 'kill')"))
        && signalled == old(signalled)
      ensures child.Some? ==> thrown == None && signalled == old(signalled) + [child.value]
    {
      match child
      case None =>
        thrown := Some(JsError(TypeError, "Cannot read properties of undefined (reading 'kill')"));
      case Some(c) =>
        signalled := signalled + [c];
        thrown := None;
    }
  }
}
