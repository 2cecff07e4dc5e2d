/** The local shell of server/src/environments/local.js: it runs one child
    process at a time and is busy exactly while it holds a handle to one.
    Spawning is recorded rather than performed: each process is named by a
    number the caller supplies, and the process's exit arrives as a call of
    `OnExit`. The file system is a map from paths to modification times. */
module Local {
  import opened Js

  /** `DEFAULT_PATH`, the pod code next to the server, as a path relative
      to the repository root. */
  const DefaultPath := "server/hyped-pod_code"

  /** One `spawn(cmd, params, { cwd, shell: true })` call, with the
      argument list spawn makes of `params`. */
  datatype Launch = Launch(id: nat, cmd: string, args: seq<Value>, cwd: Value)

  /** The spawn call `execCommand(cmd, options)` makes for the process
      `id`: destructuring a null or missing options object throws, and so
      does `spawn` for parameters that are neither a list, nor missing, nor
      an object, and for a `cwd` that is not a string or null. */
  function LaunchOf(id: nat, cmd: string, options: Value): (r: Result<Launch, JsError>)
    ensures r.Err? ==> r.error.kind == TypeError
    ensures options.Undefined? || options.Null? ==> r.Err?
    ensures r.Ok? ==> r.value.id == id && r.value.cmd == cmd && (r.value.cwd.Str? || r.value.cwd.Null?)
    ensures options.Obj? ==>
      var params, cwd := Field(options.fields, "params"), Field(options.fields, "cwd");
      && (r.Ok? <==> !(params.Bool? || params.Num? || params.Str?) && (cwd.Undefined? || cwd.Null? || cwd.Str?))
      && (r.Ok? && params.Arr? ==> r.value.args == params.items)
      && (r.Ok? && !params.Arr? ==> r.value.args == [])
      && (r.Ok? && cwd.Undefined? ==> r.value.cwd == Str(DefaultPath))
      && (r.Ok? && !cwd.Undefined? ==> r.value.cwd == cwd)
    ensures !options.Obj? && !options.Undefined? && !options.Null? ==>
      r == Ok(Launch(id, cmd, [], Str(DefaultPath)))
  {
    match Get(options, "params")
    case Err(e) => Err(e)
    case Ok(params) =>
      match SpawnArgs(Default(params, Arr([])))
      case Err(e) => Err(e)
      case Ok(args) =>
        match SpawnCwd(Default(Get(options, "cwd").value, Str(DefaultPath)))
        case Err(e) => Err(e)
        case Ok(cwd) => Ok(Launch(id, cmd, args, cwd))
  }

  class LocalShell {
    /** `childProcess`: the process last spawned, until it exits or is
        killed. */
    var childProcess: Option<nat>
    /** Every spawn call made, in order. */
    var launches: seq<Launch>
    /** The processes sent SIGINT, in order. */
    var signalled: seq<nat>

    constructor ()
      ensures childProcess == None && launches == [] && signalled == []
      ensures !IsBusy()
    {
      childProcess := None;
      launches := [];
      signalled := [];
    }

    /** `isBusy()`: `!!this.childProcess`. */
    function IsBusy(): (b: bool)
      reads this
      ensures b <==> childProcess.Some?
    {
      childProcess.Some?
    }

    /** `execCommand(cmd, options)`: there is no busy guard, so a second
        call replaces the handle of the first process, which keeps
        running. */
    method ExecCommand(cmd: string, options: Value, id: nat) returns (thrown: Option<JsError>)
      modifies this
      ensures LaunchOf(id, cmd, options).Err? ==>
        thrown == Some(LaunchOf(id, cmd, options).error)
        && childProcess == old(childProcess) && launches == old(launches)
      ensures LaunchOf(id, cmd, options).Ok? ==>
        && thrown == None && IsBusy() && childProcess == Some(id)
        && launches == old(launches) + [LaunchOf(id, cmd, options).value]
      ensures signalled == old(signalled)
    {
      match LaunchOf(id, cmd, options)
      case Err(e) =>
        thrown := Some(e);
      case Ok(launch) =>
        childProcess := Some(id);
        launches := launches + [launch];
        thrown := None;
    }

    /** The `exit` listener of any process this shell spawned: the handle
        is cleared before `onExit` runs, even when it belongs to a later
        process that replaced the one exiting. */
    method OnExit(id: nat)
      modifies this`childProcess
      ensures childProcess == None && !IsBusy()
    {
      childProcess := None;
    }

    /** `kill()`: the running process gets SIGINT and the handle is
        cleared. Without a process the null dereference throws, so a second
        `kill` fails. */
    method Kill() returns (thrown: Option<JsError>)
      modifies this`childProcess, this`signalled
      ensures old(childProcess).None? ==>
        && thrown == Some(JsError(TypeError, "Cannot read properties of null (reading 'kill')"))
        && childProcess == None && signalled == old(signalled)
      ensures old(childProcess).Some? ==>
        thrown == None && childProcess == None && signalled == old(signalled) + [old(childProcess).value]
    {
      match childProcess
      case None =>
        thrown := Some(JsError(TypeError, "Cannot read properties of null (reading 'kill')"));
      case Some(p) =>
        signalled := signalled + [p];
        childProcess := None;
        thrown := None;
    }
  }

  function NullPath(): JsError
  {
    JsError(Error, "ERR_INVALID_ARG_VALUE: fpath must not be null")
  }

  /** `doesFileExist(fpath)` over the file system `files`: `null` is
      refused; `fs.existsSync` answers false for anything that is not a
      path string. */
  function DoesFileExist(fpath: Value, files: map<string, int>): (r: Result<bool, JsError>)
    ensures r.Err? <==> fpath.Null?
    ensures r.Err? ==> r.error == NullPath()
    ensures r == Ok(true) <==> fpath.Str? && fpath.s in files
  {
    match fpath
    case Null => Err(NullPath())
    case Str(p) => Ok(p in files)
    case _ => Ok(false)
  }

  /** `getFileLastModified(fpath)`: `null` for a missing file, its
      modification time otherwise. */
  function GetFileLastModified(fpath: Value, files: map<string, int>): (r: Result<Value, JsError>)
    ensures r.Err? <==> fpath.Null?
    ensures r.Ok? ==> (r.value == Null <==> !(fpath.Str? && fpath.s in files))
    ensures r.Ok? && fpath.Str? && fpath.s in files ==> r.value == Num(files[fpath.s])
  {
    match DoesFileExist(fpath, files)
    case Err(e) => Err(e)
    case Ok(found) => if !found then Ok(Null) else Ok(Num(files[fpath.s]))
  }

  /** The modification time is reported for exactly the files that exist,
      and a new file's time is the one it was written with. */
  lemma LastModifiedAfterWrite(files: map<string, int>, p: string, t: int)
    ensures GetFileLastModified(Str(p), files[p := t]) == Ok(Num(t))
    ensures DoesFileExist(Str(p), files[p := t]) == Ok(true)
  {
  }
}
