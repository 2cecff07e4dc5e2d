/** The remote shell of server/src/environments/ssh.js: a connection that
    must be open before anything runs, and one process stream at a time.
    The SSH library's answers (whether `connect` succeeds, what `spawn`
    gives, what `getStat` finds) are inputs; each process is named by a
    number. */
module Ssh {
  import opened Js

  /** `DEFAULT_DIR`, the directory commands run in when none is given. */
  const DefaultDir := "/Users/paul/development/hyped/hyped-2020"

  function NotConnected(): JsError
  {
    JsError(Error, "SSH_NOT_CONNECTED")
  }

  /** The remote command line: `cd <cwd> && <cmd>`, where a falsy `cwd`
      becomes `DEFAULT_DIR`. */
  function RemoteCommand(cmd: string, cwd: Value): (r: string)
    ensures !Truthy(cwd) ==> r == "cd " + DefaultDir + " && " + cmd
    ensures Truthy(cwd) ==> r == "cd " + ToStr(cwd) + " && " + cmd
  {
    var dir := if Truthy(cwd) then cwd else Str(DefaultDir);
    "cd " + ToStr(dir) + " && " + cmd
  }

  /** The command always ends with the caller's command, after the `cd`. */
  lemma RemoteCommandEndsWithCmd(cmd: string, cwd: Value)
    ensures var r := RemoteCommand(cmd, cwd);
      |r| >= |cmd| + 7 && r[|r| - |cmd|..] == cmd && r[..3] == "cd "
  {
    var dir := if Truthy(cwd) then cwd else Str(DefaultDir);
    var r := RemoteCommand(cmd, cwd);
    assert r == "cd " + (ToStr(dir) + " && " + cmd);
    assert r == ("cd " + ToStr(dir) + " && ") + cmd;
  }

  /** One `ssh.spawn(cmd, params, { cwd, shell: true })` call. */
  datatype Launch = Launch(id: nat, cmd: string, params: Value, cwd: Value)

  class SshConnection {
    var connected: bool
    var busy: bool
    /** `processStream`: the stream last spawned. */
    var processStream: Option<nat>
    /** Every spawn call made, in order. */
    var launches: seq<Launch>
    /** The streams sent SIGINT, in order. */
    var signalled: seq<nat>

    /** A new connection is neither connected nor busy; the credentials
        only configure the SSH client. */
    constructor ()
      ensures !connected && !busy && processStream == None
      ensures launches == [] && signalled == []
    {
      connected := false;
      busy := false;
      processStream := None;
      launches := [];
      signalled := [];
    }

    /** `connect()`, where `succeeds` is whether the SSH handshake would
        succeed: an open connection is kept without reconnecting. */
    method Connect(succeeds: bool) returns (ok: bool)
      modifies this`connected
      ensures old(connected) ==> ok && connected
      ensures !old(connected) ==> ok == succeeds && connected == succeeds
    {
      if connected {
        return true;
      }
      if succeeds {
        connected := true;
        return true;
      }
      return false;
    }

    /** `disconnect()` */
    method Disconnect() returns (ok: bool)
      modifies this`connected
      ensures ok && !connected
    {
      connected := false;
      return true;
    }

    /** `isConnected()` */
    function IsConnected(): (b: bool)
      reads this
      ensures b <==> connected
    {
      connected
    }

    /** `isBusy()` */
    function IsBusy(): (b: bool)
      reads this
      ensures b <==> busy
    {
      busy
    }

    /** `execCommand(cmd, options)`, where `spawned` is the settled
        `ssh.spawn(...)`: destructuring the options comes first, then the
        connection is required. The command runs in `cwd`, or in
        `DEFAULT_DIR` when that is falsy, and the connection is busy once
        the stream exists. */
    method ExecCommand(cmd: string, options: Value, spawned: Result<nat, JsError>)
      returns (thrown: Option<JsError>)
      modifies this`busy, this`processStream, this`launches
      ensures options.Undefined? || options.Null? ==>
        && thrown.Some? && thrown.value.kind == TypeError
        && busy == old(busy) && processStream == old(processStream) && launches == old(launches)
      ensures !options.Undefined? && !options.Null? && !connected ==>
        && thrown == Some(NotConnected())
        && busy == old(busy) && processStream == old(processStream) && launches == old(launches)
      ensures !options.Undefined? && !options.Null? && connected ==>
        var cwd := Get(options, "cwd").value;
        var params := Get(options, "params").value;
        var dir := if Truthy(cwd) then cwd else Str(DefaultDir);
        match spawned
        case Err(e) =>
          && thrown == Some(e) && busy == old(busy) && processStream == old(processStream)
          && launches == old(launches)
        case Ok(id) =>
          && thrown == None && busy && processStream == Some(id)
          && launches == old(launches)
            + [Launch(id, RemoteCommand(cmd, cwd), Default(params, Arr([])), dir)]
    {
      match Get(options, "params")
      case Err(e) =>
        return Some(e);
      case Ok(p) =>
        var params := Default(p, Arr([]));
        var cwd := Get(options, "cwd").value;
        if !connected {
          return Some(NotConnected());
        }
        var dir := if Truthy(cwd) then cwd else Str(DefaultDir);
        var line := RemoteCommand(cmd, cwd);
        match spawned
        case Err(e) =>
          return Some(e);
        case Ok(id) =>
          launches := launches + [Launch(id, line, params, dir)];
          processStream := Some(id);
          busy := true;
          return None;
    }

    /** The stream's `exit` listener: the connection is no longer busy
        when `exitCallback` runs. */
    method OnExit()
      modifies this`busy
      ensures !busy
    {
      busy := false;
    }

    /** `kill()`: SIGINT to the last stream. It does not clear `busy`;
        that waits for the stream's exit. Without a stream the undefined
        `processStream` throws. */
    method Kill() returns (thrown: Option<JsError>)
      modifies this`signalled
      ensures !connected ==> thrown == Some(NotConnected()) && signalled == old(signalled)
      ensures connected && processStream.None? ==>
        thrown == Some(JsError(TypeError, "Cannot read properties of undefined (reading 'signal')"))
        && signalled == old(signalled)
      ensures connected && processStream.Some? ==>
        thrown == None && signalled == old(signalled) + [processStream.value]
    {
      if !connected {
        return Some(NotConnected());
      }
      match processStream
      case None =>
        return Some(JsError(TypeError, "Cannot read properties of undefined (reading 'signal')"));
      case Some(s) =>
        signalled := signalled + [s];
        return None;
    }

    /** `doesFileExist(fpath)`, where `stat` is the settled
        `sftp.getStat(fpath)`: any stat failure means the file is
        missing. */
    function DoesFileExist(stat: Result<int, JsError>): (r: Result<bool, JsError>)
      reads this
      ensures r.Err? <==> !connected
      ensures r.Err? ==> r.error == NotConnected()
      ensures r == Ok(true) <==> connected && stat.Ok?
    {
      if !connected then Err(NotConnected()) else Ok(stat.Ok?)
    }

    /** `getFileLastModified(fpath)`: the stat's modification time; a stat
        failure is passed on. */
    function GetFileLastModified(stat: Result<int, JsError>): (r: Result<int, JsError>)
      reads this
      ensures !connected ==> r == Err(NotConnected())
      ensures connected ==> r == stat
    {
      if !connected then Err(NotConnected()) else stat
    }

    /** The two file queries agree: a file whose modification time can be
        read exists, and one that does not exist has none. */
    lemma FileQueriesAgree(stat: Result<int, JsError>)
      ensures GetFileLastModified(stat).Ok? <==> DoesFileExist(stat) == Ok(true)
      ensures GetFileLastModified(stat).Err? && connected ==> DoesFileExist(stat) == Ok(false)
    {
    }
  }
}
