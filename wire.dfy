/** The sending side of `Wrapper` in server/src/tcp/socket.js: replies to a
    client are JSON objects, one per line.

    `JSON.stringify` is not modelled byte for byte: each wrapper holds the
    encoder its replies go through, and the one thing the framing needs of
    it, that no encoded reply contains a raw newline (JSON escapes newlines
    inside strings), is required when the wrapper is made. */
module Wire {
  import opened Js
  import opened Lines
  import opened LogLine

  /** The objects the wrapper formats, by their `msg` field. */
  datatype Reply =
    | ConsoleData(records: seq<Record>)                                  // 'console_data'
    | ErrorReply(errType: string, message: string, stackTrace: Option<Value>)  // 'error'
    | Terminated(task: string, success: Value, payload: Value)           // 'terminated'
    | SshConnection(success: Value)                                      // 'ssh_connection'
    | ResetComplete                                                      // 'reset_complete'

  /** `sendError`'s object: the stack trace, '' when not given, is attached
      only when it is truthy. */
  function ErrorReplyOf(errType: string, message: string, stackTrace: Value): (r: Reply)
    ensures r.ErrorReply? && r.errType == errType && r.message == message
    ensures r.stackTrace.Some? <==> Truthy(stackTrace)
    ensures r.stackTrace.Some? ==> r.stackTrace.value == stackTrace
  {
    var st := if stackTrace.Undefined? then Str("") else stackTrace;
    ErrorReply(errType, message, if Truthy(st) then Some(st) else None)
  }

  /** `sendTerminated`'s object: `success` defaults to false and `payload`
      to '' when they are not given; given values, falsy ones included, are
      kept. */
  function TerminatedOf(task: string, success: Value, payload: Value): (r: Reply)
    ensures r.Terminated? && r.task == task
    ensures r.success == (if success.Undefined? then Bool(false) else success)
    ensures r.payload == (if payload.Undefined? then Str("") else payload)
    ensures Truthy(r.success) <==> Truthy(success)
  {
    Terminated(task, if success.Undefined? then Bool(false) else success,
      if payload.Undefined? then Str("") else payload)
  }

  /** The text on the wire for replies encoded as `encoded`: each followed
      by a newline. */
  function Frames(encoded: seq<string>): (r: seq<string>)
    ensures |r| == |encoded| && forall k :: 0 <= k < |r| ==> r[k] == encoded[k] + "\n"
  {
    seq(|encoded|, k requires 0 <= k < |encoded| => encoded[k] + "\n")
  }

  /** Newline framing works: a client splitting what it received at
      newlines gets back every encoded reply, in order, and then the empty
      text after the last newline. */
  lemma Framing(encoded: seq<string>)
    requires AllNoNewline(encoded)
    ensures Split(Concat(Frames(encoded))) == encoded + [""]
  {
    FramesConcat(encoded);
    SplitTerminated(encoded, "");
    assert Lines.Terminated(encoded) + "" == Lines.Terminated(encoded);
  }

  lemma {:induction false} FramesConcat(encoded: seq<string>)
    ensures Concat(Frames(encoded)) == Lines.Terminated(encoded)
  {
    if |encoded| > 0 {
      FramesConcat(encoded[1..]);
      assert Frames(encoded)[1..] == Frames(encoded[1..]);
      assert Frames(encoded)[0] == encoded[0] + [NL];
    }
  }

  /** Replies through an encoder. */
  function Encoded(stringify: Reply -> string, replies: seq<Reply>): (r: seq<string>)
    ensures |r| == |replies| && forall k :: 0 <= k < |r| ==> r[k] == stringify(replies[k])
  {
    seq(|replies|, k requires 0 <= k < |replies| => stringify(replies[k]))
  }

  /** Sending replies one after the other writes what sending them together
      would. */
  lemma FramedAppend(stringify: Reply -> string, a: seq<Reply>, b: seq<Reply>)
    ensures Frames(Encoded(stringify, a + b)) == Frames(Encoded(stringify, a)) + Frames(Encoded(stringify, b))
  {
  }

  class Wrapper {
    /** The reply encoder, `JSON.stringify`. */
    const stringify: Reply -> string
    /** `tcpSocket.destroyed` */
    var destroyed: bool
    /** Whether `tcpSocket.write` throws. */
    var throwing: bool
    /** Everything written to the socket, one entry per `write`. */
    var written: seq<string>
    /** The device handle commands run against. */
    var bbb: nat

    /** What sending `replies` writes to this socket: one framed line each,
        or nothing when the socket is destroyed or its writes throw. */
    function Delivered(replies: seq<Reply>): seq<string>
      reads this`destroyed, this`throwing
    {
      if destroyed || throwing then [] else Frames(Encoded(stringify, replies))
    }

    ghost predicate Valid()
    {
      forall r :: NoNewline(stringify(r))
    }

    constructor (stringify: Reply -> string, bbb: nat)
      requires forall r :: NoNewline(stringify(r))
      ensures Valid()
      ensures this.stringify == stringify && this.bbb == bbb
      ensures !destroyed && !throwing && written == []
    {
      this.stringify := stringify;
      this.bbb := bbb;
      destroyed := false;
      throwing := false;
      written := [];
    }

    /** `write(...args)`: an exception from the socket is swallowed, so
        nothing is written and nothing escapes. */
    method Write(data: string)
      modifies this`written
      ensures written == old(written) + (if throwing then [] else [data])
    {
      if !throwing {
        written := written + [data];
      }
    }

    /** `send(data)`: the data and exactly one newline, in one write, unless
        the socket is destroyed. */
    method Send(data: string)
      modifies this`written
      ensures written == old(written) + (if destroyed || throwing then [] else [data + "\n"])
    {
      if !destroyed {
        Write(data + "\n");
      }
    }

    /** `sendFormatted(data)`: one line holding the encoded reply. */
    method SendFormatted(reply: Reply)
      modifies this`written
      ensures written == old(written) + Delivered([reply])
    {
      Send(stringify(reply));
    }

    /** `sendData(payload)` */
    method SendData(payload: seq<Record>)
      modifies this`written
      ensures written == old(written) + Delivered([ConsoleData(payload)])
    {
      SendFormatted(ConsoleData(payload));
    }

    /** `sendError(type, errorMessage, stackTrace)` */
    method SendError(errType: string, message: string, stackTrace: Value)
      modifies this`written
      ensures written == old(written) + Delivered([ErrorReplyOf(errType, message, stackTrace)])
    {
      SendFormatted(ErrorReplyOf(errType, message, stackTrace));
    }

    /** `sendTerminated(taskName, success, payload)` */
    method SendTerminated(task: string, success: Value, payload: Value)
      modifies this`written
      ensures written == old(written) + Delivered([TerminatedOf(task, success, payload)])
    {
      SendFormatted(TerminatedOf(task, success, payload));
    }
  }
}
