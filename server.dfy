/** The TCP server of server/src/tcp/server.js: it opens once, wraps each
    connecting socket, keeps the registry of live sockets, and on close
    stops the device's process and destroys every socket. The listening
    server is represented by its port; the device by its handle, whose
    busy state and `kill()` outcome are inputs to `Close`. */
module Server {
  import opened Js
  import opened Lines
  import opened Registry
  import opened Wire

  function NotOpened(): JsError
  {
    JsError(ReferenceError, "Server has not been opened")
  }

  class Tcp {
    var isOpen: bool
    /** `this.server`: the port listened on, once `open` ran. */
    var server: Option<nat>
    const sockets: List
    /** `this.bbb`: the device handle the wrappers start with. */
    const bbb: nat
    /** The reply encoder every wrapper uses. */
    const stringify: Reply -> string
    /** The sockets destroyed, in order. */
    var destroyed: seq<Sock>

    ghost predicate Valid()
    {
      forall r :: NoNewline(stringify(r))
    }

    constructor (bbb: nat, stringify: Reply -> string)
      requires forall r :: NoNewline(stringify(r))
      ensures Valid() && !isOpen && server == None && destroyed == []
      ensures fresh(sockets) && sockets.socks == []
      ensures this.bbb == bbb && this.stringify == stringify
    {
      isOpen := false;
      server := None;
      sockets := new List();
      this.bbb := bbb;
      this.stringify := stringify;
      destroyed := [];
    }

    /** `open(port)`: refused once open. */
    method Open(port: nat) returns (ok: bool)
      modifies this`isOpen, this`server
      ensures old(isOpen) ==> !ok && isOpen && server == old(server)
      ensures !old(isOpen) ==> ok && isOpen && server == Some(port)
    {
      if isOpen {
        return false;
      }
      server := Some(port);
      isOpen := true;
      return true;
    }

    /** `close()`, where `busy` is the device's `isBusy()` and `kill` what
        its `kill()` throws, if anything. Before any `open` it throws.
        Otherwise the process is killed only when the device is busy, and
        then every registered socket is destroyed, in registry order. The
        server's own close completes later, in `OnServerClosed`. */
    method Close(busy: bool, kill: Option<JsError>) returns (thrown: Option<JsError>, killed: bool)
      modifies this`destroyed
      ensures server.None? ==>
        thrown == Some(NotOpened()) && !killed && destroyed == old(destroyed)
      ensures server.Some? && busy && kill.Some? ==>
        thrown == kill && killed && destroyed == old(destroyed)
      ensures server.Some? && !(busy && kill.Some?) ==>
        thrown == None && killed == busy && destroyed == old(destroyed) + sockets.socks
    {
      if server.None? {
        return Some(NotOpened()), false;
      }
      killed := busy;
      if busy && kill.Some? {
        return kill, true;
      }
      var socks := sockets.All();
      var i := 0;
      while i < |socks|
        invariant 0 <= i <= |socks|
        invariant destroyed == old(destroyed) + socks[..i]
      {
        destroyed := destroyed + [socks[i]];
        i := i + 1;
      }
      assert socks[..i] == socks;
      thrown := None;
    }

    /** The `server.close` callback as written: a plain function, called
        with the `net.Server` as `this`, so the flag it clears is the
        server object's and the TCP instance stays open. */
    method OnServerClosedAsWritten()
      ensures isOpen == old(isOpen)
    {
    }

    /** The `server.close` callback as intended: the TCP instance is
        closed. */
    method OnServerClosed()
      modifies this`isOpen
      ensures !isOpen
    {
      isOpen := false;
    }

    /** `onClientConnected(tcpSocket)`: the socket is registered and given
        a fresh wrapper over the server's device handle. */
    method OnClientConnected(sock: Sock) returns (w: Wrapper)
      requires Valid()
      modifies sockets
      ensures sockets.socks == old(sockets.socks) + [sock]
      ensures fresh(w) && w.Valid() && w.bbb == bbb && w.stringify == stringify
      ensures !w.destroyed && !w.throwing && w.written == []
    {
      sockets.Add(sock);
      w := new Wrapper(stringify, bbb);
    }

    /** The socket's `close` listener. */
    method OnClientClose(sock: Sock)
      modifies sockets
      ensures sockets.socks == Removed(old(sockets.socks), sock)
    {
      sockets.Remove(sock);
    }

    /** The socket's `error` listener. */
    method OnClientError(sock: Sock)
      modifies sockets
      ensures sockets.socks == Removed(old(sockets.socks), sock)
    {
      sockets.Remove(sock);
    }
  }

  /** Open, close, the close callback as written, open again: the second
      `open` is refused, since the instance still counts as open. */
  method ReopenAsWritten() returns (first: bool, second: bool)
    ensures first && !second
  {
    var t := new Tcp(0, _ => "");
    first := t.Open(8080);
    var thrown, killed := t.Close(false, None);
    t.OnServerClosedAsWritten();
    second := t.Open(8080);
  }

  /** The same sequence with the intended callback: the server reopens. */
  method Reopen() returns (first: bool, second: bool)
    ensures first && second
  {
    var t := new Tcp(0, _ => "");
    first := t.Open(8080);
    var thrown, killed := t.Close(false, None);
    t.OnServerClosed();
    second := t.Open(8080);
  }

  /** A connection that closes leaves the registry as it was before it
      connected. */
  method ConnectThenClose(t: Tcp, sock: Sock) returns (w: Wrapper)
    requires t.Valid() && sock !in t.sockets.socks
    modifies t.sockets
    ensures t.sockets.socks == old(t.sockets.socks)
  {
    w := t.OnClientConnected(sock);
    t.OnClientClose(sock);
    AddThenRemove(old(t.sockets.socks), sock);
  }
}
