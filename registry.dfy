/** The connection registry: `List` of server/src/tcp/socket.js and the
    `Sockets` class of server/src/tcp.js, which behave alike. Sockets are
    compared by identity, modelled as a number per connection. */
module Registry {

  type Sock = nat

  /** `a.indexOf(x)`: the first position of `x`, or -1. */
  function IndexOf(a: seq<Sock>, x: Sock): (r: int)
    ensures r == -1 <==> x !in a
    ensures r != -1 ==> 0 <= r < |a| && a[r] == x && x !in a[..r]
  {
    if |a| == 0 then -1
    else if a[0] == x then 0
    else
      var r := IndexOf(a[1..], x);
      if r == -1 then -1
      else
        assert a[..r + 1] == [a[0]] + a[1..][..r];
        r + 1
  }

  /** Where `splice(start, ...)` starts: a negative start counts from the
      end, and the start is clamped to the array. */
  function SpliceStart(len: nat, start: int): (s: nat)
    ensures s <= len
  {
    if start < 0 then (if len + start < 0 then 0 else len + start)
    else if start > len then len
    else start
  }

  /** `a.splice(start, 1)` applied to `a`: the array left behind. */
  function SpliceOne(a: seq<Sock>, start: int): seq<Sock>
  {
    var s := SpliceStart(|a|, start);
    if s == |a| then a else a[..s] + a[s + 1..]
  }

  /** `remove(sock)`: `splice(indexOf(sock), 1)`. */
  function Removed(a: seq<Sock>, x: Sock): seq<Sock>
  {
    SpliceOne(a, IndexOf(a, x))
  }

  /** A registered socket is removed at its first position, and exactly one
      copy of it leaves the registry. */
  lemma RemovePresent(a: seq<Sock>, x: Sock)
    requires x in a
    ensures var i := IndexOf(a, x);
      Removed(a, x) == a[..i] + a[i + 1..] && multiset(Removed(a, x)) == multiset(a) - multiset{x}
  {
    var i := IndexOf(a, x);
    assert SpliceStart(|a|, i) == i;
    assert Removed(a, x) == a[..i] + a[i + 1..];
    CutOne(a, i);
  }

  /** Cutting out position `i` takes one copy of `a[i]` out of `a`. */
  lemma CutOne<T>(a: seq<T>, i: nat)
    requires i < |a|
    ensures multiset(a[..i] + a[i + 1..]) == multiset(a) - multiset{a[i]}
  {
    assert a == a[..i] + [a[i]] + a[i + 1..];
  }

  /** An unregistered socket is not found, `indexOf` gives -1, and the splice
      removes the LAST registered socket instead; an empty registry stays
      empty. */
  lemma RemoveAbsent(a: seq<Sock>, x: Sock)
    requires x !in a
    ensures |a| > 0 ==> Removed(a, x) == a[..|a| - 1]
    ensures |a| == 0 ==> Removed(a, x) == []
  {
  }

  /** Removing the socket just added gives back the registry it was added
      to, when it was not already registered. */
  lemma AddThenRemove(a: seq<Sock>, x: Sock)
    requires x !in a
    ensures Removed(a + [x], x) == a
  {
    assert x in a + [x];
    assert IndexOf(a + [x], x) == |a|;
    assert (a + [x])[..|a|] == a;
  }

  /** Removing a registered socket keeps every other registered socket. */
  lemma RemoveKeepsOthers(a: seq<Sock>, x: Sock, y: Sock)
    requires x in a && y in a && y != x
    ensures y in Removed(a, x)
  {
    RemovePresent(a, x);
    assert y in multiset(Removed(a, x));
  }

  class List {
    var socks: seq<Sock>

    constructor ()
      ensures socks == []
    {
      socks := [];
    }

    /** `all()` */
    function All(): seq<Sock>
      reads this
    {
      socks
    }

    /** `length()` */
    function Length(): nat
      reads this
    {
      |socks|
    }

    /** `add(sock)`: `push`, at the end; the length grows by one. */
    method Add(sock: Sock)
      modifies this
      ensures socks == old(socks) + [sock]
      ensures Length() == old(Length()) + 1
    {
      socks := socks + [sock];
    }

    /** `remove(sock)` */
    method Remove(sock: Sock)
      modifies this
      ensures socks == Removed(old(socks), sock)
    {
      var i := IndexOf(socks, sock);
      socks := SpliceOne(socks, i);
    }
  }
}
