/** Splitting text at newlines, as `String.prototype.split('\n')` does, and
    the framing of newline-terminated lines. The parser and the reply
    framing both rest on these facts. */
module Lines {

  const NL: char := '\n'

  /** `s.split('\n')`: the segments between newlines, including the
      (possibly empty) segment after the last one. */
  function Split(s: string): (r: seq<string>)
    ensures |r| >= 1
  {
    if |s| == 0 then [""]
    else
      var rest := Split(s[1..]);
      if s[0] == NL then [""] + rest else [[s[0]] + rest[0]] + rest[1..]
  }

  /** `parts.join('\n')` */
  function Join(parts: seq<string>): string
  {
    if |parts| == 0 then ""
    else if |parts| == 1 then parts[0]
    else parts[0] + [NL] + Join(parts[1..])
  }

  /** Every line followed by its newline, concatenated. */
  function Terminated(lines: seq<string>): string
  {
    if |lines| == 0 then "" else lines[0] + [NL] + Terminated(lines[1..])
  }

  /** Texts concatenated in order, as a stream delivers them. */
  function Concat(texts: seq<string>): string
  {
    if |texts| == 0 then "" else texts[0] + Concat(texts[1..])
  }

  function Last(parts: seq<string>): string
    requires |parts| >= 1
  {
    parts[|parts| - 1]
  }

  function AllButLast(parts: seq<string>): seq<string>
    requires |parts| >= 1
  {
    parts[..|parts| - 1]
  }

  /** The number of newlines in `s`. */
  function CountNewlines(s: string): nat
  {
    if |s| == 0 then 0 else (if s[0] == NL then 1 else 0) + CountNewlines(s[1..])
  }

  predicate NoNewline(s: string)
  {
    forall i :: 0 <= i < |s| ==> s[i] != NL
  }

  predicate AllNoNewline(parts: seq<string>)
  {
    forall k :: 0 <= k < |parts| ==> NoNewline(parts[k])
  }

  /** There is one segment more than there are newlines, so '' splits into one. */
  lemma {:induction false} SplitCount(s: string)
    ensures |Split(s)| == CountNewlines(s) + 1
  {
    if |s| > 0 {
      SplitCount(s[1..]);
    }
  }

  /** No segment holds a newline. */
  lemma {:induction false} SplitNoNewline(s: string)
    ensures AllNoNewline(Split(s))
  {
    if |s| > 0 {
      SplitNoNewline(s[1..]);
      var rest := Split(s[1..]);
      if s[0] != NL {
        assert NoNewline(rest[0]);
        assert NoNewline([s[0]] + rest[0]);
      }
    }
  }

  /** Joining the segments gives back the text. */
  lemma {:induction false} JoinSplit(s: string)
    ensures Join(Split(s)) == s
  {
    if |s| > 0 {
      JoinSplit(s[1..]);
      var rest := Split(s[1..]);
      if s[0] == NL {
        assert Split(s) == [""] + rest;
        assert Join(Split(s)) == "" + [NL] + Join(rest);
        assert s == [s[0]] + s[1..];
      } else if |rest| == 1 {
        assert Split(s) == [[s[0]] + rest[0]];
        assert s == [s[0]] + s[1..];
      } else {
        var r := [[s[0]] + rest[0]] + rest[1..];
        assert Join(rest) == rest[0] + [NL] + Join(rest[1..]);
        assert r[1..] == rest[1..];
        assert Join(r) == [s[0]] + rest[0] + [NL] + Join(rest[1..]);
        assert s == [s[0]] + s[1..];
      }
    }
  }

  /** Splitting prepends a newline-free head to the first segment. */
  lemma {:induction false} SplitPrefix(u: string, t: string)
    requires NoNewline(u)
    ensures Split(u + t) == [u + Split(t)[0]] + Split(t)[1..]
    decreases |u|
  {
    if |u| > 0 {
      var u' := u[1..];
      assert NoNewline(u');
      SplitPrefix(u', t);
      assert (u + t)[0] == u[0];
      assert (u + t)[1..] == u' + t;
      var r := Split(u' + t);
      assert r == [u' + Split(t)[0]] + Split(t)[1..];
      assert Split(u + t) == [[u[0]] + r[0]] + r[1..];
      assert [u[0]] + (u' + Split(t)[0]) == u + Split(t)[0];
    } else {
      assert u + t == t;
      assert u + Split(t)[0] == Split(t)[0];
      assert Split(t) == [Split(t)[0]] + Split(t)[1..];
    }
  }

  /** A join of at least one part is the terminated complete parts, then the last. */
  lemma {:induction false} JoinIsTerminated(parts: seq<string>)
    requires |parts| >= 1
    ensures Join(parts) == Terminated(AllButLast(parts)) + Last(parts)
  {
    if |parts| > 1 {
      JoinIsTerminated(parts[1..]);
      assert AllButLast(parts) == [parts[0]] + AllButLast(parts[1..]);
      assert AllButLast(parts)[1..] == AllButLast(parts[1..]);
    }
  }

  /** Nothing is lost at the last newline: the complete segments, each with
      its newline restored, followed by the unterminated tail, are the text. */
  lemma NothingLost(s: string)
    ensures s == Terminated(AllButLast(Split(s))) + Last(Split(s))
  {
    JoinSplit(s);
    JoinIsTerminated(Split(s));
  }

  /** Splitting newline-terminated, newline-free lines followed by a tail
      gives back exactly those lines, then the split of the tail. */
  lemma {:induction false} SplitTerminated(lines: seq<string>, tail: string)
    requires AllNoNewline(lines)
    ensures Split(Terminated(lines) + tail) == lines + Split(tail)
  {
    if |lines| > 0 {
      var head, rest := lines[0], Terminated(lines[1..]) + tail;
      var nr := [NL] + rest;
      assert Split(rest) == lines[1..] + Split(tail) by {
        assert AllNoNewline(lines[1..]) by {
          forall k | 0 <= k < |lines[1..]| ensures NoNewline(lines[1..][k]) {
            assert lines[1..][k] == lines[k + 1];
          }
        }
        SplitTerminated(lines[1..], tail);
      }
      assert Split(nr) == [""] + Split(rest) by {
        assert nr[0] == NL && nr[1..] == rest;
      }
      assert Split(head + nr) == [head] + Split(rest) by {
        assert NoNewline(head);
        SplitPrefix(head, nr);
        assert head + "" == head;
      }
      assert Terminated(lines) + tail == head + nr;
      assert lines == [head] + lines[1..];
    } else {
      assert Terminated(lines) + tail == tail;
    }
  }

  /** Splitting a concatenation: the complete segments of `s`, then the
      split of `s`'s last segment continued by `t`. */
  lemma SplitAppend(s: string, t: string)
    ensures Split(s + t) == AllButLast(Split(s)) + Split(Last(Split(s)) + t)
  {
    var parts := Split(s);
    NothingLost(s);
    SplitNoNewline(s);
    assert AllNoNewline(AllButLast(parts));
    assert s + t == Terminated(AllButLast(parts)) + (Last(parts) + t);
    SplitTerminated(AllButLast(parts), Last(parts) + t);
  }

  /** The round trip in the other direction: joining newline-free parts and
      splitting again recovers the parts. */
  lemma JoinThenSplit(parts: seq<string>)
    requires |parts| >= 1 && AllNoNewline(parts)
    ensures Split(Join(parts)) == parts
  {
    var init, last := AllButLast(parts), Last(parts);
    assert Join(parts) == Terminated(init) + last by {
      JoinIsTerminated(parts);
    }
    InitAndLastNoNewline(parts);
    assert Split(Terminated(init) + last) == init + Split(last) by {
      SplitTerminated(init, last);
    }
    assert Split(last) == [last] by {
      SplitOfNoNewline(last);
    }
    InitThenLast(parts);
  }

  lemma InitThenLast<T>(s: seq<T>)
    requires |s| >= 1
    ensures s == s[..|s| - 1] + [s[|s| - 1]]
  {
  }

  lemma InitAndLastNoNewline(parts: seq<string>)
    requires |parts| >= 1 && AllNoNewline(parts)
    ensures AllNoNewline(AllButLast(parts)) && NoNewline(Last(parts))
  {
    var init := AllButLast(parts);
    forall k | 0 <= k < |init| ensures NoNewline(init[k]) {
      assert init[k] == parts[k];
    }
  }

  /** A newline-free text is a single segment. */
  lemma {:induction false} SplitOfNoNewline(s: string)
    requires NoNewline(s)
    ensures Split(s) == [s]
  {
    SplitPrefix(s, "");
    assert s + "" == s;
  }

  /** A stream that delivers one more text has that text at its end. */
  lemma {:induction false} ConcatSnoc(texts: seq<string>, t: string)
    ensures Concat(texts + [t]) == Concat(texts) + t
  {
    if |texts| == 0 {
      assert texts + [t] == [t];
      assert Concat([t][1..]) == "";
    } else {
      assert (texts + [t])[1..] == texts[1..] + [t];
      ConcatSnoc(texts[1..], t);
    }
  }

  /** Terminating two runs of lines is terminating them together. */
  lemma {:induction false} TerminatedAppend(a: seq<string>, b: seq<string>)
    ensures Terminated(a + b) == Terminated(a) + Terminated(b)
  {
    if |a| == 0 {
      assert a + b == b;
    } else {
      assert (a + b)[1..] == a[1..] + b;
      TerminatedAppend(a[1..], b);
    }
  }

  /** Text that is newline-terminated, newline-free lines followed by a
      newline-free tail is cut into exactly those lines and that tail. */
  lemma SplitOfTerminated(lines: seq<string>, tail: string)
    requires AllNoNewline(lines) && NoNewline(tail)
    ensures Split(Terminated(lines) + tail) == lines + [tail]
  {
    SplitTerminated(lines, tail);
    SplitOfNoNewline(tail);
  }
}
