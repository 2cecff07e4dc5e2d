/** `ExecParser` of server/src/parser.js: a queue of output text that is
    cut into complete lines as chunks arrive.

    The `queue` field holds a string, except after `parseRest`, which
    assigns the empty array `[]`. Appending a chunk to `[]` with `+=`
    converts the array to '' first, so the queue is a string again
    afterwards; calling `split` on the array throws a TypeError. */
module Parser {
  import opened Js
  import opened Lines
  import opened LogLine

  datatype Queue = Text(s: string) | EmptyArray

  /** The queue as `+=` sees it: `String([])` is ''. */
  function QueueString(q: Queue): string
  {
    if q.Text? then q.s else ""
  }

  function NotAFunction(): JsError
  {
    JsError(TypeError, "this.queue.split is not a function")
  }

  /** `array.map(f)` where `f` may throw: the results in order, unless a
      call throws, in which case the first exception escapes. */
  function Collect<T, E>(rs: seq<Result<T, E>>): (r: Result<seq<T>, E>)
    ensures r.Ok? <==> forall k :: 0 <= k < |rs| ==> rs[k].Ok?
    ensures r.Ok? ==> |r.value| == |rs| && forall k :: 0 <= k < |rs| ==> rs[k] == Ok(r.value[k])
    ensures r.Err? ==>
      exists k :: 0 <= k < |rs| && rs[k] == Err(r.error) && forall j :: 0 <= j < k ==> rs[j].Ok?
  {
    if |rs| == 0 then Ok([])
    else match rs[0]
      case Err(e) => Err(e)
      case Ok(x) =>
        match Collect(rs[1..])
        case Err(e) => Err(e)
        case Ok(xs) => Ok([x] + xs)
  }

  /** Collecting a concatenation: the first part's results, then the
      second's, and the first exception wins. */
  lemma {:induction false} CollectAppend<T, E>(a: seq<Result<T, E>>, b: seq<Result<T, E>>)
    ensures Collect(a + b) ==
      match Collect(a)
      case Err(e) => Err(e)
      case Ok(x) =>
        match Collect(b)
        case Err(e) => Err(e)
        case Ok(y) => Ok(x + y)
  {
    if |a| == 0 {
      assert a + b == b;
      if Collect(b).Ok? {
        assert [] + Collect(b).value == Collect(b).value;
      }
    } else {
      assert (a + b)[0] == a[0];
      assert (a + b)[1..] == a[1..] + b;
      CollectAppend(a[1..], b);
      match a[0]
      case Err(_) =>
      case Ok(x) =>
        match Collect(a[1..])
        case Err(_) =>
        case Ok(xs) =>
          match Collect(b)
          case Err(_) =>
          case Ok(ys) =>
            assert [x] + (xs + ys) == [x] + xs + ys;
    }
  }

  /** `xs.map(f)` for a function that cannot throw. */
  function Map<A, B>(f: A -> B, xs: seq<A>): (ys: seq<B>)
    ensures |ys| == |xs| && forall k :: 0 <= k < |xs| ==> ys[k] == f(xs[k])
  {
    seq(|xs|, k requires 0 <= k < |xs| => f(xs[k]))
  }

  /** Mapping a concatenation maps each part. */
  lemma MapAppend<A, B>(f: A -> B, a: seq<A>, b: seq<A>)
    ensures Map(f, a + b) == Map(f, a) + Map(f, b)
  {
    var l, r := Map(f, a + b), Map(f, a) + Map(f, b);
    forall k | 0 <= k < |l|
      ensures l[k] == r[k]
    {
      if k < |a| {
        assert (a + b)[k] == a[k];
      } else {
        assert (a + b)[k] == b[k - |a|];
      }
    }
  }

  /** `parse_line` applied to every line. */
  function ParseEach(lines: seq<string>): (rs: seq<Result<Record, JsError>>)
    ensures |rs| == |lines| && forall k :: 0 <= k < |lines| ==> rs[k] == ParseLine(lines[k])
  {
    Map(ParseLine, lines)
  }

  /** `lines.map(parse_line)` with `parse_line` reachable. */
  function ParseLines(lines: seq<string>): Result<seq<Record>, JsError>
  {
    Collect(ParseEach(lines))
  }

  lemma CollectSingle<T, E>(r: Result<T, E>)
    ensures Collect([r]) == match r
      case Err(e) => Err(e)
      case Ok(x) => Ok([x])
  {
    assert [r][1..] == [];
    assert Collect([r][1..]) == Ok([]);
    match r
    case Err(e) =>
    case Ok(x) => assert [x] + [] == [x];
  }

  /** A single line parses to its one record, or fails as that line does. */
  lemma ParseLinesSingle(line: string)
    ensures ParseLines([line]) == match ParseLine(line)
      case Err(e) => Err(e)
      case Ok(rec) => Ok([rec])
  {
    assert ParseEach([line]) == [ParseLine(line)];
    CollectSingle(ParseLine(line));
  }

  /** What `parseRest()` gives for a queue without a newline. */
  lemma ParseRestOfOneLine(q: string)
    requires NoNewline(q)
    ensures ParseLines(Split(q)) == match ParseLine(q)
      case Err(e) => Err(e)
      case Ok(rec) => Ok([rec])
  {
    SplitOfNoNewline(q);
    ParseLinesSingle(q);
  }

  /** One record per line, in order, each carrying its line, unless some
      line does not match; then the first such line's TypeError escapes. */
  lemma ParseLinesMeaning(lines: seq<string>)
    ensures ParseLines(lines).Ok? <==> forall k :: 0 <= k < |lines| ==> ParseLine(lines[k]).Ok?
    ensures ParseLines(lines).Ok? ==>
      var recs := ParseLines(lines).value;
      |recs| == |lines| && forall k :: 0 <= k < |lines| ==> Ok(recs[k]) == ParseLine(lines[k]) && recs[k].line == lines[k]
    ensures ParseLines(lines).Err? ==> ParseLines(lines).error.kind == TypeError
  {
    var rs := ParseEach(lines);
    if Collect(rs).Err? {
      var k :| 0 <= k < |rs| && rs[k] == Err(Collect(rs).error);
      ParseLineMeaning(lines[k]);
    }
  }

  /** Parsing the lines of two texts one after the other is parsing all
      their lines at once. */
  lemma ParseLinesAppend(a: seq<string>, b: seq<string>)
    ensures ParseLines(a + b) ==
      match ParseLines(a)
      case Err(e) => Err(e)
      case Ok(x) =>
        match ParseLines(b)
        case Err(e) => Err(e)
        case Ok(y) => Ok(x + y)
  {
    MapAppend(ParseLine, a, b);
    CollectAppend(ParseEach(a), ParseEach(b));
  }

  /** What `parse()` does to a queue holding `s`: the complete lines and the
      new queue, the unterminated tail. */
  function CutLines(s: string): (seq<string>, string)
  {
    var parts := Split(s);
    (AllButLast(parts), Last(parts))
  }

  /** Nothing is lost: the complete lines, each with its newline, and then
      the new queue are the old queue; no line and no kept tail holds a
      newline. */
  lemma CutLinesLosesNothing(s: string)
    ensures var (lines, rest) := CutLines(s);
      && s == Terminated(lines) + rest
      && AllNoNewline(lines) && NoNewline(rest)
      && |lines| == CountNewlines(s)
  {
    NothingLost(s);
    SplitNoNewline(s);
    SplitCount(s);
  }

  /** The output handler of a run, fed chunks one at a time starting from
      queue `q`: each chunk is queued, and `parse()` is called only when
      `countLines() > 1`, that is, when the queue holds a newline. The lines
      handed out over all the calls, and the queue left at the end. */
  function Feed(q: string, chunks: seq<string>): (seq<string>, string)
    decreases |chunks|
  {
    if |chunks| == 0 then ([], q)
    else
      var t := q + chunks[0];
      if CountNewlines(t) + 1 <= 1 then Feed(t, chunks[1..])
      else
        var (lines, rest) := CutLines(t);
        var (more, last) := Feed(rest, chunks[1..]);
        (lines + more, last)
  }

  /** Chunk boundaries do not matter: however the output is cut into chunks,
      even in the middle of a line, the lines handed out and the tail kept
      are those of parsing the whole text once. The queue starts, as
      `parse()` always leaves it, without a newline. */
  lemma {:induction false} FeedIndependentOfChunks(q: string, chunks: seq<string>)
    requires NoNewline(q)
    ensures Feed(q, chunks) == CutLines(q + Concat(chunks))
    decreases |chunks|
  {
    if |chunks| == 0 {
      assert q + Concat(chunks) == q;
      SplitOfNoNewline(q);
    } else {
      var t := q + chunks[0];
      assert q + Concat(chunks) == t + Concat(chunks[1..]);
      if CountNewlines(t) == 0 {
        NoNewlineOfCount(t);
        FeedIndependentOfChunks(t, chunks[1..]);
      } else {
        var (lines, rest) := CutLines(t);
        CutLinesLosesNothing(t);
        FeedIndependentOfChunks(rest, chunks[1..]);
        SplitAppend(t, Concat(chunks[1..]));
        var parts := Split(rest + Concat(chunks[1..]));
        assert Split(t + Concat(chunks[1..])) == lines + parts;
        assert AllButLast(lines + parts) == lines + AllButLast(parts);
      }
    }
  }

  /** Text without a newline counts none. */
  lemma {:induction false} NoNewlineOfCount(s: string)
    requires CountNewlines(s) == 0
    ensures NoNewline(s)
  {
    if |s| > 0 {
      NoNewlineOfCount(s[1..]);
      assert forall i :: 1 <= i < |s| ==> s[i] == s[1..][i - 1];
    }
  }

  /** `ExecParser` with its queue field. The calls to `parse_line` are
      modelled as `this.parse_line`, the evident intent; `ParseAsWritten`
      and `ParseRestAsWritten` model the unqualified call the code makes. */
  class ExecParser {
    var queue: Queue

    constructor ()
      ensures queue == Text("")
    {
      queue := Text("");
    }

    /** `countLines()`: one more than the number of newlines in the queue. */
    function CountLines(): (r: Result<nat, JsError>)
      reads this
      ensures queue.Text? ==> r == Ok(CountNewlines(queue.s) + 1)
      ensures queue.EmptyArray? ==> r == Err(NotAFunction())
    {
      match queue
      case Text(s) =>
        SplitCount(s);
        Ok(|Split(s)|)
      case EmptyArray => Err(NotAFunction())
    }

    /** `addToQueue(data)`: the chunk is appended; an emptied queue becomes
        the chunk itself. */
    method AddToQueue(data: string)
      modifies this
      ensures queue == Text(QueueString(old(queue)) + data)
    {
      queue := Text(QueueString(queue) + data);
    }

    /** `parse()`: the complete lines are parsed and the tail is kept. The
        queue is replaced before the lines are parsed, so a failing line
        still leaves the tail behind. */
    method Parse() returns (r: Result<seq<Record>, JsError>)
      modifies this
      ensures old(queue).EmptyArray? ==> r == Err(NotAFunction()) && queue == old(queue)
      ensures old(queue).Text? ==>
        && queue == Text(CutLines(old(queue).s).1)
        && r == ParseLines(CutLines(old(queue).s).0)
    {
      match queue
      case EmptyArray =>
        r := Err(NotAFunction());
      case Text(s) =>
        var lines := Split(s);
        queue := Text(Last(lines));
        r := ParseLines(AllButLast(lines));
    }

    /** `parse()` as written: `lines.map(parse_line)` names a `parse_line`
        that is not in scope, so after the queue has been replaced by the
        tail, the call throws a ReferenceError and the complete lines are
        gone. */
    method ParseAsWritten() returns (r: Result<seq<Record>, JsError>)
      modifies this
      ensures old(queue).EmptyArray? ==> r == Err(NotAFunction()) && queue == old(queue)
      ensures old(queue).Text? ==>
        && queue == Text(CutLines(old(queue).s).1)
        && r == Err(Unbound())
    {
      match queue
      case EmptyArray =>
        r := Err(NotAFunction());
      case Text(s) =>
        var lines := Split(s);
        queue := Text(Last(lines));
        r := Err(Unbound());
    }

    /** `parseRest()`: every segment, the unterminated tail included, is
        parsed, and the queue is set to the empty array. */
    method ParseRest() returns (r: Result<seq<Record>, JsError>)
      modifies this
      ensures old(queue).EmptyArray? ==> r == Err(NotAFunction()) && queue == old(queue)
      ensures old(queue).Text? ==> queue == EmptyArray && r == ParseLines(Split(old(queue).s))
    {
      match queue
      case EmptyArray =>
        r := Err(NotAFunction());
      case Text(s) =>
        var lines := Split(s);
        queue := EmptyArray;
        r := ParseLines(lines);
    }

    /** `parseRest()` as written: the queue is emptied, then the unbound
        `parse_line` throws. */
    method ParseRestAsWritten() returns (r: Result<seq<Record>, JsError>)
      modifies this
      ensures old(queue).EmptyArray? ==> r == Err(NotAFunction()) && queue == old(queue)
      ensures old(queue).Text? ==> queue == EmptyArray && r == Err(Unbound())
    {
      match queue
      case EmptyArray =>
        r := Err(NotAFunction());
      case Text(s) =>
        queue := EmptyArray;
        r := Err(Unbound());
    }
  }

  function Unbound(): JsError
  {
    JsError(ReferenceError, "parse_line is not defined")
  }

  /** As written, a `parse()` over a queue holding a complete line hands out
      nothing and drops that line: it is neither returned nor kept. */
  lemma ParseAsWrittenDropsLines(s: string)
    requires CountNewlines(s) >= 1
    ensures var (lines, rest) := CutLines(s);
      |lines| >= 1 && |rest| < |s|
  {
    CutLinesLosesNothing(s);
    var (lines, rest) := CutLines(s);
    assert |Terminated(lines)| >= 1;
  }

  /** With the corrected call, lines written in the log format parse into
      a record each, in order, every record carrying its line and groups. */
  lemma ParseLinesOfFormatted(gs: seq<Groups>)
    requires forall k :: 0 <= k < |gs| ==> WellFormed(gs[k])
    ensures ParseLines(FormatAll(gs)) == Ok(ToRecords(gs))
  {
    var lines := FormatAll(gs);
    forall k | 0 <= k < |gs|
      ensures ParseEach(lines)[k] == Ok(ToRecords(gs)[k])
    {
      ParseFormatted(gs[k]);
    }
    var r := Collect(ParseEach(lines));
    assert r.value == ToRecords(gs);
  }

  function FormatAll(gs: seq<Groups>): (r: seq<string>)
    ensures |r| == |gs| && forall k :: 0 <= k < |gs| ==> r[k] == Format(gs[k])
  {
    seq(|gs|, k requires 0 <= k < |gs| => Format(gs[k]))
  }

  function ToRecords(gs: seq<Groups>): (r: seq<Record>)
    ensures |r| == |gs| && forall k :: 0 <= k < |gs| ==> r[k] == ToRecord(Format(gs[k]), gs[k])
  {
    seq(|gs|, k requires 0 <= k < |gs| => ToRecord(Format(gs[k]), gs[k]))
  }

  /** A formatted log line is a single line. */
  lemma FormatNoNewline(g: Groups)
    requires WellFormed(g)
    ensures NoNewline(Format(g))
  {
    assert NoNewline(g.time) && NoNewline(" ");
    assert NoNewline(g.mode) && NoNewline("[");
    assert NoNewline(g.submodule) && NoNewline("]: ");
    assert NoNewline(g.log);
    NoNewlineConcat(g.submodule, "]: ");
    NoNewlineConcat(g.submodule + "]: ", g.log);
    NoNewlineConcat(g.mode, "[");
    NoNewlineConcat(g.mode + "[", SubmoduleText(g.submodule, g.log));
    NoNewlineConcat(g.time, " ");
    NoNewlineConcat(g.time + " ", TokenText(g.mode, g.submodule, g.log));
  }

  lemma NoNewlineConcat(a: string, b: string)
    requires NoNewline(a) && NoNewline(b)
    ensures NoNewline(a + b)
  {
    forall i | 0 <= i < |a + b|
      ensures (a + b)[i] != NL
    {
      if i >= |a| {
        assert (a + b)[i] == b[i - |a|];
      }
    }
  }

  /** The parser's block test, for any number of well-formed log lines
      joined by newlines with none after the last: `countLines()` counts
      them all, and `parse()` hands back a record for each line but the
      last, which stays queued. */
  lemma ParseBlock(gs: seq<Groups>)
    requires |gs| >= 1 && forall k :: 0 <= k < |gs| ==> WellFormed(gs[k])
    ensures var text := Join(FormatAll(gs));
      var n := |gs|;
      && CountNewlines(text) + 1 == n
      && CutLines(text) == (FormatAll(gs[..n - 1]), Format(gs[n - 1]))
      && ParseLines(CutLines(text).0) == Ok(ToRecords(gs[..n - 1]))
  {
    var lines := FormatAll(gs);
    var n := |gs|;
    forall k | 0 <= k < n
      ensures NoNewline(lines[k])
    {
      FormatNoNewline(gs[k]);
    }
    JoinThenSplit(lines);
    SplitCount(Join(lines));
    assert AllButLast(lines) == FormatAll(gs[..n - 1]);
    ParseLinesOfFormatted(gs[..n - 1]);
  }
}
