/** `ExecParser.parse_line`: one line of the binary's log output turned into
    a record by the pattern

        (\d{2}:\d{2}:\d{2}\.\d{3}) (\w*)\[([\w-]*)\]: (.*)

    searched for anywhere in the line (the pattern is not anchored), with
    JavaScript's ASCII `\d` and `\w` and a `.` that stops at a line
    terminator. At a given start position the match is unique: `\w*` and
    `[\w-]*` cannot give back a character that would let `[` or `]` match,
    and `(.*)` takes everything up to the first line terminator. So the
    matcher below reads the pattern piece by piece, each piece taking the
    longest run its class allows, and the search returns the match at the
    leftmost position where one exists. */
module LogLine {
  import opened Js

  predicate IsDigit(c: char) { '0' <= c <= '9' }

  predicate IsWordChar(c: char)
  {
    'a' <= c <= 'z' || 'A' <= c <= 'Z' || IsDigit(c) || c == '_'
  }

  predicate IsLineTerminator(c: char)
  {
    c == '\n' || c == '\r' || c == '\U{2028}' || c == '\U{2029}'
  }

  /** The character classes of the pattern: `\d`, `\w`, `[\w-]` and `.`. */
  datatype Class = Digit | Word | WordOrDash | NotTerminator

  predicate In(c: char, cls: Class)
  {
    match cls
    case Digit => IsDigit(c)
    case Word => IsWordChar(c)
    case WordOrDash => IsWordChar(c) || c == '-'
    case NotTerminator => !IsLineTerminator(c)
  }

  predicate All(s: string, cls: Class)
  {
    forall i :: 0 <= i < |s| ==> In(s[i], cls)
  }

  /** `\d{2}:\d{2}:\d{2}\.\d{3}` */
  predicate IsStamp(t: string)
  {
    && |t| == 12
    && IsDigit(t[0]) && IsDigit(t[1]) && t[2] == ':'
    && IsDigit(t[3]) && IsDigit(t[4]) && t[5] == ':'
    && IsDigit(t[6]) && IsDigit(t[7]) && t[8] == '.'
    && IsDigit(t[9]) && IsDigit(t[10]) && IsDigit(t[11])
  }

  /** What follows `(.*)`: the end of the text or a line terminator. */
  predicate Bounded(rest: string)
  {
    |rest| == 0 || IsLineTerminator(rest[0])
  }

  /** The four groups of the pattern. */
  datatype Groups = Groups(time: string, mode: string, submodule: string, log: string)

  /** The groups can be what the pattern captures. */
  predicate WellFormed(g: Groups)
  {
    IsStamp(g.time) && All(g.mode, Word) && All(g.submodule, WordOrDash) && All(g.log, NotTerminator)
  }

  /** The text a match occupies: `time mode[submodule]: log`. */
  function Format(g: Groups): string
  {
    g.time + " " + TokenText(g.mode, g.submodule, g.log)
  }

  function TokenText(mode: string, submodule: string, log: string): string
  {
    mode + "[" + SubmoduleText(submodule, log)
  }

  function SubmoduleText(submodule: string, log: string): string
  {
    submodule + "]: " + log
  }

  /** The length of the longest prefix of `t` whose characters are in `cls`. */
  function Span(t: string, cls: Class): (n: nat)
    ensures n <= |t| && All(t[..n], cls)
    ensures n < |t| ==> !In(t[n], cls)
  {
    if |t| == 0 || !In(t[0], cls) then 0
    else
      var n := 1 + Span(t[1..], cls);
      assert t[..n] == [t[0]] + t[1..][..n - 1];
      n
  }

  /** A run of `cls` followed by the end or a character outside it is
      exactly the span. */
  lemma {:induction false} SpanOf(a: string, b: string, cls: Class)
    requires All(a, cls)
    requires |b| == 0 || !In(b[0], cls)
    ensures Span(a + b, cls) == |a|
  {
    if |a| == 0 {
      assert a + b == b;
    } else {
      assert (a + b)[0] == a[0];
      assert (a + b)[1..] == a[1..] + b;
      SpanOf(a[1..], b, cls);
    }
  }

  /** Cutting `v` at `k` and then taking `n` more characters. */
  lemma SliceGlue(v: string, k: nat, n: nat)
    requires k + n <= |v|
    ensures v[..k + n] == v[..k] + v[k..][..n]
    ensures v[k + n..] == v[k..][n..]
  {
  }

  /** `\]: (.*)` at the start of `u`: the message. */
  function Message(u: string): (r: Option<string>)
    ensures r.Some? ==> All(r.value, NotTerminator)
    ensures r.Some? ==>
      var n := |"]: " + r.value|; n <= |u| && u[..n] == "]: " + r.value && Bounded(u[n..])
  {
    if |u| >= 3 && u[0] == ']' && u[1] == ':' && u[2] == ' ' then
      var log := u[3..][..Span(u[3..], NotTerminator)];
      SliceGlue(u, 3, |log|);
      assert u[..3] == "]: ";
      Some(log)
    else None
  }

  lemma MessageOf(log: string, rest: string)
    requires All(log, NotTerminator) && Bounded(rest)
    ensures Message("]: " + log + rest) == Some(log)
  {
    var u := "]: " + log + rest;
    assert u[3..] == log + rest;
    SpanOf(log, rest, NotTerminator);
    assert (log + rest)[..|log|] == log;
  }

  /** `([\w-]*)\]: (.*)` at the start of `u`: the submodule and the message. */
  function Submodule(u: string): (r: Option<(string, string)>)
    ensures r.Some? ==> All(r.value.0, WordOrDash) && All(r.value.1, NotTerminator)
    ensures r.Some? ==>
      var text := SubmoduleText(r.value.0, r.value.1);
      |text| <= |u| && u[..|text|] == text && Bounded(u[|text|..])
  {
    var m := Span(u, WordOrDash);
    match Message(u[m..])
    case None => None
    case Some(log) =>
      var n := |"]: " + log|;
      assert u[..m + n] == SubmoduleText(u[..m], log) && u[m + n..] == u[m..][n..] by {
        SliceGlue(u, m, n);
      }
      Some((u[..m], log))
  }

  lemma SubmoduleOf(sub: string, log: string, rest: string)
    requires All(sub, WordOrDash) && All(log, NotTerminator) && Bounded(rest)
    ensures Submodule(SubmoduleText(sub, log) + rest) == Some((sub, log))
  {
    var u := SubmoduleText(sub, log) + rest;
    var m := |sub|;
    var tail := "]: " + log + rest;
    assert Span(u, WordOrDash) == m && u[m..] == tail && u[..m] == sub by {
      assert u == sub + tail;
      SpanOf(sub, tail, WordOrDash);
    }
    assert Message(tail) == Some(log) by {
      MessageOf(log, rest);
    }
  }

  /** `(\w*)\[([\w-]*)\]: (.*)` at the start of `v`. */
  function Token(v: string): (r: Option<(string, string, string)>)
    ensures r.Some? ==>
      All(r.value.0, Word) && All(r.value.1, WordOrDash) && All(r.value.2, NotTerminator)
    ensures r.Some? ==>
      var text := TokenText(r.value.0, r.value.1, r.value.2);
      |text| <= |v| && v[..|text|] == text && Bounded(v[|text|..])
  {
    var k := Span(v, Word);
    if k < |v| && v[k] == '[' then
      match Submodule(v[k + 1..])
      case None => None
      case Some((sub, log)) =>
        GlueToken(v, k, sub, log);
        Some((v[..k], sub, log))
    else None
  }

  /** The bracket at `k` and the submodule text after it make up the
      token text at the start of `v`. */
  lemma GlueToken(v: string, k: nat, sub: string, log: string)
    requires k < |v| && v[k] == '['
    requires var text := SubmoduleText(sub, log);
      |text| <= |v[k + 1..]| && v[k + 1..][..|text|] == text && Bounded(v[k + 1..][|text|..])
    ensures var text := TokenText(v[..k], sub, log);
      |text| <= |v| && v[..|text|] == text && Bounded(v[|text|..])
  {
    var n := |SubmoduleText(sub, log)|;
    SliceGlue(v, k + 1, n);
    assert v[..k + 1] == v[..k] + "[";
  }

  lemma TokenOf(mode: string, sub: string, log: string, rest: string)
    requires All(mode, Word) && All(sub, WordOrDash) && All(log, NotTerminator) && Bounded(rest)
    ensures Token(TokenText(mode, sub, log) + rest) == Some((mode, sub, log))
  {
    var v := TokenText(mode, sub, log) + rest;
    var k := |mode|;
    var u := SubmoduleText(sub, log) + rest;
    assert Span(v, Word) == k && v[k] == '[' && v[k + 1..] == u && v[..k] == mode by {
      var tail := "[" + u;
      assert v == mode + tail;
      SpanOf(mode, tail, Word);
    }
    assert Submodule(u) == Some((sub, log)) by {
      SubmoduleOf(sub, log, rest);
    }
  }

  /** The whole pattern at the start of `t`. */
  function MatchPrefix(t: string): (r: Option<Groups>)
    ensures r.Some? ==> Occupies(t, r.value)
  {
    if |t| >= 13 && IsStamp(t[..12]) && t[12] == ' ' then
      match Token(t[13..])
      case None => None
      case Some((mode, sub, log)) =>
        GluePrefix(t, mode, sub, log);
        Some(Groups(t[..12], mode, sub, log))
    else None
  }

  /** The stamp, the space at 12 and the token text after it make up the
      text of a whole match at the start of `t`. */
  lemma GluePrefix(t: string, mode: string, sub: string, log: string)
    requires |t| >= 13 && t[12] == ' '
    requires var text := TokenText(mode, sub, log);
      |text| <= |t[13..]| && t[13..][..|text|] == text && Bounded(t[13..][|text|..])
    ensures var text := Format(Groups(t[..12], mode, sub, log));
      |text| <= |t| && t[..|text|] == text && Bounded(t[|text|..])
  {
    var n := |TokenText(mode, sub, log)|;
    SliceGlue(t, 13, n);
    assert t[..13] == t[..12] + " ";
  }

  /** Wherever a well-formed match's text stands, followed by the end of the
      text or a line terminator, the pattern reads exactly those groups. */
  lemma MatchPrefixOf(g: Groups, rest: string)
    requires WellFormed(g) && Bounded(rest)
    ensures MatchPrefix(Format(g) + rest) == Some(g)
  {
    var t := Format(g) + rest;
    assert t == g.time + (" " + TokenText(g.mode, g.submodule, g.log) + rest);
    assert t[..12] == g.time && t[12] == ' ';
    assert t[13..] == TokenText(g.mode, g.submodule, g.log) + rest;
    TokenOf(g.mode, g.submodule, g.log, rest);
  }

  /** `t` starts with the text of a match with groups `g`, followed by the
      end of `t` or a line terminator. */
  predicate Occupies(t: string, g: Groups)
  {
    var n := |Format(g)|;
    WellFormed(g) && n <= |t| && t[..n] == Format(g) && Bounded(t[n..])
  }

  /** The match of the pattern that starts exactly at `i`, if there is one. */
  function MatchAt(s: string, i: nat): Option<Groups>
    requires i <= |s|
  {
    MatchPrefix(s[i..])
  }

  /** What the pattern reads at `i` stands at `i` in `s`. */
  lemma MatchAtOccupies(s: string, i: nat)
    requires i <= |s|
    ensures MatchAt(s, i).Some? ==> Occupies(s[i..], MatchAt(s, i).value)
  {
  }

  /** The converse: wherever a match's text stands, the pattern matches
      there and yields exactly those groups. */
  lemma OccupiesMatches(s: string, i: nat, g: Groups)
    requires i <= |s| && Occupies(s[i..], g)
    ensures MatchAt(s, i) == Some(g)
  {
    var t := s[i..];
    var n := |Format(g)|;
    assert t == Format(g) + t[n..];
    MatchPrefixOf(g, t[n..]);
  }

  /** The pattern's result at every start position `0..|s|`. */
  function MatchesOf(s: string): (ms: seq<Option<Groups>>)
    ensures |ms| == |s| + 1
    ensures forall j :: 0 <= j <= |s| ==> ms[j] == MatchAt(s, j)
  {
    seq(|s| + 1, j requires 0 <= j <= |s| => MatchAt(s, j))
  }

  /** The first result at or after `i` that is a match, with its position. */
  function FirstFrom<G>(ms: seq<Option<G>>, i: nat): Option<(nat, G)>
    requires i <= |ms|
    decreases |ms| - i
  {
    if i == |ms| then None
    else match ms[i]
      case Some(g) => Some((i, g))
      case None => FirstFrom(ms, i + 1)
  }

  /** The search finds nothing exactly when no position at or after `i`
      matches, and otherwise the match at the leftmost position. */
  lemma {:induction false} FirstFromLeftmost<G>(ms: seq<Option<G>>, i: nat)
    requires i <= |ms|
    ensures FirstFrom(ms, i).None? <==> forall j :: i <= j < |ms| ==> ms[j].None?
    ensures FirstFrom(ms, i).Some? ==>
      var (p, g) := FirstFrom(ms, i).value;
      && i <= p < |ms| && ms[p] == Some(g)
      && forall j :: i <= j < p ==> ms[j].None?
    decreases |ms| - i
  {
    if i < |ms| && ms[i].None? {
      FirstFromLeftmost(ms, i + 1);
    }
  }

  /** The object `parse_line` returns. The token group is called
      `debug_mode` in the code; `debugLevel` is either the string of the
      token's first digit run or the number 0. */
  datatype Record = Record(
    line: string,
    time: string,
    debugMode: string,
    debugLevel: Value,
    submodule: string,
    log: string)

  /** The first maximal run of digits at or after `i`, if there is a digit. */
  function DigitsFrom(t: string, i: nat): (r: Option<string>)
    requires i <= |t|
    ensures r.None? <==> forall k :: i <= k < |t| ==> !IsDigit(t[k])
    ensures r.Some? ==> |r.value| >= 1 && All(r.value, Digit)
    ensures r.Some? ==>
      exists p :: i <= p < |t| && (forall k :: i <= k < p ==> !IsDigit(t[k]))
        && r.value == t[p..][..Span(t[p..], Digit)]
  {
    var p := FirstDigit(t, i);
    if p == |t| then None else Some(t[p..][..Span(t[p..], Digit)])
  }

  /** The position of the first digit at or after `i`, or `|t|`. */
  function FirstDigit(t: string, i: nat): (p: nat)
    requires i <= |t|
    ensures i <= p <= |t| && forall k :: i <= k < p ==> !IsDigit(t[k])
    ensures p < |t| ==> IsDigit(t[p])
    decreases |t| - i
  {
    if i == |t| || IsDigit(t[i]) then i else FirstDigit(t, i + 1)
  }

  /** `(debug_mode.match(/\d+/) || [0])[0]`: the first digit run of the
      token as a string, or the number 0 when the token has no digit. */
  function Level(mode: string): (r: Value)
    ensures r == Num(0) <==> forall k :: 0 <= k < |mode| ==> !IsDigit(mode[k])
    ensures r != Num(0) ==> r.Str? && |r.s| >= 1 && All(r.s, Digit)
    ensures r != Num(0) ==>
      exists p :: 0 <= p < |mode| && (forall k :: 0 <= k < p ==> !IsDigit(mode[k]))
        && r.s == mode[p..][..Span(mode[p..], Digit)]
  {
    match DigitsFrom(mode, 0)
    case None => Num(0)
    case Some(d) => Str(d)
  }

  function ToRecord(line: string, g: Groups): Record
  {
    Record(line, g.time, g.mode, Level(g.mode), g.submodule, g.log)
  }

  function GroupsOf(rec: Record): Groups
  {
    Groups(rec.time, rec.debugMode, rec.submodule, rec.log)
  }

  /** `parse_line(str)`: the record of the leftmost match. */
  function ParseLine(s: string): Result<Record, JsError>
  {
    match FirstFrom(MatchesOf(s), 0)
    case None => Err(JsError(TypeError, "object null is not iterable (cannot read property Symbol(Symbol.iterator))"))
    case Some((i, g)) => Ok(ToRecord(s, g))
  }

  /** `parse_line` throws a TypeError exactly when the pattern matches
      nowhere in the line, because destructuring the null result of
      `str.match` throws: such a line never becomes a record. Otherwise the
      record holds the line and the groups of the leftmost match, and the
      level read off its token. */
  lemma ParseLineMeaning(s: string)
    ensures ParseLine(s).Err? <==> forall i :: 0 <= i <= |s| ==> MatchAt(s, i).None?
    ensures ParseLine(s).Err? ==> ParseLine(s).error.kind == TypeError
    ensures ParseLine(s).Ok? ==>
      var rec := ParseLine(s).value;
      && rec.line == s && rec.debugLevel == Level(rec.debugMode)
      && (exists i :: 0 <= i <= |s| && Occupies(s[i..], GroupsOf(rec))
            && forall k :: 0 <= k < i ==> MatchAt(s, k).None?)
  {
    var ms := MatchesOf(s);
    FirstFromLeftmost(ms, 0);
    match FirstFrom(ms, 0)
    case None =>
      forall i | 0 <= i <= |s|
        ensures MatchAt(s, i).None?
      {
        assert ms[i] == MatchAt(s, i);
      }
    case Some((i, g)) =>
      var rec := ToRecord(s, g);
      assert ParseLine(s) == Ok(rec);
      assert MatchAt(s, i) == Some(g) by {
        assert ms[i] == MatchAt(s, i);
      }
      assert Occupies(s[i..], GroupsOf(rec)) by {
        MatchAtOccupies(s, i);
      }
      forall k | 0 <= k < i
        ensures MatchAt(s, k).None?
      {
        assert ms[k] == MatchAt(s, k);
      }
  }

  /** A line written in the log format parses back into exactly its parts. */
  lemma ParseFormatted(g: Groups)
    requires WellFormed(g)
    ensures ParseLine(Format(g)) == Ok(ToRecord(Format(g), g))
  {
    var line := Format(g);
    assert line[0..] == line + "";
    MatchPrefixOf(g, "");
    assert line + "" == line;
  }

  /** The groups of the line the parser's tests feed in. */
  function TestGroups(): Groups
  {
    Groups("18:47:04.393", "DBG3", "Fake-GpioCounter", "time_after: 0")
  }

  lemma TestGroupsWellFormed()
    ensures WellFormed(TestGroups())
  {
    assert IsStamp("18:47:04.393");
    assert All("DBG3", Word);
    assert All("Fake-GpioCounter", WordOrDash);
    assert All("time_after: 0", NotTerminator);
  }

  lemma TestLineText()
    ensures Format(TestGroups()) == "18:47:04.393 DBG3[Fake-GpioCounter]: time_after: 0"
  {
    TestTokenText();
    Glue("18:47:04.393 ", "DBG3[Fake-GpioCounter]: time_after: 0");
  }

  lemma Glue(a: string, b: string)
    requires a == "18:47:04.393 " && b == "DBG3[Fake-GpioCounter]: time_after: 0"
    ensures a + b == "18:47:04.393 DBG3[Fake-GpioCounter]: time_after: 0"
  {
  }

  lemma TestTokenText()
    ensures TokenText("DBG3", "Fake-GpioCounter", "time_after: 0") == "DBG3[Fake-GpioCounter]: time_after: 0"
  {
    TestSubmoduleText();
    GlueBracket("DBG3[", SubmoduleText("Fake-GpioCounter", "time_after: 0"));
  }

  lemma TestSubmoduleText()
    ensures SubmoduleText("Fake-GpioCounter", "time_after: 0") == "Fake-GpioCounter]: time_after: 0"
  {
  }

  lemma GlueBracket(a: string, b: string)
    requires a == "DBG3[" && b == "Fake-GpioCounter]: time_after: 0"
    ensures a + b == "DBG3[Fake-GpioCounter]: time_after: 0"
  {
  }

  /** The line the parser's tests feed in: token `DBG3` gives level '3'. */
  lemma TestLineParses()
    ensures ParseLine("18:47:04.393 DBG3[Fake-GpioCounter]: time_after: 0")
      == Ok(Record("18:47:04.393 DBG3[Fake-GpioCounter]: time_after: 0",
                   "18:47:04.393", "DBG3", Str("3"), "Fake-GpioCounter", "time_after: 0"))
  {
    var g := TestGroups();
    TestLineText();
    TestGroupsWellFormed();
    ParseFormatted(g);
    TokenDbg3();
  }

  /** Token `DBG3` gives the string '3'. */
  lemma TokenDbg3()
    ensures Level("DBG3") == Str("3")
  {
    var t := "DBG3";
    assert t[3..] == "3";
    assert Span("3", Digit) == 1 by {
      assert "3"[1..] == "";
    }
    assert "3"[..1] == "3";
    assert DigitsFrom(t, 3) == Some("3");
  }

  /** A token without digits gives the number 0, not a string. */
  lemma TokenWithoutDigits()
    ensures Level("INFO") == Num(0)
  {
  }

  /** An empty line, such as the segment after a trailing newline, does not
      match and so makes `parse_line` throw. */
  lemma EmptyLineThrows()
    ensures ParseLine("").Err?
  {
  }
}
