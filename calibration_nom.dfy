/** The nom reading of the calibration document of 2023 day 1, shared by
    its nom solvers: `separated_list1(line_ending, alphanumeric1)`, whose
    remaining input is dropped. */
module CalibrationNom {
  import opened Outcome
  import opened Text
  import opened Nom

  /** A line as `alphanumeric1` reads it: one or more ASCII letters and
      digits. */
  predicate AlphanumericLine(s: string) {
    s != [] && forall i :: 0 <= i < |s| ==> IsAlphanumeric(s[i])
  }

  predicate AlphanumericLines(lines: seq<string>) {
    forall i :: 0 <= i < |lines| ==> AlphanumericLine(lines[i])
  }

  /** The loop of `separated_list1` after its first line: a line ending and
      a line, again and again; when either is missing it stops before the
      line ending. */
  function MoreLines(lines: seq<string>, input: string): (r: Parsed<seq<string>>)
    ensures |r.value| >= |lines|
    ensures AlphanumericLines(lines) ==> AlphanumericLines(r.value)
    decreases |input|
  {
    match LineEnding(input)
    case None => Parsed(lines, input)
    case Some(after) =>
      match Alphanumeric1(after)
      case None => Parsed(lines, input)
      case Some(line) => MoreLines(lines + [line.value], line.rest)
  }

  /** `separated_list1(line_ending, alphanumeric1)`: one line or more. */
  function NomLines(input: string): (r: Option<Parsed<seq<string>>>)
    ensures r.None? <==> input == [] || !IsAlphanumeric(input[0])
    ensures r.Some? ==> r.value.value != [] && AlphanumericLines(r.value.value)
  {
    match Alphanumeric1(input)
    case None => None
    case Some(line) => Some(MoreLines([line.value], line.rest))
  }

  predicate StartsLine(s: string) {
    s != [] && IsAlphanumeric(s[0])
  }

  /** What may follow the last line read: neither a line nor a line ending
      and a line. A blank line is such an end: the lines after it are not
      read. */
  predicate LinesEnd(rest: string) {
    && !StartsLine(rest)
    && !(|rest| > 0 && rest[0] == '\n' && StartsLine(rest[1..]))
    && !(|rest| > 1 && rest[..2] == "\r\n" && StartsLine(rest[2..]))
  }

  lemma MoreLinesStep(acc: seq<string>, input: string, after: string, line: string, rest: string)
    requires LineEnding(input) == Some(after) && Alphanumeric1(after) == Some(Parsed(line, rest))
    ensures MoreLines(acc, input) == MoreLines(acc + [line], rest)
  {
  }

  lemma MoreLinesStop(acc: seq<string>, rest: string)
    requires LinesEnd(rest)
    ensures MoreLines(acc, rest) == Parsed(acc, rest)
  {
    match LineEnding(rest)
    case None =>
    case Some(after) =>
      if Tag("\n", rest).Some? {
        assert rest == "\n" + after;
        assert rest[1..] == after;
      } else {
        assert rest == "\r\n" + after;
        assert rest[..2] == "\r\n" && rest[2..] == after;
      }
  }

  lemma AlphanumericLinesTail(lines: seq<string>)
    requires lines != [] && AlphanumericLines(lines)
    ensures AlphanumericLine(lines[0]) && AlphanumericLines(lines[1..])
  {
    assert forall i :: 0 <= i < |lines| - 1 ==> lines[1..][i] == lines[i + 1];
  }

  lemma ConsLines(acc: seq<string>, lines: seq<string>)
    requires lines != []
    ensures acc + [lines[0]] + lines[1..] == acc + lines
  {
    assert [lines[0]] + lines[1..] == lines;
  }

  /** The loop reads a line ending and a line for each of the lines. */
  lemma {:induction false} MoreLinesOf(acc: seq<string>, lines: seq<string>, rest: string)
    requires lines != [] && AlphanumericLines(lines) && LinesEnd(rest)
    ensures MoreLines(acc, "\n" + (Join(lines, "\n") + rest)) == Parsed(acc + lines, rest)
    decreases |lines|
  {
    var body := Join(lines, "\n") + rest;
    LineEndingOf(body);
    if |lines| == 1 {
      JoinOnly(lines, "\n", rest);
      Alphanumeric1Of(lines[0], rest);
      MoreLinesStep(acc, "\n" + body, body, lines[0], rest);
      MoreLinesStop(acc + [lines[0]], rest);
      assert acc + [lines[0]] == acc + lines;
    } else {
      var after := "\n" + (Join(lines[1..], "\n") + rest);
      assert body == lines[0] + after by {
        JoinFirst(lines, "\n", rest);
      }
      AlphanumericLinesTail(lines);
      Alphanumeric1Of(lines[0], after);
      MoreLinesStep(acc, "\n" + body, body, lines[0], after);
      MoreLinesOf(acc + [lines[0]], lines[1..], rest);
      ConsLines(acc, lines);
    }
  }

  /** Lines joined by '\n' read back as themselves, whatever ends them. */
  lemma NomLinesOf(lines: seq<string>, rest: string)
    requires lines != [] && AlphanumericLines(lines) && LinesEnd(rest)
    ensures NomLines(Join(lines, "\n") + rest) == Some(Parsed(lines, rest))
  {
    if |lines| == 1 {
      JoinOnly(lines, "\n", rest);
      Alphanumeric1Of(lines[0], rest);
      MoreLinesStop([lines[0]], rest);
      assert [lines[0]] == lines;
    } else {
      var after := "\n" + (Join(lines[1..], "\n") + rest);
      assert Join(lines, "\n") + rest == lines[0] + after by {
        JoinFirst(lines, "\n", rest);
      }
      Alphanumeric1Of(lines[0], after);
      AlphanumericLinesTail(lines);
      MoreLinesOf([lines[0]], lines[1..], rest);
      assert [lines[0]] + lines[1..] == lines;
    }
  }
}
