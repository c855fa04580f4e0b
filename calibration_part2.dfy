/** Part 2 of 2023 day 1, by hand: the first and the last digit or spelled
    digit of each '\n'-separated line, found by scanning the positions of
    the line from either end with `num`. */
module CalibrationPart2 {
  import opened Outcome
  import opened Text
  import opened Calibration
  import opened Seqs

  /** `num(line, i)`: the digit at position i, or else the value of the
      first word of `NUMS` that the rest of the line starts with. */
  function Num(line: string, i: nat): Option<nat>
    requires i < |line|
  {
    ValueAt(DigitsAndWords, line[i..])
  }

  /** `(i..line.len()).find_map(|i| num(line, i))`. */
  function FindFirst(line: string, i: nat): Option<nat>
    requires i <= |line|
    decreases |line| - i
  {
    if i == |line| then None
    else
      match Num(line, i)
      case Some(v) => Some(v)
      case None => FindFirst(line, i + 1)
  }

  /** `(0..j).rev().find_map(|i| num(line, i))`. */
  function FindLast(line: string, j: nat): Option<nat>
    requires j <= |line|
  {
    if j == 0 then None
    else
      match Num(line, j - 1)
      case Some(v) => Some(v)
      case None => FindLast(line, j - 1)
  }

  /** The scan from the left finds the first of the values at positions i
      on. */
  lemma {:induction false} FindFirstFound(line: string, i: nat)
    requires i <= |line|
    ensures FindFirst(line, i).None? <==> FoundBetween(DigitsAndWords, line, i, |line|) == []
    ensures FindFirst(line, i).Some? ==> FindFirst(line, i).value == FoundBetween(DigitsAndWords, line, i, |line|)[0]
    decreases |line| - i
  {
    if i < |line| {
      FindFirstFound(line, i + 1);
    }
  }

  /** The scan from the right finds the last of the values at positions
      before j. */
  lemma {:induction false} FindLastFound(line: string, j: nat)
    requires j <= |line|
    ensures FindLast(line, j).None? <==> FoundBetween(DigitsAndWords, line, 0, j) == []
    ensures FindLast(line, j).Some? ==> FindLast(line, j).value == Last(FoundBetween(DigitsAndWords, line, 0, j))
    decreases j
  {
    if j > 0 {
      FoundBetweenSnoc(DigitsAndWords, line, 0, j - 1);
      FindLastFound(line, j - 1);
    }
  }

  /** The closure of `process`: both `unwrap`s, then `first * 10 + last`. */
  function LineValue(line: string): Result<nat> {
    match FindFirst(line, 0)
    case None => Panic
    case Some(first) =>
      match FindLast(line, |line|)
      case None => Panic
      case Some(last) => Ok(first * 10 + last)
  }

  /** A line's value is its calibration value. */
  lemma LineValueIsCalibration(line: string)
    ensures LineValue(line) == LineCalibration(DigitsAndWords, line)
  {
    FindFirstFound(line, 0);
    FindLastFound(line, |line|);
    if FindFirst(line, 0).Some? && FindLast(line, |line|).Some? {
      CalibrationOf(Found(DigitsAndWords, line), FindFirst(line, 0).value, FindLast(line, |line|).value);
      LineCalibrationOf(DigitsAndWords, line);
    }
  }

  lemma CalibrationOf(vs: seq<nat>, first: nat, last: nat)
    requires vs != [] && vs[0] == first && Last(vs) == last
    ensures Calibrate(vs) == first * 10 + last
  {
  }

  /** `process`: the values of the pieces between the '\n's, added up. */
  function Process(input: string): (r: Result<nat>)
    ensures r == Total(Document(DigitsAndWords, Split(input, "\n")))
  {
    var lines := Split(input, "\n");
    forall i | 0 <= i < |lines| ensures Mapped(LineValue, lines)[i] == Document(DigitsAndWords, lines)[i] {
      LineValueIsCalibration(lines[i]);
    }
    assert Mapped(LineValue, lines) == Document(DigitsAndWords, lines);
    Total(Mapped(LineValue, lines))
  }
}
