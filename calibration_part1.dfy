/** Part 1 of 2023 day 1, by hand: the first and the last ASCII digit of
    each '\n'-separated line, combined in `u8` arithmetic. */
module CalibrationPart1 {
  import opened Outcome
  import opened Text
  import opened Calibration
  import opened Seqs

  /** `chars().find(|b| b.is_ascii_digit())`. */
  function FirstDigit(s: string): (r: Option<char>)
    ensures r.Some? ==> IsDigit(r.value)
  {
    if s == [] then None
    else if IsDigit(s[0]) then Some(s[0])
    else FirstDigit(s[1..])
  }

  /** `chars().rev().find(|b| b.is_ascii_digit())`. */
  function LastDigit(s: string): (r: Option<char>)
    ensures r.Some? ==> IsDigit(r.value)
  {
    if s == [] then None
    else if IsDigit(s[|s| - 1]) then Some(s[|s| - 1])
    else LastDigit(s[..|s| - 1])
  }

  /** A `u8` result; in a debug build an out-of-range result panics. */
  function U8(n: int): (r: Result<nat>)
    ensures r.Ok? <==> 0 <= n <= 255
    ensures r.Ok? ==> r.value == n
  {
    if 0 <= n <= 255 then Ok(n) else Panic
  }

  /** The closure of `process`: both `unwrap`s, then
      `(first as u8 - b'0') * 10 + last as u8 - b'0'`, each step in `u8`
      (both characters are ASCII digits, so `as u8` keeps their code). It
      computes the line's calibration value and never overflows. */
  function LineValue(line: string): (r: Result<nat>)
    ensures r == LineCalibration(DigitsOnly, line)
  {
    match FirstDigit(line)
    case None =>
      FirstDigitFound(line, 0);
      Panic
    case Some(first) =>
      match LastDigit(line)
      case None =>
        LastDigitFound(line, |line|);
        assert line[..|line|] == line;
        Panic
      case Some(last) =>
        FirstDigitFound(line, 0);
        LastDigitFound(line, |line|);
        assert line[..|line|] == line;
        match U8(first as int - '0' as int)
        case Panic => Panic
        case Ok(tens) =>
          match U8(tens * 10)
          case Panic => Panic
          case Ok(scaled) =>
            match U8(scaled + last as int)
            case Panic => Panic
            case Ok(sum) => U8(sum - '0' as int)
  }

  /** The first digit of the line from position i on is the first digit
      value found there. */
  lemma {:induction false} FirstDigitFound(line: string, i: nat)
    requires i <= |line|
    ensures FirstDigit(line[i..]).None? <==> FoundBetween(DigitsOnly, line, i, |line|) == []
    ensures FirstDigit(line[i..]).Some? ==> DigitValue(FirstDigit(line[i..]).value) == FoundBetween(DigitsOnly, line, i, |line|)[0]
    decreases |line| - i
  {
    if i < |line| {
      DigitFoundAt(line, i);
      SuffixStep(line, i);
      FirstDigitFound(line, i + 1);
    }
  }

  /** The last digit of the first j characters is the last digit value
      found among them. */
  lemma {:induction false} LastDigitFound(line: string, j: nat)
    requires j <= |line|
    ensures LastDigit(line[..j]).None? <==> FoundBetween(DigitsOnly, line, 0, j) == []
    ensures LastDigit(line[..j]).Some? ==> DigitValue(LastDigit(line[..j]).value) == Last(FoundBetween(DigitsOnly, line, 0, j))
    decreases j
  {
    if j > 0 {
      FoundBetweenSnoc(DigitsOnly, line, 0, j - 1);
      DigitFoundAt(line, j - 1);
      PrefixStep(line, j);
      LastDigitFound(line, j - 1);
    }
  }

  /** `process`: the lines are the pieces between the '\n's (so a final
      '\n' leaves an empty last line, which panics); their values added
      up are the document's value. */
  function Process(input: string): (r: Result<nat>)
    ensures r == Total(Document(DigitsOnly, Split(input, "\n")))
  {
    var lines := Split(input, "\n");
    assert Mapped(LineValue, lines) == Document(DigitsOnly, lines);
    Total(Mapped(LineValue, lines))
  }
}
