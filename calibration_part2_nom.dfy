/** Part 2 of 2023 day 1 with nom: `numbers` reads a value, if any, at each
    position of the line in turn, and the line's value is made from the
    first and the last of them. */
module CalibrationPart2Nom {
  import opened Outcome
  import opened Text
  import opened Nom
  import opened Calibration
  import opened CalibrationNom

  /** The `alt` of `value(k, tag(word))`, tried in order: the position,
      counted from 1, of the first word that the input starts with. */
  function WordValue(input: string, words: seq<string>): Option<nat> {
    if words == [] then None
    else
      match Tag(words[0], input)
      case Some(_) => Some(1)
      case None =>
        match WordValue(input, words[1..])
        case None => None
        case Some(v) => Some(v + 1)
  }

  /** The `alt` finds the spelled digit that starts the input. */
  lemma {:induction false} WordValueIsSpelled(input: string, words: seq<string>)
    ensures WordValue(input, words) == SpelledIn(input, words)
    decreases |words|
  {
    if words != [] {
      assert Tag(words[0], input).Some? <==> StartsWith(input, words[0]);
      WordValueIsSpelled(input, words[1..]);
    }
  }

  /** `char::to_digit(10)`. */
  function ToDigit(c: char): (r: Option<nat>)
    ensures r.Some? <==> IsDigit(c)
    ensures r.Some? ==> r.value == DigitValue(c)
  {
    if IsDigit(c) then Some(DigitValue(c)) else None
  }

  /** `numbers`: the value of a spelled digit starting the input, or else
      of the digit heading it, if any; whichever it finds, `anychar`
      consumes exactly one character, so that words sharing letters, as in
      "eightwo", are both read. It fails only at the end of the input. */
  function Numbers(input: string): (r: Option<Parsed<Option<nat>>>)
    ensures r.None? <==> input == []
    ensures r.Some? ==> r.value.rest == input[1..]
  {
    var res := WordValue(input, Words);
    match AnyChar(input)
    case None => None
    case Some(c) =>
      match res
      case Some(v) => Some(Parsed(Some(v), c.rest))
      case None => Some(Parsed(ToDigit(c.value), c.rest))
  }

  /** Every spelled digit starts with a letter. */
  lemma WordsStartWithLetters()
    ensures forall j :: 0 <= j < |Words| ==> Words[j] != [] && IsAlpha(Words[j][0])
  {
  }

  /** At every position, `numbers` reads the value found there, trying the
      words first where the puzzle's definition tries the digit first:
      both agree, since no word starts with a digit. */
  lemma NumbersIsValueAt(input: string)
    requires input != []
    ensures Numbers(input) == Some(Parsed(ValueAt(DigitsAndWords, input), input[1..]))
  {
    WordValueIsSpelled(input, Words);
    if IsDigit(input[0]) {
      WordsStartWithLetters();
      forall j | 0 <= j < |Words|
        ensures !StartsWith(input, Words[j])
      {
        if |Words[j]| <= |input| {
          assert input[..|Words[j]|][0] == input[0];
        }
      }
    }
  }

  /** `parser`: the `iterator` of `numbers` over the line, its values
      flattened, and the input where it stopped; `finish` succeeds, since
      the only way `numbers` stops is a recoverable error. */
  function Parser(input: string): (r: Parsed<seq<nat>>)
    ensures r.rest == []
    decreases |input|
  {
    match Numbers(input)
    case None => Parsed([], input)
    case Some(p) =>
      var found := match p.value case Some(v) => [v] case None => [];
      var more := Parser(p.rest);
      Parsed(found + more.value, more.rest)
  }

  /** The parser reads the values found at positions i on, left to right. */
  lemma {:induction false} ParserFound(line: string, i: nat)
    requires i <= |line|
    ensures Parser(line[i..]).value == FoundBetween(DigitsAndWords, line, i, |line|)
    decreases |line| - i
  {
    if i < |line| {
      NumbersIsValueAt(line[i..]);
      assert line[i..][1..] == line[i + 1..];
      ParserFound(line, i + 1);
    }
  }

  /** `parse_line`: `expect` panics without a value; otherwise the first
      value times ten plus the last of the others, or plus the first again
      when there are no others. */
  function ParseLine(line: string): Result<nat> {
    var values := Parser(line).value;
    if values == [] then Panic
    else if |values| == 1 then Ok(values[0] * 10 + values[0])
    else Ok(values[0] * 10 + values[|values| - 1])
  }

  /** Every line's value is its calibration value. */
  lemma ParseLineIsCalibration(line: string)
    ensures ParseLine(line) == LineCalibration(DigitsAndWords, line)
  {
    ParserFound(line, 0);
    assert line[0..] == line;
    var vs := Found(DigitsAndWords, line);
    ParseLineOf(line, vs);
    if vs != [] {
      LineCalibrationOf(DigitsAndWords, line);
    }
  }

  lemma ParseLineOf(line: string, vs: seq<nat>)
    requires Parser(line).value == vs
    ensures ParseLine(line) == if vs == [] then Panic else Ok(Calibrate(vs))
  {
  }

  function ParseLines(lines: seq<string>): (rs: seq<Result<nat>>)
    ensures |rs| == |lines| && forall i :: 0 <= i < |lines| ==> rs[i] == ParseLine(lines[i])
  {
    seq(|lines|, i requires 0 <= i < |lines| => ParseLine(lines[i]))
  }

  /** `process`: the lines read by nom, each parsed and their values added
      up; the first `unwrap` panics when there is no line at all. */
  function Process(input: string): (r: Result<nat>)
    ensures NomLines(input).None? ==> r == Panic
    ensures NomLines(input).Some? ==> r == Total(Document(DigitsAndWords, NomLines(input).value.value))
  {
    match NomLines(input)
    case None => Panic
    case Some(parsed) =>
      var lines := parsed.value;
      forall i | 0 <= i < |lines| ensures ParseLines(lines)[i] == Document(DigitsAndWords, lines)[i] {
        ParseLineIsCalibration(lines[i]);
      }
      assert ParseLines(lines) == Document(DigitsAndWords, lines);
      Total(ParseLines(lines))
  }
}
