/** Part 1 of 2023 day 1 with nom: each line is read as `many1` of
    letters, a run of digits and letters, and the first and the last run
    are parsed as numbers. Which digits an element reads is a parameter:
    `digit1`, as the source has it, reads a whole run of adjacent digits as
    one number; a one-digit parser reads one digit per element, which is
    what the puzzle's definition asks for. */
module CalibrationPart1Nom {
  import opened Outcome
  import opened Text
  import opened Nom
  import opened Calibration
  import opened CalibrationNom
  import opened Seqs

  /** How an element reads its digits: `digit1`, or one digit alone. */
  datatype DigitReader = Digit1Reader | OneDigitReader

  /** The digits an element reads at the head of the input. */
  function ReadDigits(reader: DigitReader, input: string): (r: Option<Parsed<string>>)
    ensures r.None? <==> input == [] || !IsDigit(input[0])
    ensures r.Some? ==> r.value.value != [] && AllDigits(r.value.value) && input == r.value.value + r.value.rest
  {
    match reader
    case Digit1Reader => Digit1(input)
    case OneDigitReader =>
      if input != [] && IsDigit(input[0]) then
        assert input == [input[0]] + input[1..];
        Some(Parsed([input[0]], input[1..]))
      else None
  }

  /** `preceded(alpha0, terminated(digit1, alpha0))`: letters, digits,
      letters; it yields the digits. */
  function Element(reader: DigitReader, input: string): (r: Option<Parsed<string>>)
    ensures r.Some? ==> |r.value.rest| < |input| && r.value.value != [] && AllDigits(r.value.value)
  {
    var before := Alpha0(input);
    match ReadDigits(reader, before.rest)
    case None => None
    case Some(digits) => Some(Parsed(digits.value, Alpha0(digits.rest).rest))
  }

  /** The loop of `many1` after its first element. */
  function ManyElements(reader: DigitReader, runs: seq<string>, input: string): (r: Parsed<seq<string>>)
    ensures |r.value| >= |runs|
    decreases |input|
  {
    match Element(reader, input)
    case None => Parsed(runs, input)
    case Some(e) => ManyElements(reader, runs + [e.value], e.rest)
  }

  /** `nom_parse_line`: one element or more. */
  function NomParseLine(reader: DigitReader, line: string): (r: Option<Parsed<seq<string>>>)
    ensures r.Some? ==> r.value.value != []
  {
    match Element(reader, line)
    case None => None
    case Some(e) => Some(ManyElements(reader, [e.value], e.rest))
  }

  /** The first position from i on that does not hold a letter. */
  function LettersEnd(line: string, i: nat): (e: nat)
    requires i <= |line|
    ensures i <= e <= |line| && (e < |line| ==> !IsAlpha(line[e]))
    ensures forall m :: i <= m < e ==> IsAlpha(line[m])
    decreases |line| - i
  {
    if i == |line| || !IsAlpha(line[i]) then i else LettersEnd(line, i + 1)
  }

  /** The first position from i on that does not hold a digit. */
  function DigitsEnd(line: string, i: nat): (e: nat)
    requires i <= |line|
    ensures i <= e <= |line| && (e < |line| ==> !IsDigit(line[e]))
    ensures forall m :: i <= m < e ==> IsDigit(line[m])
    decreases |line| - i
  {
    if i == |line| || !IsDigit(line[i]) then i else DigitsEnd(line, i + 1)
  }

  /** Where the digits read from the digit at position k end. */
  function ReadEnd(reader: DigitReader, line: string, k: nat): (e: nat)
    requires k < |line|
    ensures k < e <= |line|
  {
    match reader
    case Digit1Reader => if IsDigit(line[k]) then DigitsEnd(line, k) else k + 1
    case OneDigitReader => k + 1
  }

  /** A reading of digits starts at position k: a digit, and with `digit1`
      one that does not continue a run. */
  predicate ReadStartsAt(reader: DigitReader, line: string, k: nat)
    requires k < |line|
  {
    IsDigit(line[k]) && (reader == OneDigitReader || k == 0 || !IsDigit(line[k - 1]))
  }

  /** The digits read from position k, as a sequence of none or one. */
  function ReadAt(reader: DigitReader, line: string, k: nat): seq<string>
    requires k < |line|
  {
    if ReadStartsAt(reader, line, k) then [line[k..ReadEnd(reader, line, k)]] else []
  }

  /** The digits read from the positions i to j - 1, left to right. */
  function ReadBetween(reader: DigitReader, line: string, i: nat, j: nat): seq<string>
    requires i <= j <= |line|
    decreases j - i
  {
    if i == j then [] else ReadAt(reader, line, i) + ReadBetween(reader, line, i + 1, j)
  }

  /** What the line's digits read as: with `digit1`, its maximal runs of
      digits; with one digit at a time, its digits. */
  function DigitRuns(reader: DigitReader, line: string): (runs: seq<string>)
    ensures DigitStrings(runs)
  {
    ReadsAreDigits(reader, line, 0, |line|);
    ReadBetween(reader, line, 0, |line|)
  }

  /** Readings of digits: each is one digit or more. */
  predicate DigitStrings(runs: seq<string>) {
    forall k :: 0 <= k < |runs| ==> runs[k] != [] && AllDigits(runs[k])
  }

  /** Ten times the value of the first reading plus the value of the last,
      a reading of several digits counting as one number; no reading at all
      panics, and so does a result past `u32::MAX`. */
  function RunsCalibration(runs: seq<string>): Result<nat>
    requires DigitStrings(runs)
  {
    if runs == [] then Panic
    else
      var v := 10 * DecimalValue(runs[0]) + DecimalValue(runs[|runs| - 1]);
      if v <= U32_MAX then Ok(v) else Panic
  }

  lemma {:induction false} ReadBetweenSplit(reader: DigitReader, line: string, i: nat, k: nat, j: nat)
    requires i <= k <= j <= |line|
    ensures ReadBetween(reader, line, i, j) == ReadBetween(reader, line, i, k) + ReadBetween(reader, line, k, j)
    decreases k - i
  {
    if i < k {
      ReadBetweenSplit(reader, line, i + 1, k, j);
      assert ReadBetween(reader, line, i, j)
          == ReadAt(reader, line, i) + (ReadBetween(reader, line, i + 1, k) + ReadBetween(reader, line, k, j));
    }
  }

  lemma {:induction false} NothingReadBetween(reader: DigitReader, line: string, i: nat, j: nat)
    requires i <= j <= |line|
    requires forall m :: i <= m < j ==> !ReadStartsAt(reader, line, m)
    ensures ReadBetween(reader, line, i, j) == []
    decreases j - i
  {
    if i < j {
      NothingReadBetween(reader, line, i + 1, j);
    }
  }

  /** A reading at i, then none before e: what is read from i on is that
      reading, then what is read from e on. */
  lemma ReadSkipping(reader: DigitReader, line: string, i: nat, e: nat)
    requires i < e <= |line| && ReadStartsAt(reader, line, i)
    requires forall m :: i < m < e ==> !ReadStartsAt(reader, line, m)
    ensures ReadBetween(reader, line, i, |line|) == [line[i..ReadEnd(reader, line, i)]] + ReadBetween(reader, line, e, |line|)
  {
    ReadBetweenSplit(reader, line, i + 1, e, |line|);
    NothingReadBetween(reader, line, i + 1, e);
    EmptyPrefix(ReadBetween(reader, line, i + 1, |line|), ReadBetween(reader, line, i + 1, e), ReadBetween(reader, line, e, |line|));
  }

  predicate AllAlphanumeric(line: string) {
    forall k :: 0 <= k < |line| ==> IsAlphanumeric(line[k])
  }

  /** `alpha0` from position i reads up to the end of the letters. */
  lemma {:induction false} Alpha0From(line: string, i: nat)
    requires i <= |line|
    ensures Alpha0(line[i..]).rest == line[LettersEnd(line, i)..]
    decreases |line| - i
  {
    if i < |line| && IsAlpha(line[i]) {
      Alpha0From(line, i + 1);
      assert line[i..][0] == line[i] && line[i..][1..] == line[i + 1..];
      assert AlphaRunLength(line[i..]) == 1 + AlphaRunLength(line[i + 1..]);
      assert line[i..][AlphaRunLength(line[i..])..] == line[i + 1..][AlphaRunLength(line[i + 1..])..];
    } else if i < |line| {
      assert line[i..][0] == line[i];
    }
  }

  /** `digit1` from position i reads up to the end of the digits. */
  lemma {:induction false} DigitRunFrom(line: string, i: nat)
    requires i <= |line|
    ensures DigitRunLength(line[i..]) == DigitsEnd(line, i) - i
    decreases |line| - i
  {
    if i < |line| && IsDigit(line[i]) {
      DigitRunFrom(line, i + 1);
      assert line[i..][0] == line[i] && line[i..][1..] == line[i + 1..];
    } else if i < |line| {
      assert line[i..][0] == line[i];
    }
  }

  /** The reader at a digit at position k reads up to its end. */
  lemma ReadDigitsFrom(reader: DigitReader, line: string, k: nat)
    requires k < |line| && IsDigit(line[k])
    ensures ReadDigits(reader, line[k..]) == Some(Parsed(line[k..ReadEnd(reader, line, k)], line[ReadEnd(reader, line, k)..]))
  {
    var s := line[k..];
    var e := ReadEnd(reader, line, k);
    assert s[0] == line[k];
    if reader == Digit1Reader {
      DigitRunFrom(line, k);
    }
    assert s[..e - k] == line[k..e] && s[e - k..] == line[e..];
  }

  /** Where an element that starts at a digit at position k ends: after its
      digits and the letters after them. */
  function ElementEnd(reader: DigitReader, line: string, k: nat): (e: nat)
    requires k < |line|
    ensures k < e <= |line|
  {
    LettersEnd(line, ReadEnd(reader, line, k))
  }

  lemma ElementOf(reader: DigitReader, s: string, t: string, digits: string, rest: string)
    requires Alpha0(s).rest == t && ReadDigits(reader, t) == Some(Parsed(digits, rest))
    ensures Element(reader, s) == Some(Parsed(digits, Alpha0(rest).rest))
  {
  }

  /** An element starting at a digit reads the digits from there, then the
      letters after them. */
  lemma ElementAt(reader: DigitReader, line: string, k: nat)
    requires k < |line| && IsDigit(line[k])
    ensures Element(reader, line[k..]) == Some(Parsed(line[k..ReadEnd(reader, line, k)], line[ElementEnd(reader, line, k)..]))
  {
    Alpha0From(line, k);
    ReadDigitsFrom(reader, line, k);
    Alpha0From(line, ReadEnd(reader, line, k));
    ElementOf(reader, line[k..], line[k..], line[k..ReadEnd(reader, line, k)], line[ReadEnd(reader, line, k)..]);
  }

  /** Inside an element, no other reading starts. */
  lemma InsideElement(reader: DigitReader, line: string, k: nat)
    requires k < |line| && IsDigit(line[k])
    ensures forall m :: k < m < ElementEnd(reader, line, k) ==> !ReadStartsAt(reader, line, m)
  {
  }

  /** In a line of letters and digits, the next reading starts where an
      element ends. */
  lemma AfterElement(reader: DigitReader, line: string, k: nat)
    requires AllAlphanumeric(line) && k < |line| && IsDigit(line[k])
    ensures ElementEnd(reader, line, k) < |line| ==> ReadStartsAt(reader, line, ElementEnd(reader, line, k))
  {
  }

  /** From a position where a reading starts, or from the end, the loop of
      `many1` reads what the reference reads, up to the end of the line. */
  lemma {:induction false} ManyElementsRead(reader: DigitReader, acc: seq<string>, line: string, i: nat)
    requires AllAlphanumeric(line) && i <= |line|
    requires i < |line| ==> ReadStartsAt(reader, line, i)
    ensures ManyElements(reader, acc, line[i..]) == Parsed(acc + ReadBetween(reader, line, i, |line|), [])
    decreases |line| - i
  {
    if i == |line| {
      assert line[i..] == [];
      assert Element(reader, []) == None;
      assert acc + [] == acc;
    } else {
      var e := ElementEnd(reader, line, i);
      var run := line[i..ReadEnd(reader, line, i)];
      ElementAt(reader, line, i);
      InsideElement(reader, line, i);
      AfterElement(reader, line, i);
      ManyElementsRead(reader, acc + [run], line, e);
      ReadSkipping(reader, line, i, e);
      PushThenRest(acc, run, ReadBetween(reader, line, e, |line|), ReadBetween(reader, line, i, |line|));
    }
  }

  /** `nom_parse_line` reads the line's digit runs in order, skipping the
      letters, and fails when the line has no digit. */
  lemma NomParseLineRuns(reader: DigitReader, line: string)
    requires AlphanumericLine(line)
    ensures NomParseLine(reader, line) == if DigitRuns(reader, line) == [] then None else Some(Parsed(DigitRuns(reader, line), []))
  {
    var i := LettersEnd(line, 0);
    NothingReadBetween(reader, line, 0, i);
    ReadBetweenSplit(reader, line, 0, i, |line|);
    EmptyPrefix(DigitRuns(reader, line), ReadBetween(reader, line, 0, i), ReadBetween(reader, line, i, |line|));
    if i == |line| {
      Alpha0From(line, 0);
      assert line[0..] == line;
      assert line[i..] == [];
    } else {
      NomParseLineFrom(reader, line, i);
    }
  }

  /** A line with a digit: the first element starts at its first digit. */
  lemma NomParseLineFrom(reader: DigitReader, line: string, i: nat)
    requires AlphanumericLine(line) && i == LettersEnd(line, 0) && i < |line|
    ensures ReadBetween(reader, line, i, |line|) != []
    ensures NomParseLine(reader, line) == Some(Parsed(ReadBetween(reader, line, i, |line|), []))
  {
    Alpha0From(line, 0);
    assert line[0..] == line;
    var d := ReadEnd(reader, line, i);
    var e := ElementEnd(reader, line, i);
    var run := line[i..d];
    ReadDigitsFrom(reader, line, i);
    Alpha0From(line, d);
    ElementOf(reader, line, line[i..], run, line[d..]);
    InsideElement(reader, line, i);
    AfterElement(reader, line, i);
    ManyElementsRead(reader, [run], line, e);
    ReadStartsAfterLetters(reader, line);
    ReadSkipping(reader, line, i, e);
    NomParseLineOf(reader, line, run, line[e..], [run] + ReadBetween(reader, line, e, |line|));
  }

  /** In a line of letters and digits, the first reading starts after the
      leading letters. */
  lemma ReadStartsAfterLetters(reader: DigitReader, line: string)
    requires AlphanumericLine(line) && LettersEnd(line, 0) < |line|
    ensures ReadStartsAt(reader, line, LettersEnd(line, 0))
  {
    var i := LettersEnd(line, 0);
    assert IsAlphanumeric(line[i]) && !IsAlpha(line[i]);
    if i > 0 {
      assert IsAlpha(line[i - 1]);
    }
  }

  lemma NomParseLineOf(reader: DigitReader, line: string, run: string, rest: string, runs: seq<string>)
    requires Element(reader, line) == Some(Parsed(run, rest)) && ManyElements(reader, [run], rest) == Parsed(runs, [])
    ensures NomParseLine(reader, line) == Some(Parsed(runs, []))
  {
  }

  /** Each reading is one digit or more. */
  lemma {:induction false} ReadsAreDigits(reader: DigitReader, line: string, i: nat, j: nat)
    requires i <= j <= |line|
    ensures forall k :: 0 <= k < |ReadBetween(reader, line, i, j)| ==> ReadBetween(reader, line, i, j)[k] != [] && AllDigits(ReadBetween(reader, line, i, j)[k])
    decreases j - i
  {
    if i < j {
      ReadsAreDigits(reader, line, i + 1, j);
      var rest := ReadBetween(reader, line, i + 1, j);
      if ReadStartsAt(reader, line, i) {
        var run := line[i..ReadEnd(reader, line, i)];
        assert run[0] == line[i];
        if reader == Digit1Reader {
          assert forall m :: 0 <= m < |run| ==> run[m] == line[i + m];
        }
        assert forall k :: 1 <= k < |rest| + 1 ==> ([run] + rest)[k] == rest[k - 1];
      }
    }
  }

  /** The values of runs of digits. */
  function RunValues(runs: seq<string>): (vs: seq<nat>)
    requires forall k :: 0 <= k < |runs| ==> AllDigits(runs[k])
    ensures |vs| == |runs| && forall k :: 0 <= k < |runs| ==> vs[k] == DecimalValue(runs[k])
  {
    seq(|runs|, k requires 0 <= k < |runs| => DecimalValue(runs[k]))
  }

  /** Read one digit at a time, the digits' values are the values found. */
  lemma {:induction false} OneDigitValues(line: string, i: nat, j: nat)
    requires i <= j <= |line|
    ensures forall k :: 0 <= k < |ReadBetween(OneDigitReader, line, i, j)| ==> AllDigits(ReadBetween(OneDigitReader, line, i, j)[k])
    ensures RunValues(ReadBetween(OneDigitReader, line, i, j)) == FoundBetween(DigitsOnly, line, i, j)
    decreases j - i
  {
    ReadsAreDigits(OneDigitReader, line, i, j);
    if i < j {
      OneDigitValues(line, i + 1, j);
      ReadsAreDigits(OneDigitReader, line, i + 1, j);
      DigitFoundAt(line, i);
      var runs := ReadBetween(OneDigitReader, line, i, j);
      var rest := ReadBetween(OneDigitReader, line, i + 1, j);
      var found := FoundBetween(DigitsOnly, line, i + 1, j);
      if IsDigit(line[i]) {
        var run := line[i..i + 1];
        assert run == [line[i]];
        assert DecimalValue(run) == DigitValue(line[i]) by {
          assert run[..0] == [];
        }
        assert runs == [run] + rest;
        Elementwise(RunValues(runs), [DigitValue(line[i])] + found);
      } else {
        assert runs == rest;
      }
    }
  }

  /** No two digits of the line are next to each other. */
  predicate NoAdjacentDigits(line: string) {
    forall k :: 0 < k < |line| ==> !IsDigit(line[k - 1]) || !IsDigit(line[k])
  }

  /** Where no two digits are adjacent, every run of digits is one digit,
      and `digit1` reads what a one-digit parser reads. */
  lemma {:induction false} SparseReadsAgree(line: string, i: nat, j: nat)
    requires i <= j <= |line| && NoAdjacentDigits(line)
    ensures ReadBetween(Digit1Reader, line, i, j) == ReadBetween(OneDigitReader, line, i, j)
    decreases j - i
  {
    if i < j {
      SparseReadsAgree(line, i + 1, j);
      if IsDigit(line[i]) {
        if i + 1 < |line| {
          assert !IsDigit(line[i + 1]);
        }
        assert DigitsEnd(line, i) == i + 1;
      }
    }
  }

  /** `parse_nom_result`: the first and the last run parsed as `u32`s (each
      `unwrap` panics on a missing run or a value out of range), then
      `first * 10 + last`, which panics when it overflows. */
  function ParseNomResult(runs: seq<string>): (r: Result<nat>)
    ensures r.Ok? ==> r.value <= U32_MAX
    ensures runs == [] ==> r == Panic
    ensures DigitStrings(runs) ==> r == RunsCalibration(runs)
  {
    if runs == [] then Panic
    else
      match ParseUnsigned(runs[0], U32_MAX)
      case None => Panic
      case Some(first) =>
        match ParseUnsigned(runs[|runs| - 1], U32_MAX)
        case None => Panic
        case Some(last) => if first * 10 + last <= U32_MAX then Ok(first * 10 + last) else Panic
  }

  /** Runs of one digit each give the calibration value of their values. */
  lemma ParseNomResultOfDigits(runs: seq<string>)
    requires runs != [] && forall k :: 0 <= k < |runs| ==> AllDigits(runs[k]) && |runs[k]| == 1
    ensures ParseNomResult(runs) == Ok(Calibrate(RunValues(runs)))
  {
    var first := runs[0];
    var last := runs[|runs| - 1];
    assert first[..0] == [] && last[..0] == [];
    assert DecimalValue(first) <= 9 && DecimalValue(last) <= 9;
  }

  /** The closure of `parse_lines`: `nom_parse_line(..).unwrap()`, which
      panics on a line without a digit, then `parse_nom_result`. */
  function LineValue(reader: DigitReader, line: string): Result<nat> {
    match NomParseLine(reader, line)
    case None => Panic
    case Some(parsed) => ParseNomResult(parsed.value)
  }

  /** A line's value is what its readings give; as written, with `digit1`,
      that is ten times its first maximal run of digits plus its last. */
  lemma LineValueOfRuns(reader: DigitReader, line: string)
    requires AlphanumericLine(line)
    ensures LineValue(reader, line) == RunsCalibration(DigitRuns(reader, line))
  {
    NomParseLineRuns(reader, line);
  }

  /** Read one digit at a time, a line's value is its calibration value. */
  lemma OneDigitLineValue(line: string)
    requires AlphanumericLine(line)
    ensures LineValue(OneDigitReader, line) == LineCalibration(DigitsOnly, line)
  {
    NomParseLineRuns(OneDigitReader, line);
    OneDigitValues(line, 0, |line|);
    var runs := DigitRuns(OneDigitReader, line);
    if runs != [] {
      forall k | 0 <= k < |runs|
        ensures AllDigits(runs[k]) && |runs[k]| == 1
      {
        OneDigitRunLength(line, 0, |line|, k);
      }
      ParseNomResultOfDigits(runs);
      LineCalibrationOf(DigitsOnly, line);
    }
  }

  /** Every one-digit reading is one character long. */
  lemma {:induction false} OneDigitRunLength(line: string, i: nat, j: nat, k: nat)
    requires i <= j <= |line| && k < |ReadBetween(OneDigitReader, line, i, j)|
    ensures |ReadBetween(OneDigitReader, line, i, j)[k]| == 1
    decreases j - i
  {
    var rest := ReadBetween(OneDigitReader, line, i + 1, j);
    if ReadStartsAt(OneDigitReader, line, i) {
      if k > 0 {
        assert ReadBetween(OneDigitReader, line, i, j)[k] == rest[k - 1];
        OneDigitRunLength(line, i + 1, j, k - 1);
      }
    } else {
      OneDigitRunLength(line, i + 1, j, k);
    }
  }

  /** As written, with `digit1`, a line whose digits are never adjacent has
      its calibration value. */
  lemma SparseLineValue(line: string)
    requires AlphanumericLine(line) && NoAdjacentDigits(line)
    ensures LineValue(Digit1Reader, line) == LineCalibration(DigitsOnly, line)
  {
    NomParseLineRuns(Digit1Reader, line);
    NomParseLineRuns(OneDigitReader, line);
    SparseReadsAgree(line, 0, |line|);
    OneDigitLineValue(line);
  }

  /** The line value of a reader, as a function of the line. */
  function LineReader(reader: DigitReader): string -> Result<nat> {
    line => LineValue(reader, line)
  }

  /** Each line's value from its readings. */
  function RunsDocument(reader: DigitReader, lines: seq<string>): (rs: seq<Result<nat>>)
    ensures |rs| == |lines| && forall i :: 0 <= i < |lines| ==> rs[i] == RunsCalibration(DigitRuns(reader, lines[i]))
  {
    seq(|lines|, i requires 0 <= i < |lines| => RunsCalibration(DigitRuns(reader, lines[i])))
  }

  lemma LineValuesOfRuns(reader: DigitReader, lines: seq<string>)
    requires AlphanumericLines(lines)
    ensures Mapped(LineReader(reader), lines) == RunsDocument(reader, lines)
  {
    forall i | 0 <= i < |lines| ensures Mapped(LineReader(reader), lines)[i] == RunsDocument(reader, lines)[i] {
      LineValueOfRuns(reader, lines[i]);
    }
  }

  /** `process`: the lines read by nom, each line's value, added up; the
      first `unwrap` panics when there is no line at all. */
  function Process(reader: DigitReader, input: string): (r: Result<nat>)
    ensures NomLines(input).None? ==> r == Panic
    ensures NomLines(input).Some? ==> r == Total(RunsDocument(reader, NomLines(input).value.value))
  {
    match NomLines(input)
    case None => Panic
    case Some(parsed) =>
      LineValuesOfRuns(reader, parsed.value);
      Total(Mapped(LineReader(reader), parsed.value))
  }

  /** Read one digit at a time, the document's value is the puzzle's. */
  lemma OneDigitProcess(input: string)
    requires NomLines(input).Some?
    ensures Process(OneDigitReader, input) == Total(Document(DigitsOnly, NomLines(input).value.value))
  {
    var lines := NomLines(input).value.value;
    forall i | 0 <= i < |lines| ensures Mapped(LineReader(OneDigitReader), lines)[i] == Document(DigitsOnly, lines)[i] {
      OneDigitLineValue(lines[i]);
    }
    assert Mapped(LineReader(OneDigitReader), lines) == Document(DigitsOnly, lines);
  }

  /** As written, the document's value is the puzzle's when no line read
      has two adjacent digits. */
  lemma SparseProcess(input: string)
    requires NomLines(input).Some?
    requires forall i :: 0 <= i < |NomLines(input).value.value| ==> NoAdjacentDigits(NomLines(input).value.value[i])
    ensures Process(Digit1Reader, input) == Total(Document(DigitsOnly, NomLines(input).value.value))
  {
    var lines := NomLines(input).value.value;
    forall i | 0 <= i < |lines| ensures Mapped(LineReader(Digit1Reader), lines)[i] == Document(DigitsOnly, lines)[i] {
      SparseLineValue(lines[i]);
    }
    assert Mapped(LineReader(Digit1Reader), lines) == Document(DigitsOnly, lines);
  }

  /** As written, `digit1` reads adjacent digits as one number: the line
      "12" is worth 12 * 10 + 12 = 132, where its calibration value is
      12. */
  lemma AdjacentDigitsRunTogether(line: string)
    requires line == "12"
    ensures NomParseLine(Digit1Reader, line) == Some(Parsed(["12"], []))
    ensures LineValue(Digit1Reader, line) == Ok(132)
    ensures LineCalibration(DigitsOnly, line) == Ok(12)
  {
    NomParseLineRuns(Digit1Reader, line);
    RunOfTwoDigits(line);
    TwelveParses(line);
    TwelveCalibration(line);
  }

  lemma TwelveParses(line: string)
    requires line == "12" && NomParseLine(Digit1Reader, line) == Some(Parsed([line], []))
    ensures LineValue(Digit1Reader, line) == Ok(132)
  {
    TwelveValue(line);
    assert DigitStrings([line]);
    assert RunsCalibration([line]) == Ok(132);
  }

  lemma TwelveCalibration(line: string)
    requires line == "12"
    ensures LineCalibration(DigitsOnly, line) == Ok(12)
  {
    DigitFoundAt(line, 0);
    DigitFoundAt(line, 1);
    assert FoundBetween(DigitsOnly, line, 1, 2) == [2];
    assert Found(DigitsOnly, line) == [1, 2];
  }

  lemma TwelveValue(line: string)
    requires line == "12"
    ensures DecimalValue(line) == 12
  {
    var one := line[..1];
    assert one == "1" && one[..0] == [];
    assert DecimalValue(one) == 1;
    assert DigitValue(line[1]) == 2;
  }

  lemma RunOfTwoDigits(line: string)
    requires line == "12"
    ensures DigitRuns(Digit1Reader, line) == [line]
  {
    assert DigitsEnd(line, 1) == 2;
    assert line[0..2] == line;
    assert ReadAt(Digit1Reader, line, 0) == [line];
    assert ReadAt(Digit1Reader, line, 1) == [];
    assert ReadBetween(Digit1Reader, line, 1, 2) == [];
  }
}
