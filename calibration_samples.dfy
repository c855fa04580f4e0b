/** The examples of 2023 day 1: the lines of the two example documents, each
    line's value, and the unit tests of the part 1 nom solver. */
module CalibrationSamples {
  import opened Outcome
  import opened Text
  import opened Nom
  import opened Calibration
  import opened CalibrationNom
  import CalibrationVariants
  import CalibrationPart1
  import CalibrationPart2
  import CalibrationPart1Nom
  import CalibrationPart2Nom

  /** The digit at position k is the value found there. */
  lemma DigitHere(scheme: Scheme, line: string, k: nat)
    requires k < |line| && IsDigit(line[k])
    ensures FoundAt(scheme, line, k) == [DigitValue(line[k])]
  {
    assert line[k..][0] == line[k];
  }

  /** The spelled digit v starting at position k is the value found there. */
  lemma WordHere(line: string, k: nat, v: nat)
    requires k < |line| && !IsDigit(line[k]) && 1 <= v <= |Words| && StartsWith(line[k..], Words[v - 1])
    ensures FoundAt(DigitsAndWords, line, k) == [v]
  {
    assert line[k..][0] == line[k];
    SpelledWord(line[k..], v);
  }

  /** Nothing is found at position k when it holds a letter and, for part
      2, no spelled digit can start there. */
  lemma Skip(scheme: Scheme, line: string, k: nat, j: nat)
    requires k < j <= |line| && !IsDigit(line[k])
    requires scheme == DigitsOnly || |line| - k < 3 || !WordStart(line[k], line[k + 1])
    requires NothingAt(scheme, line, k + 1, j)
    ensures NothingAt(scheme, line, k, j)
  {
    var s := line[k..];
    assert s[0] == line[k];
    if scheme == DigitsAndWords {
      if |s| >= 3 {
        assert s[1] == line[k + 1];
      }
      NotSpelled(s);
    }
  }

  // The first example document: part 1 values 12, 38, 15 and 77.

  lemma Line1abc2Values(line: string)
    requires line == "1abc2"
    ensures FoundAt(DigitsOnly, line, 0) == [1] && FoundAt(DigitsOnly, line, 4) == [2]
  {
    DigitHere(DigitsOnly, line, 0);
    DigitHere(DigitsOnly, line, 4);
  }

  lemma Line1abc2(line: string)
    requires line == "1abc2"
    ensures LineCalibration(DigitsOnly, line) == Ok(12)
  {
    Line1abc2Values(line);
    FirstAndLast(DigitsOnly, line, 0, 4, 1, 2);
  }

  lemma LinePqr3stu8vwxStart(line: string)
    requires line == "pqr3stu8vwx"
    ensures FoundBetween(DigitsOnly, line, 0, 3) == []
  {
    Skip(DigitsOnly, line, 2, 3);
    Skip(DigitsOnly, line, 1, 3);
    Skip(DigitsOnly, line, 0, 3);
    NothingFoundBetween(DigitsOnly, line, 0, 3);
  }

  lemma LinePqr3stu8vwxEnd(line: string)
    requires line == "pqr3stu8vwx"
    ensures FoundBetween(DigitsOnly, line, 8, 11) == []
  {
    Skip(DigitsOnly, line, 10, 11);
    Skip(DigitsOnly, line, 9, 11);
    Skip(DigitsOnly, line, 8, 11);
    NothingFoundBetween(DigitsOnly, line, 8, 11);
  }

  lemma LinePqr3stu8vwxValues(line: string)
    requires line == "pqr3stu8vwx"
    ensures FoundAt(DigitsOnly, line, 3) == [3] && FoundAt(DigitsOnly, line, 7) == [8]
  {
    DigitHere(DigitsOnly, line, 3);
    DigitHere(DigitsOnly, line, 7);
  }

  lemma LinePqr3stu8vwx(line: string)
    requires line == "pqr3stu8vwx"
    ensures LineCalibration(DigitsOnly, line) == Ok(38)
  {
    LinePqr3stu8vwxStart(line);
    LinePqr3stu8vwxEnd(line);
    LinePqr3stu8vwxValues(line);
    FirstAndLast(DigitsOnly, line, 3, 7, 3, 8);
  }

  lemma LineA1b2c3d4e5fStart(line: string)
    requires line == "a1b2c3d4e5f"
    ensures FoundBetween(DigitsOnly, line, 0, 1) == []
  {
    Skip(DigitsOnly, line, 0, 1);
    NothingFoundBetween(DigitsOnly, line, 0, 1);
  }

  lemma LineA1b2c3d4e5fEnd(line: string)
    requires line == "a1b2c3d4e5f"
    ensures FoundBetween(DigitsOnly, line, 10, 11) == []
  {
    Skip(DigitsOnly, line, 10, 11);
    NothingFoundBetween(DigitsOnly, line, 10, 11);
  }

  lemma LineA1b2c3d4e5fValues(line: string)
    requires line == "a1b2c3d4e5f"
    ensures FoundAt(DigitsOnly, line, 1) == [1] && FoundAt(DigitsOnly, line, 9) == [5]
  {
    DigitHere(DigitsOnly, line, 1);
    DigitHere(DigitsOnly, line, 9);
  }

  lemma LineA1b2c3d4e5f(line: string)
    requires line == "a1b2c3d4e5f"
    ensures LineCalibration(DigitsOnly, line) == Ok(15)
  {
    LineA1b2c3d4e5fStart(line);
    LineA1b2c3d4e5fEnd(line);
    LineA1b2c3d4e5fValues(line);
    FirstAndLast(DigitsOnly, line, 1, 9, 1, 5);
  }

  lemma LineTreb7uchetStart(line: string)
    requires line == "treb7uchet"
    ensures FoundBetween(DigitsOnly, line, 0, 4) == []
  {
    Skip(DigitsOnly, line, 3, 4);
    Skip(DigitsOnly, line, 2, 4);
    Skip(DigitsOnly, line, 1, 4);
    Skip(DigitsOnly, line, 0, 4);
    NothingFoundBetween(DigitsOnly, line, 0, 4);
  }

  lemma LineTreb7uchetEnd(line: string)
    requires line == "treb7uchet"
    ensures FoundBetween(DigitsOnly, line, 5, 10) == []
  {
    Skip(DigitsOnly, line, 9, 10);
    Skip(DigitsOnly, line, 8, 10);
    Skip(DigitsOnly, line, 7, 10);
    Skip(DigitsOnly, line, 6, 10);
    Skip(DigitsOnly, line, 5, 10);
    NothingFoundBetween(DigitsOnly, line, 5, 10);
  }

  lemma LineTreb7uchetValues(line: string)
    requires line == "treb7uchet"
    ensures FoundAt(DigitsOnly, line, 4) == [7]
  {
    DigitHere(DigitsOnly, line, 4);
  }

  lemma LineTreb7uchet(line: string)
    requires line == "treb7uchet"
    ensures LineCalibration(DigitsOnly, line) == Ok(77)
  {
    LineTreb7uchetStart(line);
    LineTreb7uchetEnd(line);
    LineTreb7uchetValues(line);
    FirstAndLast(DigitsOnly, line, 4, 4, 7, 7);
  }

  // The second example document: part 2 values 29, 83, 13, 24, 42, 14
  // and 76.

  lemma LineTwo1nineEnd(line: string)
    requires line == "two1nine"
    ensures FoundBetween(DigitsAndWords, line, 5, 8) == []
  {
    Skip(DigitsAndWords, line, 7, 8);
    Skip(DigitsAndWords, line, 6, 8);
    Skip(DigitsAndWords, line, 5, 8);
    NothingFoundBetween(DigitsAndWords, line, 5, 8);
  }

  lemma LineTwo1nineValues(line: string)
    requires line == "two1nine"
    ensures FoundAt(DigitsAndWords, line, 0) == [2] && FoundAt(DigitsAndWords, line, 4) == [9]
  {
    WordHere(line, 0, 2);
    WordHere(line, 4, 9);
  }

  lemma LineTwo1nine(line: string)
    requires line == "two1nine"
    ensures LineCalibration(DigitsAndWords, line) == Ok(29)
  {
    LineTwo1nineEnd(line);
    LineTwo1nineValues(line);
    FirstAndLast(DigitsAndWords, line, 0, 4, 2, 9);
  }

  lemma LineEightwothreeEnd(line: string)
    requires line == "eightwothree"
    ensures FoundBetween(DigitsAndWords, line, 8, 12) == []
  {
    Skip(DigitsAndWords, line, 11, 12);
    Skip(DigitsAndWords, line, 10, 12);
    Skip(DigitsAndWords, line, 9, 12);
    Skip(DigitsAndWords, line, 8, 12);
    NothingFoundBetween(DigitsAndWords, line, 8, 12);
  }

  lemma LineEightwothreeValues(line: string)
    requires line == "eightwothree"
    ensures FoundAt(DigitsAndWords, line, 0) == [8] && FoundAt(DigitsAndWords, line, 7) == [3]
  {
    WordHere(line, 0, 8);
    WordHere(line, 7, 3);
  }

  lemma LineEightwothree(line: string)
    requires line == "eightwothree"
    ensures LineCalibration(DigitsAndWords, line) == Ok(83)
  {
    LineEightwothreeEnd(line);
    LineEightwothreeValues(line);
    FirstAndLast(DigitsAndWords, line, 0, 7, 8, 3);
  }

  lemma LineAbcone2threexyzStart(line: string)
    requires line == "abcone2threexyz"
    ensures FoundBetween(DigitsAndWords, line, 0, 3) == []
  {
    Skip(DigitsAndWords, line, 2, 3);
    Skip(DigitsAndWords, line, 1, 3);
    Skip(DigitsAndWords, line, 0, 3);
    NothingFoundBetween(DigitsAndWords, line, 0, 3);
  }

  lemma LineAbcone2threexyzEnd(line: string)
    requires line == "abcone2threexyz"
    ensures FoundBetween(DigitsAndWords, line, 8, 15) == []
  {
    Skip(DigitsAndWords, line, 14, 15);
    Skip(DigitsAndWords, line, 13, 15);
    Skip(DigitsAndWords, line, 12, 15);
    Skip(DigitsAndWords, line, 11, 15);
    Skip(DigitsAndWords, line, 10, 15);
    Skip(DigitsAndWords, line, 9, 15);
    Skip(DigitsAndWords, line, 8, 15);
    NothingFoundBetween(DigitsAndWords, line, 8, 15);
  }

  lemma LineAbcone2threexyzValues(line: string)
    requires line == "abcone2threexyz"
    ensures FoundAt(DigitsAndWords, line, 3) == [1] && FoundAt(DigitsAndWords, line, 7) == [3]
  {
    WordHere(line, 3, 1);
    WordHere(line, 7, 3);
  }

  lemma LineAbcone2threexyz(line: string)
    requires line == "abcone2threexyz"
    ensures LineCalibration(DigitsAndWords, line) == Ok(13)
  {
    LineAbcone2threexyzStart(line);
    LineAbcone2threexyzEnd(line);
    LineAbcone2threexyzValues(line);
    FirstAndLast(DigitsAndWords, line, 3, 7, 1, 3);
  }

  lemma LineXtwone3fourStart(line: string)
    requires line == "xtwone3four"
    ensures FoundBetween(DigitsAndWords, line, 0, 1) == []
  {
    Skip(DigitsAndWords, line, 0, 1);
    NothingFoundBetween(DigitsAndWords, line, 0, 1);
  }

  lemma LineXtwone3fourEnd(line: string)
    requires line == "xtwone3four"
    ensures FoundBetween(DigitsAndWords, line, 8, 11) == []
  {
    Skip(DigitsAndWords, line, 10, 11);
    Skip(DigitsAndWords, line, 9, 11);
    Skip(DigitsAndWords, line, 8, 11);
    NothingFoundBetween(DigitsAndWords, line, 8, 11);
  }

  lemma LineXtwone3fourValues(line: string)
    requires line == "xtwone3four"
    ensures FoundAt(DigitsAndWords, line, 1) == [2] && FoundAt(DigitsAndWords, line, 7) == [4]
  {
    WordHere(line, 1, 2);
    WordHere(line, 7, 4);
  }

  lemma LineXtwone3four(line: string)
    requires line == "xtwone3four"
    ensures LineCalibration(DigitsAndWords, line) == Ok(24)
  {
    LineXtwone3fourStart(line);
    LineXtwone3fourEnd(line);
    LineXtwone3fourValues(line);
    FirstAndLast(DigitsAndWords, line, 1, 7, 2, 4);
  }

  lemma Line4nineeightseven2Values(line: string)
    requires line == "4nineeightseven2"
    ensures FoundAt(DigitsAndWords, line, 0) == [4] && FoundAt(DigitsAndWords, line, 15) == [2]
  {
    DigitHere(DigitsAndWords, line, 0);
    DigitHere(DigitsAndWords, line, 15);
  }

  lemma Line4nineeightseven2(line: string)
    requires line == "4nineeightseven2"
    ensures LineCalibration(DigitsAndWords, line) == Ok(42)
  {
    Line4nineeightseven2Values(line);
    FirstAndLast(DigitsAndWords, line, 0, 15, 4, 2);
  }

  lemma LineZoneight234Start(line: string)
    requires line == "zoneight234"
    ensures FoundBetween(DigitsAndWords, line, 0, 1) == []
  {
    Skip(DigitsAndWords, line, 0, 1);
    NothingFoundBetween(DigitsAndWords, line, 0, 1);
  }

  lemma LineZoneight234Values(line: string)
    requires line == "zoneight234"
    ensures FoundAt(DigitsAndWords, line, 1) == [1] && FoundAt(DigitsAndWords, line, 10) == [4]
  {
    WordHere(line, 1, 1);
    DigitHere(DigitsAndWords, line, 10);
  }

  lemma LineZoneight234(line: string)
    requires line == "zoneight234"
    ensures LineCalibration(DigitsAndWords, line) == Ok(14)
  {
    LineZoneight234Start(line);
    LineZoneight234Values(line);
    FirstAndLast(DigitsAndWords, line, 1, 10, 1, 4);
  }

  lemma Line7pqrstsixteenEnd(line: string)
    requires line == "7pqrstsixteen"
    ensures FoundBetween(DigitsAndWords, line, 7, 13) == []
  {
    Skip(DigitsAndWords, line, 12, 13);
    Skip(DigitsAndWords, line, 11, 13);
    Skip(DigitsAndWords, line, 10, 13);
    Skip(DigitsAndWords, line, 9, 13);
    Skip(DigitsAndWords, line, 8, 13);
    Skip(DigitsAndWords, line, 7, 13);
    NothingFoundBetween(DigitsAndWords, line, 7, 13);
  }

  lemma Line7pqrstsixteenValues(line: string)
    requires line == "7pqrstsixteen"
    ensures FoundAt(DigitsAndWords, line, 0) == [7] && FoundAt(DigitsAndWords, line, 6) == [6]
  {
    DigitHere(DigitsAndWords, line, 0);
    WordHere(line, 6, 6);
  }

  lemma Line7pqrstsixteen(line: string)
    requires line == "7pqrstsixteen"
    ensures LineCalibration(DigitsAndWords, line) == Ok(76)
  {
    Line7pqrstsixteenEnd(line);
    Line7pqrstsixteenValues(line);
    FirstAndLast(DigitsAndWords, line, 0, 6, 7, 6);
  }

  /** The lines of the first example document. */
  predicate Example1(lines: seq<string>) {
    && |lines| == 4
    && lines[0] == "1abc2" && lines[1] == "pqr3stu8vwx"
    && lines[2] == "a1b2c3d4e5f" && lines[3] == "treb7uchet"
  }

  /** The lines of the second example document. */
  predicate Example2(lines: seq<string>) {
    && |lines| == 7
    && lines[0] == "two1nine" && lines[1] == "eightwothree" && lines[2] == "abcone2threexyz"
    && lines[3] == "xtwone3four" && lines[4] == "4nineeightseven2" && lines[5] == "zoneight234"
    && lines[6] == "7pqrstsixteen"
  }

  /** The values of the lines of the first example document. */
  lemma Example1Values(lines: seq<string>)
    requires Example1(lines)
    ensures LineCalibration(DigitsOnly, lines[0]) == Ok(12) && LineCalibration(DigitsOnly, lines[1]) == Ok(38)
    ensures LineCalibration(DigitsOnly, lines[2]) == Ok(15) && LineCalibration(DigitsOnly, lines[3]) == Ok(77)
  {
    Line1abc2(lines[0]);
    LinePqr3stu8vwx(lines[1]);
    LineA1b2c3d4e5f(lines[2]);
    LineTreb7uchet(lines[3]);
  }

  /** Lines worth 12, 38, 15 and 77 make a document worth 142. */
  lemma Example1Document(lines: seq<string>)
    requires |lines| == 4
    requires LineCalibration(DigitsOnly, lines[0]) == Ok(12) && LineCalibration(DigitsOnly, lines[1]) == Ok(38)
    requires LineCalibration(DigitsOnly, lines[2]) == Ok(15) && LineCalibration(DigitsOnly, lines[3]) == Ok(77)
    ensures Total(Document(DigitsOnly, lines)) == Ok(142)
  {
    Example1Results(Document(DigitsOnly, lines));
  }

  lemma Example1Results(rs: seq<Result<nat>>)
    requires |rs| == 4 && rs[0] == Ok(12) && rs[1] == Ok(38) && rs[2] == Ok(15) && rs[3] == Ok(77)
    ensures Total(rs) == Ok(142)
  {
    var vs: seq<nat> := [12, 38, 15, 77];
    assert AllOk(rs).value == vs;
  }

  /** The first example document is worth 12 + 38 + 15 + 77 = 142. */
  lemma Example1Total(lines: seq<string>)
    requires Example1(lines)
    ensures Total(Document(DigitsOnly, lines)) == Ok(142)
  {
    Example1Values(lines);
    Example1Document(lines);
  }

  /** The values of the lines of the second example document. */
  lemma Example2Values(lines: seq<string>)
    requires Example2(lines)
    ensures LineCalibration(DigitsAndWords, lines[0]) == Ok(29) && LineCalibration(DigitsAndWords, lines[1]) == Ok(83)
    ensures LineCalibration(DigitsAndWords, lines[2]) == Ok(13) && LineCalibration(DigitsAndWords, lines[3]) == Ok(24)
    ensures LineCalibration(DigitsAndWords, lines[4]) == Ok(42) && LineCalibration(DigitsAndWords, lines[5]) == Ok(14)
    ensures LineCalibration(DigitsAndWords, lines[6]) == Ok(76)
  {
    LineTwo1nine(lines[0]);
    LineEightwothree(lines[1]);
    LineAbcone2threexyz(lines[2]);
    LineXtwone3four(lines[3]);
    Line4nineeightseven2(lines[4]);
    LineZoneight234(lines[5]);
    Line7pqrstsixteen(lines[6]);
  }

  /** Lines worth 29, 83, 13, 24, 42, 14 and 76 make a document worth
      281. */
  lemma Example2Document(lines: seq<string>)
    requires |lines| == 7
    requires LineCalibration(DigitsAndWords, lines[0]) == Ok(29) && LineCalibration(DigitsAndWords, lines[1]) == Ok(83)
    requires LineCalibration(DigitsAndWords, lines[2]) == Ok(13) && LineCalibration(DigitsAndWords, lines[3]) == Ok(24)
    requires LineCalibration(DigitsAndWords, lines[4]) == Ok(42) && LineCalibration(DigitsAndWords, lines[5]) == Ok(14)
    requires LineCalibration(DigitsAndWords, lines[6]) == Ok(76)
    ensures Total(Document(DigitsAndWords, lines)) == Ok(281)
  {
    Example2Results(Document(DigitsAndWords, lines));
  }

  lemma Example2Results(rs: seq<Result<nat>>)
    requires |rs| == 7 && rs[0] == Ok(29) && rs[1] == Ok(83) && rs[2] == Ok(13) && rs[3] == Ok(24)
    requires rs[4] == Ok(42) && rs[5] == Ok(14) && rs[6] == Ok(76)
    ensures Total(rs) == Ok(281)
  {
    var vs: seq<nat> := [29, 83, 13, 24, 42, 14, 76];
    assert AllOk(rs).value == vs;
  }

  /** The second example document is worth 29 + 83 + 13 + 24 + 42 + 14 +
      76 = 281. */
  lemma Example2Total(lines: seq<string>)
    requires Example2(lines)
    ensures Total(Document(DigitsAndWords, lines)) == Ok(281)
  {
    Example2Values(lines);
    Example2Document(lines);
  }

  /** The lines of the first example are lines of letters and digits,
      without two adjacent digits. */
  lemma Example1Shape(lines: seq<string>)
    requires Example1(lines)
    ensures AlphanumericLines(lines)
    ensures forall i :: 0 <= i < |lines| ==> CalibrationPart1Nom.NoAdjacentDigits(lines[i])
  {
    assert AlphanumericLine(lines[0]) && AlphanumericLine(lines[1]);
    assert AlphanumericLine(lines[2]) && AlphanumericLine(lines[3]);
    Example1Sparse(lines[0]);
    Example1Sparse(lines[1]);
    Example1Sparse(lines[2]);
    Example1Sparse(lines[3]);
  }

  /** No line of the first example has two adjacent digits. */
  lemma Example1Sparse(line: string)
    requires line == "1abc2" || line == "pqr3stu8vwx" || line == "a1b2c3d4e5f" || line == "treb7uchet"
    ensures CalibrationPart1Nom.NoAdjacentDigits(line)
  {
  }

  /** `process(example1)` is 142 for part 1 by hand and with nom, as
      written with `digit1` and read one digit at a time. */
  lemma Example1Processes(lines: seq<string>)
    requires Example1(lines)
    ensures CalibrationPart1.Process(Join(lines, "\n")) == Ok(142)
    ensures CalibrationPart1Nom.Process(CalibrationPart1Nom.Digit1Reader, Join(lines, "\n")) == Ok(142)
    ensures CalibrationPart1Nom.Process(CalibrationPart1Nom.OneDigitReader, Join(lines, "\n")) == Ok(142)
  {
    Example1Shape(lines);
    Example1Total(lines);
    assert Join(lines, "\n") + "" == Join(lines, "\n");
    CalibrationVariants.AllSolversAgree(lines, "");
  }

  lemma Example2Shape(lines: seq<string>)
    requires Example2(lines)
    ensures AlphanumericLines(lines)
  {
    assert AlphanumericLine(lines[0]) && AlphanumericLine(lines[1]) && AlphanumericLine(lines[2]);
    assert AlphanumericLine(lines[3]) && AlphanumericLine(lines[4]) && AlphanumericLine(lines[5]);
    assert AlphanumericLine(lines[6]);
  }

  /** `process(example2)` is 281 for part 2 by hand and with nom. */
  lemma Example2Processes(lines: seq<string>)
    requires Example2(lines)
    ensures CalibrationPart2.Process(Join(lines, "\n")) == Ok(281)
    ensures CalibrationPart2Nom.Process(Join(lines, "\n")) == Ok(281)
  {
    Example2Shape(lines);
    Example2Total(lines);
    assert Join(lines, "\n") + "" == Join(lines, "\n");
    CalibrationVariants.AllSolversAgree(lines, "");
  }

  // The unit tests of the part 1 nom solver, as written with `digit1`.

  /** A letter at position k reads nothing. */
  lemma NoRead(reader: CalibrationPart1Nom.DigitReader, line: string, k: nat, j: nat)
    requires k < j <= |line| && !IsDigit(line[k])
    ensures CalibrationPart1Nom.ReadBetween(reader, line, k, j) == CalibrationPart1Nom.ReadBetween(reader, line, k + 1, j)
  {
  }

  /** A digit standing alone at position k is read as itself. */
  lemma ReadDigit(line: string, k: nat, j: nat)
    requires k < j <= |line| && IsDigit(line[k])
    requires (k == 0 || !IsDigit(line[k - 1])) && (k + 1 == |line| || !IsDigit(line[k + 1]))
    ensures CalibrationPart1Nom.ReadBetween(CalibrationPart1Nom.Digit1Reader, line, k, j)
         == [[line[k]]] + CalibrationPart1Nom.ReadBetween(CalibrationPart1Nom.Digit1Reader, line, k + 1, j)
  {
    assert CalibrationPart1Nom.DigitsEnd(line, k + 1) == k + 1;
    assert line[k..k + 1] == [line[k]];
  }

  /** A one-digit run parses as its digit. */
  lemma OneDigitParses(s: string)
    requires |s| == 1 && IsDigit(s[0])
    ensures ParseUnsigned(s, U32_MAX) == Some(DigitValue(s[0]))
  {
    assert s[..0] == [] && AllDigits(s);
    assert DecimalValue(s) == 10 * DecimalValue(s[..0]) + DigitValue(s[0]);
  }

  lemma NomTestPqr3stu8vwxRuns(line: string)
    requires line == "pqr3stu8vwx"
    ensures CalibrationPart1Nom.DigitRuns(CalibrationPart1Nom.Digit1Reader, line) == ["3", "8"]
  {
    var d1 := CalibrationPart1Nom.Digit1Reader;
    NoRead(d1, line, 10, 11);
    NoRead(d1, line, 9, 11);
    NoRead(d1, line, 8, 11);
    ReadDigit(line, 7, 11);
    NoRead(d1, line, 6, 11);
    NoRead(d1, line, 5, 11);
    NoRead(d1, line, 4, 11);
    ReadDigit(line, 3, 11);
    NoRead(d1, line, 2, 11);
    NoRead(d1, line, 1, 11);
    NoRead(d1, line, 0, 11);
  }

  /** `nom_parse_line("pqr3stu8vwx")` reads ["3", "8"], which
      `parse_nom_result` turns into 38. */
  lemma NomTestPqr3stu8vwx(line: string)
    requires line == "pqr3stu8vwx"
    ensures CalibrationPart1Nom.NomParseLine(CalibrationPart1Nom.Digit1Reader, line) == Some(Parsed(["3", "8"], []))
    ensures CalibrationPart1Nom.ParseNomResult(["3", "8"]) == Ok(38)
  {
    NomTestPqr3stu8vwxRuns(line);
    assert AlphanumericLine(line);
    CalibrationPart1Nom.NomParseLineRuns(CalibrationPart1Nom.Digit1Reader, line);
    TwoRunsParse("3", "8");
  }

  lemma NomTestTreb7uchetRuns(line: string)
    requires line == "treb7uchet"
    ensures CalibrationPart1Nom.DigitRuns(CalibrationPart1Nom.Digit1Reader, line) == ["7"]
  {
    var d1 := CalibrationPart1Nom.Digit1Reader;
    NoRead(d1, line, 9, 10);
    NoRead(d1, line, 8, 10);
    NoRead(d1, line, 7, 10);
    NoRead(d1, line, 6, 10);
    NoRead(d1, line, 5, 10);
    ReadDigit(line, 4, 10);
    NoRead(d1, line, 3, 10);
    NoRead(d1, line, 2, 10);
    NoRead(d1, line, 1, 10);
    NoRead(d1, line, 0, 10);
  }

  /** `nom_parse_line("treb7uchet")` reads ["7"], which `parse_nom_result`
      turns into 77: the single digit is both first and last. */
  lemma NomTestTreb7uchet(line: string)
    requires line == "treb7uchet"
    ensures CalibrationPart1Nom.NomParseLine(CalibrationPart1Nom.Digit1Reader, line) == Some(Parsed(["7"], []))
    ensures CalibrationPart1Nom.ParseNomResult(["7"]) == Ok(77)
  {
    NomTestTreb7uchetRuns(line);
    assert AlphanumericLine(line);
    CalibrationPart1Nom.NomParseLineRuns(CalibrationPart1Nom.Digit1Reader, line);
    OneRunParses("7");
  }

  /** `parse_nom_result` of two one-digit runs. */
  lemma TwoRunsParse(first: string, last: string)
    requires |first| == 1 && IsDigit(first[0]) && |last| == 1 && IsDigit(last[0])
    ensures CalibrationPart1Nom.ParseNomResult([first, last]) == Ok(10 * DigitValue(first[0]) + DigitValue(last[0]))
  {
    OneDigitParses(first);
    OneDigitParses(last);
  }

  /** `parse_nom_result` of a single one-digit run. */
  lemma OneRunParses(run: string)
    requires |run| == 1 && IsDigit(run[0])
    ensures CalibrationPart1Nom.ParseNomResult([run]) == Ok(11 * DigitValue(run[0]))
  {
    OneDigitParses(run);
  }
}
