/** The five solvers of 2023 day 1 side by side, and the puzzle's
    examples. */
module CalibrationVariants {
  import opened Outcome
  import opened Text
  import opened Nom
  import opened Calibration
  import opened CalibrationNom
  import CalibrationPart1
  import CalibrationPart2
  import CalibrationPart1Nom
  import CalibrationPart2Nom

  /** Lines of letters and digits contain no '\n'. */
  lemma NoNewlineIn(lines: seq<string>)
    requires AlphanumericLines(lines)
    ensures forall i :: 0 <= i < |lines| ==> "\n"[0] !in lines[i]
  {
    forall i | 0 <= i < |lines|
      ensures "\n"[0] !in lines[i]
    {
      assert AlphanumericLine(lines[i]);
    }
  }

  /** On a document of lines of letters and digits, separated by '\n', the
      solvers by hand, the part 2 nom solver and the part 1 nom solver read
      one digit at a time give the puzzle's value; the nom solvers also
      accept a final line ending. The part 1 nom solver as written agrees
      when no line has two adjacent digits. */
  lemma AllSolversAgree(lines: seq<string>, rest: string)
    requires lines != [] && AlphanumericLines(lines) && LinesEnd(rest)
    ensures CalibrationPart1.Process(Join(lines, "\n")) == Total(Document(DigitsOnly, lines))
    ensures CalibrationPart2.Process(Join(lines, "\n")) == Total(Document(DigitsAndWords, lines))
    ensures CalibrationPart2Nom.Process(Join(lines, "\n") + rest) == Total(Document(DigitsAndWords, lines))
    ensures CalibrationPart1Nom.Process(CalibrationPart1Nom.OneDigitReader, Join(lines, "\n") + rest) == Total(Document(DigitsOnly, lines))
    ensures (forall i :: 0 <= i < |lines| ==> CalibrationPart1Nom.NoAdjacentDigits(lines[i])) ==>
      CalibrationPart1Nom.Process(CalibrationPart1Nom.Digit1Reader, Join(lines, "\n") + rest) == Total(Document(DigitsOnly, lines))
  {
    ByHandAgree(lines);
    NomLinesOf(lines, rest);
    NomAgree(Join(lines, "\n") + rest);
  }

  /** The solvers by hand split a document without a final '\n' into its
      lines. */
  lemma ByHandAgree(lines: seq<string>)
    requires lines != [] && AlphanumericLines(lines)
    ensures CalibrationPart1.Process(Join(lines, "\n")) == Total(Document(DigitsOnly, lines))
    ensures CalibrationPart2.Process(Join(lines, "\n")) == Total(Document(DigitsAndWords, lines))
  {
    NoNewlineIn(lines);
    SplitOfJoin(lines, "\n");
  }

  /** The nom solvers give the puzzle's value of the lines nom reads. */
  lemma NomAgree(input: string)
    requires NomLines(input).Some?
    ensures CalibrationPart2Nom.Process(input) == Total(Document(DigitsAndWords, NomLines(input).value.value))
    ensures CalibrationPart1Nom.Process(CalibrationPart1Nom.OneDigitReader, input) == Total(Document(DigitsOnly, NomLines(input).value.value))
    ensures (forall i :: 0 <= i < |NomLines(input).value.value| ==> CalibrationPart1Nom.NoAdjacentDigits(NomLines(input).value.value[i])) ==>
      CalibrationPart1Nom.Process(CalibrationPart1Nom.Digit1Reader, input) == Total(Document(DigitsOnly, NomLines(input).value.value))
  {
    CalibrationPart1Nom.OneDigitProcess(input);
    if forall i :: 0 <= i < |NomLines(input).value.value| ==> CalibrationPart1Nom.NoAdjacentDigits(NomLines(input).value.value[i]) {
      CalibrationPart1Nom.SparseProcess(input);
    }
  }

  lemma {:induction false} JoinSnoc(parts: seq<string>, sep: string, last: string)
    requires parts != []
    ensures Join(parts + [last], sep) == Join(parts, sep) + sep + last
    decreases |parts|
  {
    var all := parts + [last];
    assert all[0] == parts[0];
    if |parts| > 1 {
      assert all[1..] == parts[1..] + [last];
      JoinSnoc(parts[1..], sep, last);
    } else {
      assert all[1..] == [last];
    }
  }

  /** A final '\n' leaves an empty last piece, on which the solvers by hand
      panic, while the nom solvers stop before it. */
  lemma TrailingNewline(lines: seq<string>)
    requires lines != [] && AlphanumericLines(lines)
    ensures CalibrationPart1.Process(Join(lines, "\n") + "\n") == Panic
    ensures CalibrationPart2.Process(Join(lines, "\n") + "\n") == Panic
    ensures CalibrationPart2Nom.Process(Join(lines, "\n") + "\n") == Total(Document(DigitsAndWords, lines))
    ensures CalibrationPart1Nom.Process(CalibrationPart1Nom.OneDigitReader, Join(lines, "\n") + "\n") == Total(Document(DigitsOnly, lines))
  {
    TrailingPanics(lines);
    NomLinesOf(lines, "\n");
    NomAgree(Join(lines, "\n") + "\n");
  }

  lemma TrailingPanics(lines: seq<string>)
    requires lines != [] && AlphanumericLines(lines)
    ensures CalibrationPart1.Process(Join(lines, "\n") + "\n") == Panic
    ensures CalibrationPart2.Process(Join(lines, "\n") + "\n") == Panic
  {
    TrailingPieces(lines);
    var pieces := lines + [""];
    EmptyLastPanics(DigitsOnly, pieces);
    EmptyLastPanics(DigitsAndWords, pieces);
  }

  /** The pieces between the '\n's of a document with a final '\n'. */
  lemma TrailingPieces(lines: seq<string>)
    requires lines != [] && AlphanumericLines(lines)
    ensures Split(Join(lines, "\n") + "\n", "\n") == lines + [""]
  {
    var pieces := lines + [""];
    forall i | 0 <= i < |pieces|
      ensures "\n"[0] !in pieces[i]
    {
      if i < |lines| {
        assert pieces[i] == lines[i] && AlphanumericLine(lines[i]);
      }
    }
    JoinSnoc(lines, "\n", "");
    assert Join(pieces, "\n") == Join(lines, "\n") + "\n";
    SplitOfJoin(pieces, "\n");
  }

  /** An empty last line has no value, so the total panics. */
  lemma EmptyLastPanics(scheme: Scheme, pieces: seq<string>)
    requires pieces != [] && pieces[|pieces| - 1] == ""
    ensures Total(Document(scheme, pieces)) == Panic
  {
    assert Found(scheme, "") == [];
    assert Document(scheme, pieces)[|pieces| - 1].Panic?;
  }
}
