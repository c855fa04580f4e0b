/** The three-line schematic of the part 1 unit test of 2023 day 3:
      467..114..
      ...*......
      ..35..633.
    Its four part numbers, its one symbol and gear, and both answers. */
module SchematicSample {
  import opened Outcome
  import opened Seqs
  import opened Text
  import opened Schematic
  import opened SchematicPart1
  import opened SchematicPart2

  /** The part numbers of the sample, in reading order. */
  function SampleParts(): seq<PartNumber> {
    [PartOf(0, 0, "467"), PartOf(0, 5, "114"), PartOf(2, 2, "35"), PartOf(2, 6, "633")]
  }

  lemma Row0Runs(line: string)
    requires line == "467..114.."
    ensures DigitRuns(line) == [Span(0, 3), Span(5, 8)]
    ensures RunTexts(line, DigitRuns(line)) == ["467", "114"]
  {
    assert SkipNonDigits(line, 10) == 10;
    assert SkipNonDigits(line, 9) == 10;
    assert SkipNonDigits(line, 8) == 10;
    assert SkipDigits(line, 8) == 8;
    assert SkipDigits(line, 7) == 8;
    assert SkipDigits(line, 6) == 8;
    assert SkipDigits(line, 5) == 8;
    assert SkipNonDigits(line, 5) == 5;
    assert SkipNonDigits(line, 4) == 5;
    assert SkipNonDigits(line, 3) == 5;
    assert SkipDigits(line, 3) == 3;
    assert SkipDigits(line, 2) == 3;
    assert SkipDigits(line, 1) == 3;
    assert SkipDigits(line, 0) == 3;
    assert SkipNonDigits(line, 0) == 0;
    assert DigitRunsFrom(line, 10) == [];
    assert DigitRunsFrom(line, 5) == [Span(5, 8)];
    assert line[0..3] == "467" && line[5..8] == "114";
  }

  lemma Row0Located(line: string, texts: seq<string>)
    requires line == "467..114.." && texts == ["467", "114"]
    ensures LocateRuns(line, texts, 0) == Ok([0, 5])
  {
    var rest := texts[1..];
    assert rest[0] == "114" && rest[1..] == [];
    assert FirstOccurrenceFrom(line, "114", 1, 5) by {
      assert line[5..8] == "114";
      forall j | 1 <= j < 5 ensures !OccursAt(line, "114", j) {
        assert line[j..j + 3][0] == line[j];
      }
    }
    assert LocateRuns(line, [], 6) == Ok([]);
    LocateRunsCons(line, rest, 1, 5);
    assert [5] + [] == [5];
    assert FirstOccurrenceFrom(line, "467", 0, 0) by {
      assert line[0..3] == "467";
    }
    LocateRunsCons(line, texts, 0, 0);
    assert [0] + [5] == [0, 5];
  }

  /** The first row: 467 at column 0 and 114 at column 5. */
  lemma Row0Parts(line: string)
    requires line == "467..114.."
    ensures LineParts(0, line) == [PartOf(0, 0, "467"), PartOf(0, 5, "114")]
  {
    Row0Runs(line);
    Row0Located(line, RunTexts(line, DigitRuns(line)));
    assert Columns(line) == [0, 5];
  }

  /** The second row holds no digit. */
  lemma Row1Parts(line: string)
    requires line == "...*......"
    ensures LineParts(1, line) == []
  {
    assert SkipNonDigits(line, 10) == 10;
    assert SkipNonDigits(line, 5) == 10;
    assert SkipNonDigits(line, 0) == 10;
    assert DigitRuns(line) == [];
  }

  lemma Row2Runs(line: string)
    requires line == "..35..633."
    ensures DigitRuns(line) == [Span(2, 4), Span(6, 9)]
    ensures RunTexts(line, DigitRuns(line)) == ["35", "633"]
  {
    assert SkipNonDigits(line, 10) == 10;
    assert SkipNonDigits(line, 9) == 10;
    assert SkipDigits(line, 9) == 9;
    assert SkipDigits(line, 8) == 9;
    assert SkipDigits(line, 7) == 9;
    assert SkipDigits(line, 6) == 9;
    assert SkipNonDigits(line, 6) == 6;
    assert SkipNonDigits(line, 5) == 6;
    assert SkipNonDigits(line, 4) == 6;
    assert SkipDigits(line, 4) == 4;
    assert SkipDigits(line, 3) == 4;
    assert SkipDigits(line, 2) == 4;
    assert SkipNonDigits(line, 2) == 2;
    assert SkipNonDigits(line, 1) == 2;
    assert SkipNonDigits(line, 0) == 2;
    assert DigitRunsFrom(line, 10) == [];
    assert DigitRunsFrom(line, 6) == [Span(6, 9)];
    assert line[2..4] == "35" && line[6..9] == "633";
  }

  lemma Row2Located(line: string, texts: seq<string>)
    requires line == "..35..633." && texts == ["35", "633"]
    ensures LocateRuns(line, texts, 0) == Ok([2, 6])
  {
    var rest := texts[1..];
    assert rest[0] == "633" && rest[1..] == [];
    assert FirstOccurrenceFrom(line, "633", 3, 6) by {
      assert line[6..9] == "633";
      forall j | 3 <= j < 6 ensures !OccursAt(line, "633", j) {
        assert line[j..j + 3][0] == line[j];
      }
    }
    assert LocateRuns(line, [], 7) == Ok([]);
    LocateRunsCons(line, rest, 3, 6);
    assert [6] + [] == [6];
    assert FirstOccurrenceFrom(line, "35", 0, 2) by {
      assert line[2..4] == "35";
      forall j | 0 <= j < 2 ensures !OccursAt(line, "35", j) {
        assert line[j..j + 2][0] == line[j];
      }
    }
    LocateRunsCons(line, texts, 0, 2);
    assert [2] + [6] == [2, 6];
  }

  /** The third row: 35 at column 2 and 633 at column 6. */
  lemma Row2Parts(line: string)
    requires line == "..35..633."
    ensures LineParts(2, line) == [PartOf(2, 2, "35"), PartOf(2, 6, "633")]
  {
    Row2Runs(line);
    Row2Located(line, RunTexts(line, DigitRuns(line)));
    assert Columns(line) == [2, 6];
  }

  /** The part numbers of the three rows, in reading order. */
  lemma PartsOfRows(lines: seq<string>)
    requires lines == ["467..114..", "...*......", "..35..633."]
    ensures PartNumbersOf(lines) == SampleParts()
  {
    var rows := RowParts(lines);
    FlattenThree(rows);
    Row0Parts(lines[0]);
    Row1Parts(lines[1]);
    Row2Parts(lines[2]);
    RowsConcat(rows[0], rows[1], rows[2]);
  }

  lemma RowsConcat(r0: seq<PartNumber>, r1: seq<PartNumber>, r2: seq<PartNumber>)
    requires r0 == [PartOf(0, 0, "467"), PartOf(0, 5, "114")] && r1 == [] && r2 == [PartOf(2, 2, "35"), PartOf(2, 6, "633")]
    ensures r0 + r1 + r2 == SampleParts()
  {
  }

  lemma FlattenThree<T>(rows: seq<seq<T>>)
    requires |rows| == 3
    ensures Flatten(rows) == rows[0] + rows[1] + rows[2]
  {
    var one, two := rows[..1], rows[..2];
    assert one[..0] == [] && one[0] == rows[0];
    assert Flatten(one) == [] + rows[0];
    assert two[..1] == one && two[1] == rows[1];
    assert Flatten(two) == Flatten(one) + rows[1];
    assert Flatten(rows) == Flatten(two) + rows[2];
  }

  /** The only symbol of the rows, and their only gear, is the '*' at row 1,
      column 3. */
  lemma MarksOfRows(lines: seq<string>, kind: CellKind)
    requires lines == ["467..114..", "...*......", "..35..633."]
    ensures MarkedCells(lines, kind) == {(1, 3)}
  {
    forall r, c ensures (r, c) in MarkedCells(lines, kind) <==> r == 1 && c == 3 {
      if 0 <= r < 3 && 0 <= c < 10 {
        assert |lines[r]| == 10;
      }
    }
  }

  /** The input text has the three rows as its lines. */
  lemma LinesOfSample(input: string, lines: seq<string>)
    requires input == "467..114..\n...*......\n..35..633."
    requires lines == ["467..114..", "...*......", "..35..633."]
    ensures Lines(input) == lines
  {
    assert lines[1..][1..] == [lines[2]];
    assert Join(lines[1..], "\n") == lines[1] + "\n" + lines[2];
    assert Join(lines, "\n") == input;
    forall i | 0 <= i < |lines| ensures lines[i] != [] && '\n' !in lines[i] && '\r' !in lines[i] {
      RowAvoids(lines[i]);
    }
    LinesOfJoin(lines);
  }

  lemma RowAvoids(line: string)
    requires line == "467..114.." || line == "...*......" || line == "..35..633."
    ensures line != [] && '\n' !in line && '\r' !in line
  {
  }

  /** The values of the four part numbers. */
  lemma SampleValues(parts: seq<PartNumber>)
    requires parts == SampleParts()
    ensures parts[0].value == 467 && parts[1].value == 114 && parts[2].value == 35 && parts[3].value == 633
  {
    TokenValue467(parts[0].value, "467");
    ThreeDigitValue(parts[1].value, "114", 1, 1, 4);
    TokenValue35(parts[2].value, "35");
    ThreeDigitValue(parts[3].value, "633", 6, 3, 3);
  }

  lemma ThreeDigitValue(v: int, t: string, a: nat, b: nat, c: nat)
    requires |t| == 3 && AllDigits(t) && v == TokenValue(t)
    requires DigitValue(t[0]) == a && DigitValue(t[1]) == b && DigitValue(t[2]) == c
    ensures v == 100 * a + 10 * b + c
  {
    assert t[..2][..1][..0] == [];
    assert t[..2][..1][0] == t[0] && t[..2][1] == t[1];
    assert DecimalValue(t[..2][..1]) == a;
    assert DecimalValue(t[..2]) == 10 * a + b;
    assert DecimalValue(t) == 100 * a + 10 * b + c;
    TokenValueOfDigits(t);
  }

  /** 467 and 35 touch the symbol, 114 and 633 do not: 502. */
  lemma SampleSum(parts: seq<PartNumber>, symbols: set<Cell>)
    requires parts == SampleParts() && symbols == {(1, 3)}
    ensures SumNextToSymbol(parts, symbols) == 502
  {
    FootprintCells(0, 0, 3);
    FootprintCells(0, 5, 3);
    FootprintCells(2, 2, 2);
    FootprintCells(2, 6, 3);
    assert (1, 3) in parts[0].adj * symbols && (1, 3) in parts[2].adj * symbols;
    assert parts[1].adj * symbols == {} && parts[3].adj * symbols == {};
    SampleValues(parts);
    var tail := parts[1..];
    assert tail[1..][1..][1..] == [];
    assert SumNextToSymbol(tail[1..][1..], symbols) == 0;
    assert SumNextToSymbol(tail[1..], symbols) == 35;
    assert SumNextToSymbol(tail, symbols) == 35;
  }

  /** The one gear of the sample touches 467 and 35: 467 * 35 = 16345. */
  lemma SampleRatios(parts: seq<PartNumber>, gears: set<Cell>)
    requires parts == SampleParts() && gears == {(1, 3)}
    ensures RatioSum(parts, gears) == 16345
  {
    RatioSumRemove(parts, gears, (1, 3));
    assert gears - {(1, 3)} == {};
    SampleGearRatioOf(parts);
  }

  /** The unit test of part 1: three lines, four part numbers 467, 114, 35
      and 633, the one symbol (1, 3), and the answer 502; part 2 reads the
      same symbol as the one gear and answers 16345. */
  lemma SampleSchematic(input: string)
    requires input == "467..114..\n...*......\n..35..633."
    ensures |Lines(input)| == 3
    ensures PartNumbersOf(Lines(input)) == SampleParts()
    ensures MarkedCells(Lines(input), SymbolCell) == {(1, 3)} && MarkedCells(Lines(input), GearCell) == {(1, 3)}
    ensures SumNextToSymbol(PartNumbersOf(Lines(input)), MarkedCells(Lines(input), SymbolCell)) == 502
    ensures RatioSum(PartNumbersOf(Lines(input)), MarkedCells(Lines(input), GearCell)) == 16345
  {
    var lines := ["467..114..", "...*......", "..35..633."];
    LinesOfSample(input, lines);
    PartsOfRows(lines);
    MarksOfRows(lines, SymbolCell);
    MarksOfRows(lines, GearCell);
    SampleSum(SampleParts(), {(1, 3)});
    SampleRatios(SampleParts(), {(1, 3)});
  }
}
