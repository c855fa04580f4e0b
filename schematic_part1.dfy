/** Part 1 of 2023 day 3: the sum of the part numbers whose recorded
    footprint holds a symbol. */
module SchematicPart1 {
  import opened Outcome
  import opened Seqs
  import opened Text
  import opened Schematic

  /** `PartNumber::next_to_symbol`: the footprint meets the symbol set. */
  predicate NextToSymbol(p: PartNumber, symbols: set<Cell>) {
    p.adj * symbols != {}
  }

  /** The sum of the values of the part numbers next to a symbol. */
  function SumNextToSymbol(parts: seq<PartNumber>, symbols: set<Cell>): int {
    if parts == [] then 0
    else (if NextToSymbol(parts[0], symbols) then parts[0].value else 0) + SumNextToSymbol(parts[1..], symbols)
  }

  /** The sum of all part number values. */
  function SumValues(parts: seq<PartNumber>): int {
    if parts == [] then 0 else parts[0].value + SumValues(parts[1..])
  }

  /** `process`: parse the schematic, then filter, map and sum in one pass. */
  method Process(input: string) returns (result: int)
    ensures result == SumNextToSymbol(PartNumbersOf(Lines(input)), MarkedCells(Lines(input), SymbolCell))
  {
    var es := ParseSchematic(input);
    var parts := es.partNumbers;
    result := 0;
    var i := |parts|;
    while i > 0
      invariant 0 <= i <= |parts|
      invariant result == SumNextToSymbol(parts[i..], es.symbols)
    {
      i := i - 1;
      assert parts[i..][1..] == parts[i + 1..];
      if NextToSymbol(parts[i], es.symbols) {
        result := result + parts[i].value;
      }
    }
    assert parts[0..] == parts;
  }

  /** The sum splits over a concatenation of part lists (e.g. row by row). */
  lemma {:induction false} SumAppend(a: seq<PartNumber>, b: seq<PartNumber>, symbols: set<Cell>)
    ensures SumNextToSymbol(a + b, symbols) == SumNextToSymbol(a, symbols) + SumNextToSymbol(b, symbols)
    decreases |a|
  {
    if a != [] {
      assert (a + b)[0] == a[0];
      assert (a + b)[1..] == a[1..] + b;
      SumAppend(a[1..], b, symbols);
    } else {
      assert a + b == b;
    }
  }

  /** With no symbol at all, nothing is counted. */
  lemma {:induction false} SumWithoutSymbols(parts: seq<PartNumber>)
    ensures SumNextToSymbol(parts, {}) == 0
    decreases |parts|
  {
    if parts != [] {
      SumWithoutSymbols(parts[1..]);
    }
  }

  /** When every footprint meets the symbols, every part number is counted. */
  lemma {:induction false} SumAllNextToSymbol(parts: seq<PartNumber>, symbols: set<Cell>)
    requires forall i :: 0 <= i < |parts| ==> NextToSymbol(parts[i], symbols)
    ensures SumNextToSymbol(parts, symbols) == SumValues(parts)
    decreases |parts|
  {
    if parts != [] {
      assert forall i :: 0 <= i < |parts| - 1 ==> parts[1..][i] == parts[i + 1];
      SumAllNextToSymbol(parts[1..], symbols);
    }
  }

  /** For non-negative values the sum lies between 0 and the sum of all values,
      and it can only grow when symbols are added. */
  lemma {:induction false} SumMonotone(parts: seq<PartNumber>, s1: set<Cell>, s2: set<Cell>)
    requires forall i :: 0 <= i < |parts| ==> parts[i].value >= 0
    requires s1 <= s2
    ensures 0 <= SumNextToSymbol(parts, s1) <= SumNextToSymbol(parts, s2) <= SumValues(parts)
    decreases |parts|
  {
    if parts != [] {
      assert forall i :: 0 <= i < |parts| - 1 ==> parts[1..][i] == parts[i + 1];
      SumMonotone(parts[1..], s1, s2);
      assert parts[0].adj * s1 <= parts[0].adj * s2;
    }
  }

  /** Every part number value is non-negative: a token is a run of digits. */
  lemma PartValuesNonNegative(lines: seq<string>)
    ensures forall i :: 0 <= i < |PartNumbersOf(lines)| ==> PartNumbersOf(lines)[i].value >= 0
  {
    forall i | 0 <= i < |PartNumbersOf(lines)| ensures PartNumbersOf(lines)[i].value >= 0 {
      var r, k := FlattenIndex(RowParts(lines), i);
      LinePartNonNegative(r, lines[r], k);
    }
  }

  lemma LinePartNonNegative(row: int, line: string, k: nat)
    requires k < |LineParts(row, line)|
    ensures LineParts(row, line)[k].value >= 0
  {
    var runs := DigitRuns(line);
    DigitRunsFromAreRuns(line, 0);
    TokenOfRunNonNegative(line, runs[k]);
    assert LineParts(row, line)[k].value == TokenValue(RunTexts(line, runs)[k]);
  }

  lemma TokenOfRunNonNegative(line: string, s: Span)
    requires IsDigitRun(line, s)
    ensures TokenValue(line[s.start..s.end]) >= 0
  {
    assert AllDigits(line[s.start..s.end]);
    TokenValueOfDigits(line[s.start..s.end]);
  }

  /** The digit cells of a run of `len` digits starting at (row, col). */
  function RunCells(row: int, col: int, len: nat): set<Cell> {
    set k | col <= k < col + len :: (row, k)
  }

  /** p is q or one of its eight neighbours. */
  predicate WithinOne(p: Cell, q: Cell) {
    q.0 - 1 <= p.0 <= q.0 + 1 && q.1 - 1 <= p.1 <= q.1 + 1
  }

  /** A cell touches a run when it is within one step of one of its digits. */
  predicate Touches(p: Cell, row: int, col: int, len: nat) {
    exists q :: q in RunCells(row, col, len) && WithinOne(p, q)
  }

  /** The recorded footprint is the set of cells touching the run, without the
      first digit's cell: so when a run is recorded at its own column, a cell
      not holding a digit is in the footprint exactly when it touches one of
      the run's digits. */
  lemma FootprintIsNeighbourhood(row: int, col: int, len: nat, p: Cell)
    requires len >= 1
    ensures p in Footprint(row, col, len) <==> Touches(p, row, col, len) && p != (row, col)
  {
    FootprintCells(row, col, len);
    var (r, c) := p;
    assert p == (r, c);
    if row - 1 <= r <= row + 1 && col - 1 <= c <= col + len {
      var k := if c < col then col else if c >= col + len then col + len - 1 else c;
      assert (row, k) in RunCells(row, col, len) && WithinOne(p, (row, k));
    }
    if Touches(p, row, col, len) {
      var q :| q in RunCells(row, col, len) && WithinOne(p, q);
      assert row - 1 <= r <= row + 1 && col - 1 <= c <= col + len;
    }
  }

  /** A test line whose first and last runs have the same text: the search
      restarts past the first, so the last is found at its own column. */
  lemma RepeatedRuns(line: string)
    requires line == "467..114..467"
    ensures DigitRuns(line) == [Span(0, 3), Span(5, 8), Span(10, 13)]
    ensures RunTexts(line, DigitRuns(line)) == ["467", "114", "467"]
  {
    assert SkipNonDigits(line, 13) == 13;
    assert SkipDigits(line, 13) == 13;
    assert SkipDigits(line, 12) == 13;
    assert SkipDigits(line, 11) == 13;
    assert SkipDigits(line, 10) == 13;
    assert SkipNonDigits(line, 10) == 10;
    assert SkipNonDigits(line, 9) == 10;
    assert SkipNonDigits(line, 8) == 10;
    assert SkipDigits(line, 8) == 8;
    assert SkipDigits(line, 7) == 8;
    assert SkipDigits(line, 6) == 8;
    assert SkipDigits(line, 5) == 8;
    assert SkipNonDigits(line, 5) == 5;
    assert SkipNonDigits(line, 4) == 5;
    assert SkipNonDigits(line, 3) == 5;
    assert SkipDigits(line, 3) == 3;
    assert SkipDigits(line, 2) == 3;
    assert SkipDigits(line, 1) == 3;
    assert SkipDigits(line, 0) == 3;
    assert SkipNonDigits(line, 0) == 0;
    assert DigitRunsFrom(line, 13) == [];
    assert DigitRunsFrom(line, 10) == [Span(10, 13)];
    assert DigitRunsFrom(line, 5) == [Span(5, 8), Span(10, 13)];
    assert line[0..3] == "467" && line[5..8] == "114" && line[10..13] == "467";
  }

  lemma RepeatedRunLastColumn(line: string, texts: seq<string>)
    requires line == "467..114..467" && texts == ["467"]
    ensures LocateRuns(line, texts, 6) == Ok([10])
  {
    assert FirstOccurrenceFrom(line, "467", 6, 10) by {
      assert line[10..13] == "467";
      forall j | 6 <= j < 10 ensures !OccursAt(line, "467", j) {
        assert line[j..j + 3][0] == line[j] && line[j..j + 3][1] == line[j + 1];
      }
    }
    assert LocateRuns(line, [], 11) == Ok([]);
    assert texts[0] == "467" && texts[1..] == [];
    LocateRunsCons(line, texts, 6, 10);
    assert [10] + [] == [10];
  }

  lemma RepeatedRunMiddleColumn(line: string, texts: seq<string>)
    requires line == "467..114..467" && texts == ["114", "467"]
    ensures LocateRuns(line, texts, 1) == Ok([5, 10])
  {
    RepeatedRunLastColumn(line, texts[1..]);
    assert FirstOccurrenceFrom(line, "114", 1, 5) by {
      assert line[5..8] == "114";
      forall j | 1 <= j < 5 ensures !OccursAt(line, "114", j) {
        assert line[j..j + 3][0] == line[j];
      }
    }
    assert texts[0] == "114";
    LocateRunsCons(line, texts, 1, 5);
    assert [5] + [10] == [5, 10];
  }

  lemma RepeatedRunColumns(line: string)
    requires line == "467..114..467"
    ensures Columns(line) == [0, 5, 10]
  {
    RepeatedRuns(line);
    RepeatedRunFirstColumn(line, RunTexts(line, DigitRuns(line)));
  }

  lemma RepeatedRunFirstColumn(line: string, texts: seq<string>)
    requires line == "467..114..467" && texts == ["467", "114", "467"]
    ensures LocateRuns(line, texts, 0) == Ok([0, 5, 10])
  {
    RepeatedRunMiddleColumn(line, texts[1..]);
    assert FirstOccurrenceFrom(line, "467", 0, 0) by {
      assert line[0..3] == "467";
    }
    assert texts[0] == "467";
    LocateRunsCons(line, texts, 0, 0);
    assert [0] + [5, 10] == [0, 5, 10];
  }

  /** In "12.2*" the runs are "12" and "2"; the search for "2" restarts at
      column 1 and finds the '2' inside "12", so the second run is recorded at
      column 1 rather than its own column 3. */
  lemma MislocatedRunColumns(line: string)
    requires line == "12.2*"
    ensures DigitRuns(line) == [Span(0, 2), Span(3, 4)]
    ensures RunTexts(line, DigitRuns(line)) == ["12", "2"]
    ensures Columns(line) == [0, 1]
  {
    MislocatedRuns(line);
    MislocatedRunLocated(line, RunTexts(line, DigitRuns(line)));
  }

  lemma MislocatedRunLocated(line: string, texts: seq<string>)
    requires line == "12.2*" && texts == ["12", "2"]
    ensures LocateRuns(line, texts, 0) == Ok([0, 1])
  {
    var rest := texts[1..];
    assert rest[0] == "2" && rest[1..] == [];
    assert FirstOccurrenceFrom(line, "2", 1, 1) by {
      assert line[1..2] == "2";
    }
    assert LocateRuns(line, [], 2) == Ok([]);
    LocateRunsCons(line, rest, 1, 1);
    assert [1] + [] == [1];
    assert FirstOccurrenceFrom(line, "12", 0, 0) by {
      assert line[0..2] == "12";
    }
    LocateRunsCons(line, texts, 0, 0);
    assert [0] + [1] == [0, 1];
  }

  lemma MislocatedRuns(line: string)
    requires line == "12.2*"
    ensures DigitRuns(line) == [Span(0, 2), Span(3, 4)]
    ensures RunTexts(line, DigitRuns(line)) == ["12", "2"]
  {
    assert SkipNonDigits(line, 0) == 0;
    assert SkipDigits(line, 2) == 2;
    assert SkipDigits(line, 1) == 2;
    assert SkipDigits(line, 0) == 2;
    assert SkipNonDigits(line, 3) == 3;
    assert SkipNonDigits(line, 2) == 3;
    assert SkipDigits(line, 4) == 4;
    assert SkipDigits(line, 3) == 4;
    assert SkipNonDigits(line, 5) == 5;
    assert SkipNonDigits(line, 4) == 5;
    assert DigitRunsFrom(line, 5) == [];
    assert DigitRunsFrom(line, 3) == [Span(3, 4)];
    assert line[0..2] == "12" && line[3..4] == "2";
  }

  /** The one-line grid "12.2*" has one symbol, the '*' at column 4. */
  lemma MislocatedRunSymbols(input: string)
    requires input == "12.2*"
    ensures Lines(input) == [input]
    ensures MarkedCells([input], SymbolCell) == {(0, 4)}
  {
    assert Find(input, "\n") == None by {
      forall k | 0 <= k <= |input| ensures !OccursAt(input, "\n", k) {
        if k < |input| { assert input[k..k + 1][0] == input[k]; }
      }
    }
    forall r, c ensures (r, c) in MarkedCells([input], SymbolCell) <==> r == 0 && c == 4 {
      if r == 0 && 0 <= c < 5 {
        assert [input][r][c] == input[c];
      }
    }
  }

  /** Its part numbers: "12" recorded at column 0 and "2" at column 1. */
  lemma MislocatedRunParts(input: string)
    requires input == "12.2*"
    ensures PartNumbersOf([input]) == [PartOf(0, 0, "12"), PartOf(0, 1, "2")]
  {
    MislocatedRunColumns(input);
    var parts := LineParts(0, input);
    assert parts == [PartOf(0, 0, "12"), PartOf(0, 1, "2")];
    assert RowParts([input]) == [] + [parts];
    FlattenPush([], parts);
  }

  /** Consequently in "12.2*" the run "2" touches the '*' but its recorded
      footprint does not hold it, and nothing is counted. */
  lemma MislocatedRunIsMissed(input: string)
    requires input == "12.2*"
    ensures Touches((0, 4), 0, 3, 1)
    ensures SumNextToSymbol(PartNumbersOf(Lines(input)), MarkedCells(Lines(input), SymbolCell)) == 0
  {
    assert (0, 3) in RunCells(0, 3, 1) && WithinOne((0, 4), (0, 3));
    MislocatedRunSymbols(input);
    MislocatedRunParts(input);
    NothingNextToSymbol([PartOf(0, 0, "12"), PartOf(0, 1, "2")], {(0, 4)});
    assert PartNumbersOf(Lines(input)) == [PartOf(0, 0, "12"), PartOf(0, 1, "2")];
    assert MarkedCells(Lines(input), SymbolCell) == {(0, 4)};
  }

  lemma NothingNextToSymbol(parts: seq<PartNumber>, symbols: set<Cell>)
    requires parts == [PartOf(0, 0, "12"), PartOf(0, 1, "2")] && symbols == {(0, 4)}
    ensures SumNextToSymbol(parts, symbols) == 0
  {
    FootprintCells(0, 0, 2);
    FootprintCells(0, 1, 1);
    assert (0, 4) !in parts[0].adj && (0, 4) !in parts[1].adj;
    assert parts[0].adj * symbols == {} && parts[1].adj * symbols == {};
    assert parts[1..][1..] == [];
    assert SumNextToSymbol(parts[1..], symbols) == 0;
  }
}
