/** The engine schematic of 2023 day 3: a grid of text whose digit runs are
    part numbers and whose other non-'.' characters are symbols ('*' is a gear).
    This module models `parse_schematic` and `PartNumber::new`, which the two
    parts of the puzzle share (part 2 also collects the gears). */
module Schematic {
  import opened Outcome
  import opened Seqs
  import opened Text

  /** A (row, column) grid coordinate; rows and columns may be -1 in a footprint. */
  type Cell = (int, int)

  /** A part number: its value and the cells it counts as adjacent to. */
  datatype PartNumber = PartNumber(value: int, adj: set<Cell>)

  datatype EngineSchematic = EngineSchematic(partNumbers: seq<PartNumber>, symbols: set<Cell>, gears: set<Cell>)

  /* ---------------------------------------------------------------------
     Digit runs: many0(delimited(many0(non-digit), digit1, many0(non-digit)))
     --------------------------------------------------------------------- */

  /** The half-open column range [start, end) of a slice that nom returned. */
  datatype Span = Span(start: nat, end: nat)

  /** many0(satisfy(non-digit)) from column i: the column where it stops. */
  function SkipNonDigits(line: string, i: nat): (j: nat)
    requires i <= |line|
    ensures i <= j <= |line|
    ensures forall k :: i <= k < j ==> !IsDigit(line[k])
    ensures j < |line| ==> IsDigit(line[j])
    decreases |line| - i
  {
    if i == |line| || IsDigit(line[i]) then i else SkipNonDigits(line, i + 1)
  }

  /** digit1's extent from column i. */
  function SkipDigits(line: string, i: nat): (j: nat)
    requires i <= |line|
    ensures i <= j <= |line|
    ensures forall k :: i <= k < j ==> IsDigit(line[k])
    ensures j < |line| ==> !IsDigit(line[j])
    decreases |line| - i
  {
    if i == |line| || !IsDigit(line[i]) then i else SkipDigits(line, i + 1)
  }

  /** The slices the nom parser returns when it starts at column i: each element
      skips non-digits, takes one or more digits, and skips non-digits again;
      the repetition stops when no digit is left. */
  function DigitRunsFrom(line: string, i: nat): (runs: seq<Span>)
    requires i <= |line|
    ensures forall k :: 0 <= k < |runs| ==> i <= runs[k].start < runs[k].end <= |line|
    ensures forall k :: 0 <= k < |runs| - 1 ==> runs[k].end < runs[k + 1].start
    decreases |line| - i
  {
    var a := SkipNonDigits(line, i);
    if a == |line| then []
    else
      var b := SkipDigits(line, a);
      var c := SkipNonDigits(line, b);
      assert b < |line| ==> b < c;
      [Span(a, b)] + DigitRunsFrom(line, c)
  }

  function DigitRuns(line: string): seq<Span> {
    DigitRunsFrom(line, 0)
  }

  /** A maximal run of digits of the line. */
  predicate IsDigitRun(line: string, s: Span) {
    && s.start < s.end <= |line|
    && (forall k :: s.start <= k < s.end ==> IsDigit(line[k]))
    && (s.start == 0 || !IsDigit(line[s.start - 1]))
    && (s.end == |line| || !IsDigit(line[s.end]))
  }

  /** From a column that does not split a run, every slice the parser returns
      is a maximal digit run. */
  lemma {:induction false} DigitRunsFromAreRuns(line: string, i: nat)
    requires i <= |line|
    requires i == 0 || i == |line| || !IsDigit(line[i - 1])
    ensures forall k :: 0 <= k < |DigitRunsFrom(line, i)| ==> IsDigitRun(line, DigitRunsFrom(line, i)[k])
    decreases |line| - i
  {
    var a := SkipNonDigits(line, i);
    if a < |line| {
      var b := SkipDigits(line, a);
      var c := SkipNonDigits(line, b);
      assert b < |line| ==> b < c;
      assert c == |line| || !IsDigit(line[c - 1]);
      DigitRunsFromAreRuns(line, c);
      assert a == 0 || !IsDigit(line[a - 1]);
      assert IsDigitRun(line, Span(a, b));
      assert DigitRunsFrom(line, i) == [Span(a, b)] + DigitRunsFrom(line, c);
    }
  }

  /** ... and every maximal digit run starting at or after that column is
      among them. */
  lemma {:induction false} DigitRunsFromAreComplete(line: string, i: nat, s: Span)
    requires i <= |line|
    requires IsDigitRun(line, s) && i <= s.start
    ensures s in DigitRunsFrom(line, i)
    decreases |line| - i
  {
    var a := SkipNonDigits(line, i);
    assert IsDigit(line[s.start]);
    assert a <= s.start;
    var b := SkipDigits(line, a);
    var c := SkipNonDigits(line, b);
    assert b < |line| ==> b < c;
    assert DigitRunsFrom(line, i) == [Span(a, b)] + DigitRunsFrom(line, c);
    if s.start == a {
      assert s.end < |line| ==> !IsDigit(line[s.end]);
      assert b < |line| ==> !IsDigit(line[b]);
      assert s == Span(a, b);
    } else {
      assert !IsDigit(line[s.start - 1]);
      assert b < s.start;
      assert c <= s.start;
      DigitRunsFromAreComplete(line, c, s);
    }
  }

  /** The parser over a whole line yields all its maximal digit runs, in order. */
  lemma DigitRunsAreMaximalRuns(line: string)
    ensures forall k :: 0 <= k < |DigitRuns(line)| ==> IsDigitRun(line, DigitRuns(line)[k])
    ensures forall k :: 0 <= k < |DigitRuns(line)| - 1 ==> DigitRuns(line)[k].end < DigitRuns(line)[k + 1].start
    ensures forall s :: IsDigitRun(line, s) ==> s in DigitRuns(line)
  {
    DigitRunsFromAreRuns(line, 0);
    forall s | IsDigitRun(line, s) ensures s in DigitRuns(line) {
      DigitRunsFromAreComplete(line, 0, s);
    }
  }

  /** The &str values of the slices. */
  function RunTexts(line: string, runs: seq<Span>): (texts: seq<string>)
    requires forall k :: 0 <= k < |runs| ==> runs[k].start <= runs[k].end <= |line|
    ensures |texts| == |runs|
    ensures forall k :: 0 <= k < |runs| ==> texts[k] == line[runs[k].start..runs[k].end]
  {
    seq(|runs|, k requires 0 <= k < |runs| => line[runs[k].start..runs[k].end])
  }

  /* ---------------------------------------------------------------------
     Locating each run again with `find`
     --------------------------------------------------------------------- */

  /** c is the first column at or after `from` where `text` occurs. */
  predicate FirstOccurrenceFrom(line: string, text: string, from: int, c: int) {
    && 0 <= from <= c
    && OccursAt(line, text, c)
    && forall j :: from <= j < c ==> !OccursAt(line, text, j)
  }

  /** Each text is first found at its column, searching from one past the
      previous text's column (from `processed` for the first). */
  predicate FoundInOrder(line: string, texts: seq<string>, processed: nat, cols: seq<int>) {
    && |cols| == |texts|
    && forall k :: 0 <= k < |texts| ==>
         FirstOccurrenceFrom(line, texts[k], if k == 0 then processed else cols[k - 1] + 1, cols[k])
  }

  lemma FoundInOrderCons(line: string, texts: seq<string>, processed: nat, c: nat, cols: seq<int>)
    requires texts != [] && FirstOccurrenceFrom(line, texts[0], processed, c)
    requires FoundInOrder(line, texts[1..], c + 1, cols)
    ensures FoundInOrder(line, texts, processed, [c] + cols)
  {
    forall k | 1 <= k < |texts|
      ensures FirstOccurrenceFrom(line, texts[k], ([c] + cols)[k - 1] + 1, ([c] + cols)[k])
    {
      var rest := texts[1..];
      var i := k - 1;
      assert 0 <= i < |rest|;
      assert FirstOccurrenceFrom(line, rest[i], if i == 0 then c + 1 else cols[i - 1] + 1, cols[i]);
      var from := if i == 0 then c + 1 else cols[i - 1] + 1;
      assert texts[k] == texts[1..][k - 1];
      assert ([c] + cols)[k - 1] + 1 == from && ([c] + cols)[k] == cols[k - 1];
    }
  }

  /** The loop over the run texts: `line[processed..].find(text).unwrap()`
      gives the column, and the search restarts one past that column. */
  function LocateRuns(line: string, texts: seq<string>, processed: nat): (r: Result<seq<int>>)
    ensures r.Ok? ==> FoundInOrder(line, texts, processed, r.value)
    decreases |texts|
  {
    if texts == [] then Ok([])
    else if processed > |line| then Panic
    else
      match Find(line[processed..], texts[0])
      case None => Panic
      case Some(loc) =>
        match LocateRuns(line, texts[1..], processed + loc + 1)
        case Panic => Panic
        case Ok(cols) =>
          FoundThenInOrder(line, texts, processed, loc, cols);
          Ok([processed + loc] + cols)
  }

  /** What `find` on the suffix from `processed` reports is the first
      occurrence at or after `processed`. */
  lemma FoundFirstOccurrence(line: string, text: string, processed: nat, loc: nat)
    requires processed <= |line| && Find(line[processed..], text) == Some(loc)
    ensures FirstOccurrenceFrom(line, text, processed, processed + loc)
  {
    FindInSuffix(line, text, processed);
  }

  lemma FoundThenInOrder(line: string, texts: seq<string>, processed: nat, loc: nat, cols: seq<int>)
    requires texts != [] && processed <= |line| && Find(line[processed..], texts[0]) == Some(loc)
    requires FoundInOrder(line, texts[1..], processed + loc + 1, cols)
    ensures FoundInOrder(line, texts, processed, [processed + loc] + cols)
  {
    FoundFirstOccurrence(line, texts[0], processed, loc);
    FoundInOrderCons(line, texts, processed, processed + loc, cols);
  }

  /** `find` on the suffix from `from` reports the first occurrence at or after `from`. */
  lemma FindsFirstOccurrence(line: string, text: string, from: int, c: int)
    requires FirstOccurrenceFrom(line, text, from, c)
    ensures from <= |line| && Find(line[from..], text) == Some(c - from)
  {
    FindInSuffix(line, text, from);
  }

  /** One step of the loop: the first column, then the rest from one past it. */
  lemma LocateRunsStep(line: string, texts: seq<string>, processed: nat, loc: nat)
    requires texts != [] && processed <= |line|
    requires Find(line[processed..], texts[0]) == Some(loc)
    requires LocateRuns(line, texts[1..], processed + loc + 1).Ok?
    ensures LocateRuns(line, texts, processed) == Ok([processed + loc] + LocateRuns(line, texts[1..], processed + loc + 1).value)
  {
  }

  /** The loop's first step in terms of the first occurrence it finds. */
  lemma LocateRunsCons(line: string, texts: seq<string>, processed: nat, c: int)
    requires texts != [] && FirstOccurrenceFrom(line, texts[0], processed, c)
    requires LocateRuns(line, texts[1..], c + 1).Ok?
    ensures LocateRuns(line, texts, processed) == Ok([c] + LocateRuns(line, texts[1..], c + 1).value)
  {
    FindsFirstOccurrence(line, texts[0], processed, c);
    LocateRunsStep(line, texts, processed, c - processed);
  }

  /** A search that starts at or before an occurrence finds one no later. */
  lemma FindBefore(line: string, text: string, processed: nat, c: nat)
    requires processed <= c && OccursAt(line, text, c)
    ensures Find(line[processed..], text).Some?
    ensures processed + Find(line[processed..], text).value <= c
  {
    FindInSuffix(line, text, processed);
  }

  /** `find` never fails: the search restarts at or before the start of the
      next run, so its text is always found, at or before that start. */
  lemma LocateRunsSucceeds(line: string, runs: seq<Span>, processed: nat)
    requires forall k :: 0 <= k < |runs| ==> runs[k].start < runs[k].end <= |line|
    requires forall k :: 0 <= k < |runs| - 1 ==> runs[k].end < runs[k + 1].start
    requires |runs| > 0 ==> processed <= runs[0].start
    ensures LocateRuns(line, RunTexts(line, runs), processed).Ok?
    ensures forall k :: 0 <= k < |runs| ==> LocateRuns(line, RunTexts(line, runs), processed).value[k] <= runs[k].start
  {
    var texts := RunTexts(line, runs);
    var starts := seq(|runs|, k requires 0 <= k < |runs| => runs[k].start);
    forall k | 0 <= k < |runs| ensures OccursAt(line, texts[k], starts[k]) {
    }
    LocateTextsSucceeds(line, texts, starts, processed);
  }

  /** The same, for texts occurring at increasing columns. */
  lemma {:induction false} LocateTextsSucceeds(line: string, texts: seq<string>, starts: seq<nat>, processed: nat)
    requires |starts| == |texts|
    requires forall k :: 0 <= k < |texts| ==> OccursAt(line, texts[k], starts[k])
    requires forall k :: 0 <= k < |texts| - 1 ==> starts[k] < starts[k + 1]
    requires |texts| > 0 ==> processed <= starts[0]
    ensures LocateRuns(line, texts, processed).Ok?
    ensures forall k :: 0 <= k < |texts| ==> LocateRuns(line, texts, processed).value[k] <= starts[k]
    decreases |texts|
  {
    if |texts| > 0 {
      FindBefore(line, texts[0], processed, starts[0]);
      var loc := Find(line[processed..], texts[0]).value;
      var next := processed + loc + 1;
      LocateTextsSucceeds(line, texts[1..], starts[1..], next);
      var cols := LocateRuns(line, texts[1..], next).value;
      LocateRunsStep(line, texts, processed, loc);
      BoundsCons(processed + loc, cols, starts);
    }
  }

  lemma BoundsCons(c: int, cols: seq<int>, starts: seq<nat>)
    requires |starts| == |cols| + 1 && c <= starts[0]
    requires forall k :: 0 <= k < |cols| ==> cols[k] <= starts[1..][k]
    ensures forall k :: 0 <= k < |starts| ==> ([c] + cols)[k] <= starts[k]
  {
    forall k | 1 <= k < |starts| ensures ([c] + cols)[k] <= starts[k] {
      assert cols[k - 1] <= starts[1..][k - 1];
    }
  }

  /** The column recorded for each run of the line. */
  function Columns(line: string): (cols: seq<int>)
    ensures |cols| == |DigitRuns(line)|
    ensures FoundInOrder(line, RunTexts(line, DigitRuns(line)), 0, cols)
    ensures forall k :: 0 <= k < |cols| ==> cols[k] <= DigitRuns(line)[k].start
  {
    LocateRunsSucceeds(line, DigitRuns(line), 0);
    LocateRuns(line, RunTexts(line, DigitRuns(line)), 0).value
  }

  /* ---------------------------------------------------------------------
     PartNumber::new
     --------------------------------------------------------------------- */

  /** Rows row-1 .. row+1 by columns col-1 .. last, without the cell (row, col). */
  function Box(row: int, col: int, last: int): (b: set<Cell>)
    ensures forall r, c :: (r, c) in b <==> row - 1 <= r <= row + 1 && col - 1 <= c <= last && (r, c) != (row, col)
  {
    set r: int, c: int | row - 1 <= r <= row + 1 && col - 1 <= c <= last && (r, c) != (row, col) :: (r, c)
  }

  /** The footprint recorded for a run of `len` digits first located at
      (row, col): the 3-row box from col-1 to col+len, minus (row, col) only. */
  function Footprint(row: int, col: int, len: nat): set<Cell> {
    Box(row, col, col + if len <= 1 then 1 else len)
  }

  /** `part_number.parse::<i64>()`, with 0 when it fails. */
  function TokenValue(text: string): int {
    match ParseSigned(text, I64_MAX)
    case Some(v) => v
    case None => 0
  }

  /** A token's value is the decimal value of its digits, or 0 past i64::MAX. */
  lemma TokenValueOfDigits(text: string)
    requires text != [] && AllDigits(text)
    ensures TokenValue(text) == if DecimalValue(text) <= I64_MAX then DecimalValue(text) else 0
  {
  }

  function PartOf(row: int, col: int, text: string): PartNumber {
    PartNumber(TokenValue(text), Footprint(row, col, |text|))
  }

  lemma BoxStart(row: int, col: int)
    ensures Box(row, col, col + 1) ==
      {(row - 1, col - 1), (row, col - 1), (row + 1, col - 1), (row - 1, col), (row + 1, col),
       (row - 1, col + 1), (row, col + 1), (row + 1, col + 1)}
  {
  }

  lemma BoxGrows(row: int, col: int, last: int)
    requires col <= last
    ensures Box(row, col, last + 1) == Box(row, col, last) + {(row - 1, last + 1), (row, last + 1), (row + 1, last + 1)}
  {
  }

  /** `PartNumber::new`: the eight cells around the first digit, then three
      more cells per further digit, and the parsed value. */
  method NewPartNumber(row: int, col: int, text: string) returns (p: PartNumber)
    ensures p == PartOf(row, col, text)
  {
    var points: set<Cell> := {(row - 1, col - 1), (row, col - 1), (row + 1, col - 1), (row - 1, col), (row + 1, col),
                              (row - 1, col + 1), (row, col + 1), (row + 1, col + 1)};
    BoxStart(row, col);
    var k := 1;
    while k < |text|
      invariant 1 <= k <= if |text| <= 1 then 1 else |text|
      invariant points == Box(row, col, col + k)
    {
      BoxGrows(row, col, col + k);
      points := points + {(row - 1, col + 1 + k), (row, col + 1 + k), (row + 1, col + 1 + k)};
      k := k + 1;
    }
    p := PartNumber(TokenValue(text), points);
  }

  /** The box has 3(W+2)-1 cells for W = last - col. */
  lemma {:induction false} BoxSize(row: int, col: int, last: int)
    requires col <= last
    ensures |Box(row, col, last)| == 3 * (last - col + 2) - 1
    decreases last - col
  {
    if last == col {
      BoxBaseSize(row, col);
    } else {
      BoxSize(row, col, last - 1);
      BoxColumnSize(row, col, last - 1);
    }
  }

  lemma BoxBaseSize(row: int, col: int)
    ensures |Box(row, col, col)| == 5
  {
    assert Box(row, col, col) == {(row - 1, col - 1), (row, col - 1), (row + 1, col - 1), (row - 1, col), (row + 1, col)};
  }

  /** One more column adds three cells. */
  lemma BoxColumnSize(row: int, col: int, last: int)
    requires col <= last
    ensures |Box(row, col, last + 1)| == |Box(row, col, last)| + 3
  {
    BoxGrows(row, col, last);
    var added := {(row - 1, last + 1), (row, last + 1), (row + 1, last + 1)};
    assert Box(row, col, last) !! added;
    assert |added| == 3;
  }

  /** A run of L digits has a footprint of 3L + 5 cells (14 for three digits). */
  lemma FootprintSize(row: int, col: int, len: nat)
    requires len >= 1
    ensures |Footprint(row, col, len)| == 3 * len + 5
  {
    BoxSize(row, col, col + if len <= 1 then 1 else len);
  }

  /** The footprint is exactly {row-1, row, row+1} x {col-1 .. col+L} without
      (row, col): the later digit cells of the run are in it. */
  lemma FootprintCells(row: int, col: int, len: nat)
    requires len >= 1
    ensures forall r, c :: (r, c) in Footprint(row, col, len) <==>
              row - 1 <= r <= row + 1 && col - 1 <= c <= col + len && (r, c) != (row, col)
    ensures (row, col) !in Footprint(row, col, len)
    ensures forall c :: col < c < col + len ==> (row, c) in Footprint(row, col, len)
  {
  }

  /* ---------------------------------------------------------------------
     The whole grid
     --------------------------------------------------------------------- */

  /** The part numbers `parse_schematic` pushes for one line. */
  function LineParts(row: int, line: string): (parts: seq<PartNumber>)
    ensures |parts| == |DigitRuns(line)|
  {
    var texts := RunTexts(line, DigitRuns(line));
    var cols := Columns(line);
    seq(|texts|, k requires 0 <= k < |texts| => PartOf(row, cols[k], texts[k]))
  }

  /** The part numbers of each line, row by row. */
  function RowParts(lines: seq<string>): (rows: seq<seq<PartNumber>>)
    ensures |rows| == |lines| && forall r :: 0 <= r < |lines| ==> rows[r] == LineParts(r, lines[r])
  {
    seq(|lines|, r requires 0 <= r < |lines| => LineParts(r, lines[r]))
  }

  /** All part numbers of the grid, in reading order. */
  function PartNumbersOf(lines: seq<string>): seq<PartNumber> {
    Flatten(RowParts(lines))
  }

  predicate IsSymbol(c: char) { !IsDigit(c) && c != '.' }

  predicate IsGear(c: char) { !IsDigit(c) && c == '*' }

  datatype CellKind = SymbolCell | GearCell

  predicate Marked(kind: CellKind, c: char) {
    match kind
    case SymbolCell => IsSymbol(c)
    case GearCell => IsGear(c)
  }

  /** The cells of the grid holding a symbol (or a gear). */
  function MarkedCells(lines: seq<string>, kind: CellKind): set<Cell> {
    set r: int, c: int | 0 <= r < |lines| && 0 <= c < |lines[r]| && Marked(kind, lines[r][c]) :: (r, c)
  }

  /** The marked cells met before (row, col) in reading order. */
  function MarkedBefore(lines: seq<string>, kind: CellKind, row: int, col: int): (m: set<Cell>)
    ensures forall r, c :: (r, c) in m <==>
              0 <= r < |lines| && 0 <= c < |lines[r]| && (r < row || (r == row && c < col)) && Marked(kind, lines[r][c])
  {
    set r: int, c: int | 0 <= r < |lines| && 0 <= c < |lines[r]| && (r < row || (r == row && c < col))
                         && Marked(kind, lines[r][c]) :: (r, c)
  }

  lemma MarkedBeforeStep(lines: seq<string>, kind: CellKind, row: nat, col: nat)
    requires row < |lines| && col < |lines[row]|
    ensures MarkedBefore(lines, kind, row, col + 1) ==
      MarkedBefore(lines, kind, row, col) + if Marked(kind, lines[row][col]) then {(row, col)} else {}
  {
  }

  lemma MarkedBeforeNextRow(lines: seq<string>, kind: CellKind, row: nat)
    requires row < |lines|
    ensures MarkedBefore(lines, kind, row, |lines[row]|) == MarkedBefore(lines, kind, row + 1, 0)
  {
  }

  lemma MarkedBeforeNone(lines: seq<string>, kind: CellKind)
    ensures MarkedBefore(lines, kind, 0, 0) == {}
  {
  }

  lemma MarkedBeforeAll(lines: seq<string>, kind: CellKind)
    ensures MarkedBefore(lines, kind, |lines|, 0) == MarkedCells(lines, kind)
  {
  }

  /** The inner loop of `parse_schematic` over one line's run texts: locate
      each with `find` from `processed`, build its part number, and move
      `processed` one past the column found. */
  method LocateLineParts(row: int, line: string) returns (parts: seq<PartNumber>)
    ensures parts == LineParts(row, line)
  {
    var nums := RunTexts(line, DigitRuns(line));
    ghost var cols := Columns(line);
    FoundInOrderFinds(line, nums, cols);
    parts := LocateTexts(row, line, nums, cols);
    LinePartsAre(row, line, parts);
  }

  lemma LinePartsAre(row: int, line: string, parts: seq<PartNumber>)
    requires |parts| == |DigitRuns(line)|
    requires forall k :: 0 <= k < |parts| ==> parts[k] == PartOf(row, Columns(line)[k], RunTexts(line, DigitRuns(line))[k])
    ensures parts == LineParts(row, line)
  {
    Elementwise(parts, LineParts(row, line));
  }

  /** The start of the search for the k-th text, one past the previous column. */
  function SearchStart(cols: seq<int>, k: nat): int
    requires k < |cols|
  {
    if k == 0 then 0 else cols[k - 1] + 1
  }

  /** `find` from the search start of each text reports that text's column. */
  lemma FoundInOrderFinds(line: string, texts: seq<string>, cols: seq<int>)
    requires FoundInOrder(line, texts, 0, cols)
    ensures forall k :: 0 <= k < |texts| ==>
              0 <= SearchStart(cols, k) <= |line| &&
              Find(line[SearchStart(cols, k)..], texts[k]) == Some(cols[k] - SearchStart(cols, k))
  {
    forall k | 0 <= k < |texts|
      ensures 0 <= SearchStart(cols, k) <= |line| && Find(line[SearchStart(cols, k)..], texts[k]) == Some(cols[k] - SearchStart(cols, k))
    {
      FindsFirstOccurrence(line, texts[k], SearchStart(cols, k), cols[k]);
    }
  }

  /** The loop itself, for texts that `find` reports at the columns `cols`,
      each searched from one past the previous. */
  method LocateTexts(row: int, line: string, nums: seq<string>, ghost cols: seq<int>) returns (parts: seq<PartNumber>)
    requires |cols| == |nums|
    requires forall k :: 0 <= k < |nums| ==>
               0 <= SearchStart(cols, k) <= |line| &&
               Find(line[SearchStart(cols, k)..], nums[k]) == Some(cols[k] - SearchStart(cols, k))
    ensures |parts| == |nums| && forall k :: 0 <= k < |nums| ==> parts[k] == PartOf(row, cols[k], nums[k])
  {
    ghost var expected := seq(|nums|, k requires 0 <= k < |nums| => PartOf(row, cols[k], nums[k]));
    parts := [];
    var processed := 0;
    var j := 0;
    while j < |nums|
      invariant 0 <= j <= |nums|
      invariant j < |nums| ==> processed == SearchStart(cols, j)
      invariant parts == expected[..j]
    {
      var col := processed + Find(line[processed..], nums[j]).value;
      var p := NewPartNumber(row, col, nums[j]);
      assert p == expected[j];
      PrefixGrows(expected, j);
      parts := parts + [p];
      processed := col + 1;
      j := j + 1;
    }
    assert expected[..j] == expected;
  }

  /** The symbol and gear scan of one line, added to the cells of the rows above. */
  method MarkRow(lines: seq<string>, idx: nat, symbols0: set<Cell>, gears0: set<Cell>) returns (symbols: set<Cell>, gears: set<Cell>)
    requires idx < |lines|
    requires symbols0 == MarkedBefore(lines, SymbolCell, idx, 0)
    requires gears0 == MarkedBefore(lines, GearCell, idx, 0)
    ensures symbols == MarkedBefore(lines, SymbolCell, idx + 1, 0)
    ensures gears == MarkedBefore(lines, GearCell, idx + 1, 0)
  {
    var line := lines[idx];
    symbols, gears := symbols0, gears0;
    var i := 0;
    while i < |line|
      invariant 0 <= i <= |line|
      invariant symbols == MarkedBefore(lines, SymbolCell, idx, i)
      invariant gears == MarkedBefore(lines, GearCell, idx, i)
    {
      MarkedBeforeStep(lines, SymbolCell, idx, i);
      MarkedBeforeStep(lines, GearCell, idx, i);
      if !IsDigit(line[i]) && line[i] != '.' {
        symbols := symbols + {(idx, i)};
      }
      if !IsDigit(line[i]) && line[i] == '*' {
        gears := gears + {(idx, i)};
      }
      i := i + 1;
    }
    MarkedBeforeNextRow(lines, SymbolCell, idx);
    MarkedBeforeNextRow(lines, GearCell, idx);
  }

  /** `parse_schematic`: for each line, the part numbers of its digit runs, then
      every symbol cell and every gear cell of the line. */
  method ParseSchematic(input: string) returns (es: EngineSchematic)
    ensures es.partNumbers == PartNumbersOf(Lines(input))
    ensures es.symbols == MarkedCells(Lines(input), SymbolCell)
    ensures es.gears == MarkedCells(Lines(input), GearCell)
  {
    var lines := Lines(input);
    var parts: seq<PartNumber> := [];
    var symbols: set<Cell> := {};
    var gears: set<Cell> := {};
    var idx := 0;
    MarkedBeforeNone(lines, SymbolCell);
    MarkedBeforeNone(lines, GearCell);
    while idx < |lines|
      invariant 0 <= idx <= |lines|
      invariant parts == Flatten(RowParts(lines)[..idx])
      invariant symbols == MarkedBefore(lines, SymbolCell, idx, 0)
      invariant gears == MarkedBefore(lines, GearCell, idx, 0)
    {
      var lineParts := LocateLineParts(idx, lines[idx]);
      FlattenPrefixGrows(RowParts(lines), idx, lineParts);
      parts := parts + lineParts;
      symbols, gears := MarkRow(lines, idx, symbols, gears);
      idx := idx + 1;
    }
    assert RowParts(lines)[..idx] == RowParts(lines);
    MarkedBeforeAll(lines, SymbolCell);
    MarkedBeforeAll(lines, GearCell);
    es := EngineSchematic(parts, symbols, gears);
  }

  /** Every gear is a symbol: exactly the '*' cells. */
  lemma GearsAreSymbols(lines: seq<string>)
    ensures MarkedCells(lines, GearCell) <= MarkedCells(lines, SymbolCell)
    ensures forall r, c :: (r, c) in MarkedCells(lines, GearCell) <==>
              0 <= r < |lines| && 0 <= c < |lines[r]| && lines[r][c] == '*'
  {
  }
}
