/** The calibration document of 2023 day 1, shared by its solvers. Each line
    hides digits, and in part 2 also the spelled digits "one" to "nine"; the
    line's calibration value is ten times the first value found in it plus
    the last, and the answer is the sum over the lines. */
module Calibration {
  import opened Outcome
  import opened Text
  import opened Seqs

  /** `NUMS`: the spelled digits; the word at index k stands for k + 1. */
  const Words: seq<string> := ["one", "two", "three", "four", "five", "six", "seven", "eight", "nine"]

  /** `str::starts_with`. */
  predicate StartsWith(s: string, prefix: string) {
    |prefix| <= |s| && s[..|prefix|] == prefix
  }

  /** The position, counted from 1, of the first of the words that starts
      s: `NUMS.iter().enumerate().find(..).map(|(num, _)| num + 1)`. */
  function SpelledIn(s: string, words: seq<string>): (r: Option<nat>)
    ensures r.Some? ==> 0 < r.value <= |words| && StartsWith(s, words[r.value - 1])
    ensures r.Some? ==> forall j :: 0 <= j < r.value - 1 ==> !StartsWith(s, words[j])
    ensures r.None? <==> forall j :: 0 <= j < |words| ==> !StartsWith(s, words[j])
  {
    if words == [] then None
    else if StartsWith(s, words[0]) then Some(1)
    else
      match SpelledIn(s, words[1..])
      case None => None
      case Some(v) => Some(v + 1)
  }

  /** The value of the spelled digit that starts s, if one does. */
  function Spelled(s: string): (r: Option<nat>)
    ensures r.Some? ==> 1 <= r.value <= 9
  {
    SpelledIn(s, Words)
  }

  /** Which characters count: part 1 reads digits only, part 2 also reads
      spelled digits. */
  datatype Scheme = DigitsOnly | DigitsAndWords

  /** The value found at the head of s, the rest of the line from some
      position on: a digit, or for part 2 a spelled digit starting there. */
  function ValueAt(scheme: Scheme, s: string): (r: Option<nat>)
    ensures r.Some? ==> r.value <= 9
    ensures s != [] && IsDigit(s[0]) ==> r == Some(DigitValue(s[0]))
    ensures scheme == DigitsOnly ==> (r.Some? <==> s != [] && IsDigit(s[0]))
  {
    if s == [] then None
    else if IsDigit(s[0]) then Some(DigitValue(s[0]))
    else if scheme == DigitsOnly then None
    else Spelled(s)
  }

  /** The value at position k of the line, as a sequence of none or one. */
  function FoundAt(scheme: Scheme, line: string, k: nat): (vs: seq<nat>)
    requires k < |line|
    ensures |vs| <= 1 && forall i :: 0 <= i < |vs| ==> vs[i] <= 9
  {
    match ValueAt(scheme, line[k..])
    case Some(v) => [v]
    case None => []
  }

  /** Part 1 finds at a position exactly the digit there. */
  lemma DigitFoundAt(line: string, k: nat)
    requires k < |line|
    ensures FoundAt(DigitsOnly, line, k) == if IsDigit(line[k]) then [DigitValue(line[k])] else []
  {
    assert line[k..][0] == line[k];
  }

  /** The values found at positions i to j - 1 of the line, left to right. */
  function FoundBetween(scheme: Scheme, line: string, i: nat, j: nat): (vs: seq<nat>)
    requires i <= j <= |line|
    ensures forall k :: 0 <= k < |vs| ==> vs[k] <= 9
    decreases j - i
  {
    if i == j then [] else FoundAt(scheme, line, i) + FoundBetween(scheme, line, i + 1, j)
  }

  /** The values found in the whole line, left to right. */
  function Found(scheme: Scheme, line: string): seq<nat> {
    FoundBetween(scheme, line, 0, |line|)
  }

  /** Growing the range by one position at its right end appends the value
      found there. */
  lemma {:induction false} FoundBetweenSnoc(scheme: Scheme, line: string, i: nat, j: nat)
    requires i <= j < |line|
    ensures FoundBetween(scheme, line, i, j + 1) == FoundBetween(scheme, line, i, j) + FoundAt(scheme, line, j)
    decreases j - i
  {
    if i < j {
      FoundBetweenSnoc(scheme, line, i + 1, j);
      assert FoundBetween(scheme, line, i, j + 1)
          == FoundAt(scheme, line, i) + (FoundBetween(scheme, line, i + 1, j) + FoundAt(scheme, line, j));
    }
  }

  /** The values found in a range are those of its two halves. */
  lemma {:induction false} FoundBetweenSplit(scheme: Scheme, line: string, i: nat, k: nat, j: nat)
    requires i <= k <= j <= |line|
    ensures FoundBetween(scheme, line, i, j) == FoundBetween(scheme, line, i, k) + FoundBetween(scheme, line, k, j)
    decreases k - i
  {
    if i < k {
      FoundBetweenSplit(scheme, line, i + 1, k, j);
      assert FoundBetween(scheme, line, i, j)
          == FoundAt(scheme, line, i) + (FoundBetween(scheme, line, i + 1, k) + FoundBetween(scheme, line, k, j));
    }
  }

  /** No value at any of the positions i to j - 1. */
  predicate NothingAt(scheme: Scheme, line: string, i: nat, j: nat)
    requires i <= j <= |line|
  {
    forall k :: i <= k < j ==> ValueAt(scheme, line[k..]).None?
  }

  lemma {:induction false} NothingFoundBetween(scheme: Scheme, line: string, i: nat, j: nat)
    requires i <= j <= |line| && NothingAt(scheme, line, i, j)
    ensures FoundBetween(scheme, line, i, j) == []
    decreases j - i
  {
    if i < j {
      NothingFoundBetween(scheme, line, i + 1, j);
    }
  }

  /** Whether a spelled digit starts with the letters c and d: the first
      two letters tell the spelled digits apart. */
  predicate WordStart(c: char, d: char) {
    || (c == 'o' && d == 'n')
    || (c == 't' && (d == 'w' || d == 'h'))
    || (c == 'f' && (d == 'o' || d == 'i'))
    || (c == 's' && (d == 'i' || d == 'e'))
    || (c == 'e' && d == 'i')
    || (c == 'n' && d == 'i')
  }

  lemma WordStartsOfWords()
    ensures forall j :: 0 <= j < |Words| ==> |Words[j]| >= 3 && WordStart(Words[j][0], Words[j][1])
    ensures forall i, j :: 0 <= i < j < |Words| ==> Words[i][0] != Words[j][0] || Words[i][1] != Words[j][1]
  {
  }

  lemma StartsWithTwo(s: string, w: string)
    requires |w| >= 2 && StartsWith(s, w)
    ensures |s| >= 2 && s[0] == w[0] && s[1] == w[1]
  {
    assert s[..|w|][0] == s[0] && s[..|w|][1] == s[1];
  }

  /** s starts with the spelled digit v, so that is the one read there. */
  lemma SpelledWord(s: string, v: nat)
    requires 1 <= v <= |Words| && StartsWith(s, Words[v - 1])
    ensures Spelled(s) == Some(v)
  {
    WordStartsOfWords();
    StartsWithTwo(s, Words[v - 1]);
    forall j | 0 <= j < v - 1
      ensures !StartsWith(s, Words[j])
    {
      if StartsWith(s, Words[j]) {
        StartsWithTwo(s, Words[j]);
      }
    }
  }

  /** A piece too short for any spelled digit, or whose first two letters
      start none, reads no spelled digit. */
  lemma NotSpelled(s: string)
    requires |s| < 3 || !WordStart(s[0], s[1])
    ensures Spelled(s) == None
  {
    WordStartsOfWords();
    forall j | 0 <= j < |Words|
      ensures !StartsWith(s, Words[j])
    {
      if StartsWith(s, Words[j]) {
        StartsWithTwo(s, Words[j]);
      }
    }
  }

  function Last(vs: seq<nat>): nat
    requires vs != []
  {
    vs[|vs| - 1]
  }

  /** The line's calibration value: ten times the first value plus the
      last; with a single value, that value is both. */
  function Calibrate(vs: seq<nat>): nat
    requires vs != []
  {
    10 * vs[0] + Last(vs)
  }

  /** Every calibration value is a two-digit number at most. */
  lemma CalibrateBound(vs: seq<nat>)
    requires vs != [] && forall i :: 0 <= i < |vs| ==> vs[i] <= 9
    ensures Calibrate(vs) <= 99
    ensures |vs| == 1 ==> Calibrate(vs) == 11 * vs[0]
  {
    assert vs[0] <= 9 && vs[|vs| - 1] <= 9;
  }

  /** The value of a line as the puzzle defines it: a line without any
      value has none, and every solver panics on it. */
  function LineCalibration(scheme: Scheme, line: string): (r: Result<nat>)
    ensures r.Panic? <==> Found(scheme, line) == []
    ensures r.Ok? ==> r.value <= 99
  {
    var vs := Found(scheme, line);
    if vs == [] then Panic
    else
      CalibrateBound(vs);
      Ok(Calibrate(vs))
  }

  lemma LineCalibrationOf(scheme: Scheme, line: string)
    requires Found(scheme, line) != []
    ensures LineCalibration(scheme, line) == Ok(Calibrate(Found(scheme, line)))
  {
  }

  /** With nothing found before position a, the first value found is the
      one at a. */
  lemma FirstFoundAt(scheme: Scheme, line: string, a: nat)
    requires a < |line| && FoundBetween(scheme, line, 0, a) == [] && FoundAt(scheme, line, a) != []
    ensures Found(scheme, line) != [] && Found(scheme, line)[0] == FoundAt(scheme, line, a)[0]
  {
    FoundBetweenSplit(scheme, line, 0, a, |line|);
    EmptyPrefix(Found(scheme, line), FoundBetween(scheme, line, 0, a), FoundBetween(scheme, line, a, |line|));
  }

  /** With nothing found after position b, the last value found is the one
      at b. */
  lemma LastFoundAt(scheme: Scheme, line: string, b: nat)
    requires b < |line| && FoundAt(scheme, line, b) != [] && FoundBetween(scheme, line, b + 1, |line|) == []
    ensures Found(scheme, line) != [] && Last(Found(scheme, line)) == FoundAt(scheme, line, b)[0]
  {
    FoundBetweenSplit(scheme, line, 0, b + 1, |line|);
    FoundBetweenSnoc(scheme, line, 0, b);
    var y := FoundAt(scheme, line, b);
    var front := FoundBetween(scheme, line, 0, b);
    assert FoundBetween(scheme, line, 0, b + 1) == front + y;
    assert Found(scheme, line) == front + y + [];
  }

  /** With nothing found before position a nor after position b, where x
      and y are found, the line's value is ten times x plus y. */
  lemma FirstAndLast(scheme: Scheme, line: string, a: nat, b: nat, x: nat, y: nat)
    requires a <= b < |line|
    requires FoundBetween(scheme, line, 0, a) == [] && FoundAt(scheme, line, a) == [x]
    requires FoundAt(scheme, line, b) == [y] && FoundBetween(scheme, line, b + 1, |line|) == []
    ensures LineCalibration(scheme, line) == Ok(10 * x + y)
  {
    FirstFoundAt(scheme, line, a);
    LastFoundAt(scheme, line, b);
    FoundFirstAndLast(scheme, line, x, y);
  }

  lemma FoundFirstAndLast(scheme: Scheme, line: string, x: nat, y: nat)
    requires Found(scheme, line) != [] && Found(scheme, line)[0] == x && Last(Found(scheme, line)) == y
    ensures LineCalibration(scheme, line) == Ok(10 * x + y)
  {
    CalibrateOf(Found(scheme, line), x, y);
    LineCalibrationOf(scheme, line);
  }

  lemma CalibrateOf(vs: seq<nat>, x: nat, y: nat)
    requires vs != [] && vs[0] == x && Last(vs) == y
    ensures Calibrate(vs) == 10 * x + y
  {
  }

  function Sum(s: seq<nat>): nat {
    if s == [] then 0 else s[0] + Sum(s[1..])
  }

  /** `.map(..).sum()` over lines whose values may panic: the first panic
      aborts the whole, otherwise the values are added up. */
  function Total(rs: seq<Result<nat>>): (r: Result<nat>)
    ensures r.Panic? <==> exists i :: 0 <= i < |rs| && rs[i].Panic?
  {
    match AllOk(rs)
    case Panic => Panic
    case Ok(vs) => Ok(Sum(vs))
  }

  /** The document's value as the puzzle defines it, over given lines. */
  function Document(scheme: Scheme, lines: seq<string>): (rs: seq<Result<nat>>)
    ensures |rs| == |lines| && forall i :: 0 <= i < |lines| ==> rs[i] == LineCalibration(scheme, lines[i])
  {
    seq(|lines|, i requires 0 <= i < |lines| => LineCalibration(scheme, lines[i]))
  }
}
