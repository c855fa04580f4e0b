/** The scratchcards of 2023 day 4, shared by both parts: a card line
    "Card 1: 41 48 83 86 17 | 83 86  6 31 17  9 48 53" holds a set of winning
    numbers and a set of chosen numbers. */
module Scratchcards {
  import opened Outcome
  import opened Text

  datatype Card = Card(winning: set<int>, chosen: set<int>)

  /** `Card::count`: how many chosen numbers are winning numbers. */
  function Count(card: Card): (n: nat)
    ensures n <= |card.winning| && n <= |card.chosen|
    ensures n == 0 <==> card.winning !! card.chosen
  {
    var common := card.winning * card.chosen;
    assert common <= card.winning && common <= card.chosen;
    SubsetSize(common, card.winning);
    SubsetSize(common, card.chosen);
    NoCommonNumbers(card.winning, card.chosen);
    |common|
  }

  lemma NoCommonNumbers<T>(a: set<T>, b: set<T>)
    ensures |a * b| == 0 <==> a !! b
  {
    if |a * b| != 0 {
      assert a * b != {};
      var x :| x in a * b;
      assert x in a && x in b;
    } else {
      assert a * b == {};
      forall x | x in a ensures x !in b {
        assert x !in a * b;
      }
    }
  }

  lemma {:induction false} SubsetSize<T>(a: set<T>, b: set<T>)
    requires a <= b
    ensures |a| <= |b|
    decreases |b|
  {
    if a != {} {
      var x :| x in a;
      SubsetSize(a - {x}, b - {x});
    }
  }

  /** Each word parsed as an `i64` with `unwrap`: one bad word panics. */
  function ParseWords(words: seq<string>): (r: Result<seq<int>>)
    ensures r.Ok? <==> forall i :: 0 <= i < |words| ==> ParseSigned(words[i], I64_MAX).Some?
    ensures r.Ok? ==> |r.value| == |words| && forall i :: 0 <= i < |words| ==> ParseSigned(words[i], I64_MAX) == Some(r.value[i])
  {
    if words == [] then Ok([])
    else
      match ParseSigned(words[0], I64_MAX)
      case None => Panic
      case Some(v) =>
        match ParseWords(words[1..])
        case Panic => Panic
        case Ok(vs) =>
          assert forall i :: 1 <= i < |words| ==> words[i] == words[1..][i - 1];
          Ok([v] + vs)
  }

  /** `split_whitespace`, parse and collect into a `HashSet`. */
  function ParseNumberSet(s: string): (r: Result<set<int>>)
    ensures r.Ok? <==> ParseWords(SplitWhitespace(s)).Ok?
    ensures r.Ok? ==> forall x :: x in r.value <==> x in ParseWords(SplitWhitespace(s)).value
  {
    match ParseWords(SplitWhitespace(s))
    case Panic => Panic
    case Ok(vs) => Ok(set x | x in vs)
  }

  /** One line of the card list: the text after ": " is split at " | " into
      the winning and the chosen numbers; every `unwrap` panics. */
  function ParseCard(line: string): (r: Result<Card>)
    ensures SplitOnce(line, ": ").None? ==> r.Panic?
    ensures SplitOnce(line, ": ").Some? && SplitOnce(SplitOnce(line, ": ").value.1, " | ").None? ==> r.Panic?
  {
    match SplitOnce(line, ": ")
    case None => Panic
    case Some((_, nums)) =>
      match SplitOnce(nums, " | ")
      case None => Panic
      case Some((win, chose)) =>
        match (ParseNumberSet(win), ParseNumberSet(chose))
        case (Ok(w), Ok(c)) => Ok(Card(w, c))
        case _ => Panic
  }

  /** `ParseCard` on every line, in order; the first bad line panics. */
  function ParseCards(lines: seq<string>): (r: Result<seq<Card>>)
    ensures r.Ok? <==> forall i :: 0 <= i < |lines| ==> ParseCard(lines[i]).Ok?
    ensures r.Ok? ==> |r.value| == |lines| && forall i :: 0 <= i < |lines| ==> ParseCard(lines[i]) == Ok(r.value[i])
  {
    AllOk(CardResults(lines))
  }

  function CardResults(lines: seq<string>): (rs: seq<Result<Card>>)
    ensures |rs| == |lines| && forall i :: 0 <= i < |lines| ==> rs[i] == ParseCard(lines[i])
  {
    seq(|lines|, i requires 0 <= i < |lines| => ParseCard(lines[i]))
  }

  /** The cards of the input, one per piece of `input.split('\n')`. */
  function CardsOf(input: string): Result<seq<Card>> {
    ParseCards(Split(input, "\n"))
  }

  /** The parsing loop of `process`: each piece of `input.split('\n')` is
      parsed, and the cards are pushed in order until an `unwrap` fails. */
  method ReadCards(input: string) returns (r: Result<seq<Card>>)
    ensures r == CardsOf(input)
  {
    r := CollectOk(CardResults(Split(input, "\n")));
  }

  /* ---------------------------------------------------------------------
     The card line format, for the round trip
     --------------------------------------------------------------------- */

  function NumberWords(ns: seq<nat>): (words: seq<string>)
    ensures |words| == |ns|
    ensures forall i :: 0 <= i < |ns| ==> words[i] == DecimalString(ns[i])
  {
    seq(|ns|, i requires 0 <= i < |ns| => DecimalString(ns[i]))
  }

  /** The padding of a number the puzzle prints in two columns. */
  function Pads(ns: seq<nat>): (pads: seq<string>)
    ensures |pads| == |ns| && forall i :: 0 <= i < |ns| ==> pads[i] == if ns[i] < 10 then " " else ""
  {
    seq(|ns|, i requires 0 <= i < |ns| => if ns[i] < 10 then " " else "")
  }

  /** A list of numbers as the puzzle prints it: each right-aligned in two
      columns, separated by single spaces. */
  function NumberList(ns: seq<nat>): string {
    Join(PadEach(Pads(ns), NumberWords(ns)), " ")
  }

  /** A card line as the puzzle writes it. */
  function CardLine(header: string, winning: seq<nat>, chosen: seq<nat>): string {
    header + ": " + NumberList(winning) + " | " + NumberList(chosen)
  }

  predicate InRange(ns: seq<nat>) {
    forall i :: 0 <= i < |ns| ==> ns[i] <= I64_MAX
  }

  /** The characters of a printed number list are digits and spaces. */
  lemma JoinedDigits(ns: seq<nat>)
    ensures forall i :: 0 <= i < |NumberList(ns)| ==> IsDigit(NumberList(ns)[i]) || NumberList(ns)[i] == ' '
  {
    var pieces := PadEach(Pads(ns), NumberWords(ns));
    forall j | 0 <= j < |pieces|
      ensures forall i :: 0 <= i < |pieces[j]| ==> IsDigit(pieces[j][i]) || pieces[j][i] == ' '
    {
      var pad := Pads(ns)[j];
      var w := NumberWords(ns)[j];
      assert forall i :: 0 <= i < |w| ==> IsDigit(w[i]);
      assert forall i :: 0 <= i < |pieces[j]| ==> pieces[j][i] == if i < |pad| then pad[i] else w[i - |pad|];
    }
    JoinedDigitsOf(pieces);
  }

  lemma {:induction false} JoinedDigitsOf(words: seq<string>)
    requires forall j :: 0 <= j < |words| ==> forall i :: 0 <= i < |words[j]| ==> IsDigit(words[j][i]) || words[j][i] == ' '
    ensures forall i :: 0 <= i < |Join(words, " ")| ==> IsDigit(Join(words, " ")[i]) || Join(words, " ")[i] == ' '
    decreases |words|
  {
    if |words| > 1 {
      JoinedDigitsOf(words[1..]);
      var rest := Join(words[1..], " ");
      assert Join(words, " ") == words[0] + " " + rest;
      forall i | 0 <= i < |Join(words, " ")| ensures IsDigit(Join(words, " ")[i]) || Join(words, " ")[i] == ' ' {
        if i >= |words[0]| + 1 {
          assert Join(words, " ")[i] == rest[i - |words[0]| - 1];
        }
      }
    }
  }

  function AsInts(ns: seq<nat>): (vs: seq<int>)
    ensures |vs| == |ns| && forall i :: 0 <= i < |ns| ==> vs[i] == ns[i] as int
  {
    seq(|ns|, i requires 0 <= i < |ns| => ns[i] as int)
  }

  /** The numbers of a list, as a set. */
  function NumberSet(ns: seq<nat>): set<int> {
    set x | x in AsInts(ns)
  }

  /** Each rendered number parses back as itself. */
  lemma ParseNumberWords(ns: seq<nat>)
    requires InRange(ns)
    ensures ParseWords(NumberWords(ns)) == Ok(AsInts(ns))
  {
    var words := NumberWords(ns);
    forall i | 0 <= i < |ns| ensures ParseSigned(words[i], I64_MAX) == Some(ns[i] as int) {
      ParseDecimalString(ns[i], I64_MAX);
    }
    assert ParseWords(words).value == AsInts(ns);
  }

  /** The numbers read back from a rendered list are the rendered numbers. */
  lemma ParseNumberList(ns: seq<nat>)
    requires InRange(ns)
    ensures ParseNumberSet(NumberList(ns)) == Ok(NumberSet(ns))
  {
    SplitWhitespaceOfPadded(Pads(ns), NumberWords(ns));
    ParseNumberWords(ns);
  }

  /** Round trip: a rendered card line parses back into its two number sets,
      whatever its header, as long as the header holds no ':'. */
  lemma ParseCardLine(header: string, winning: seq<nat>, chosen: seq<nat>)
    requires ':' !in header
    requires InRange(winning) && InRange(chosen)
    ensures ParseCard(CardLine(header, winning, chosen)) == Ok(Card(NumberSet(winning), NumberSet(chosen)))
  {
    var win := NumberList(winning);
    var chose := NumberList(chosen);
    var nums := win + " | " + chose;
    assert CardLine(header, winning, chosen) == header + ": " + nums;
    NoOccurrenceInHead(header, ": ", nums);
    SplitOnceAfter(header, ": ", nums);
    JoinedDigits(winning);
    NoBarInList(win, chose);
    SplitOnceAfter(win, " | ", chose);
    ParseNumberList(winning);
    ParseNumberList(chosen);
  }

  /** A list of digits and spaces holds no " | ". */
  lemma NoBarInList(win: string, chose: string)
    requires forall i :: 0 <= i < |win| ==> IsDigit(win[i]) || win[i] == ' '
    ensures forall k :: 0 <= k < |win| ==> !OccursAt(win + " | " + chose, " | ", k)
  {
    var nums := win + " | " + chose;
    forall k | 0 <= k < |win| ensures !OccursAt(nums, " | ", k) {
      assert nums[k + 1] == if k + 1 < |win| then win[k + 1] else ' ';
    }
  }

  /* ---------------------------------------------------------------------
     The puzzle's sample
     --------------------------------------------------------------------- */

  /** The six cards of the puzzle's sample, as number sets. */
  function SampleCard(i: nat): Card
    requires i < 6
  {
    match i
    case 0 => Card({41, 48, 83, 86, 17}, {83, 86, 6, 31, 17, 9, 48, 53})
    case 1 => Card({13, 32, 20, 16, 61}, {61, 30, 68, 82, 17, 32, 24, 19})
    case 2 => Card({1, 21, 53, 59, 44}, {69, 82, 63, 72, 16, 21, 14, 1})
    case 3 => Card({41, 92, 73, 84, 69}, {59, 84, 76, 51, 58, 5, 54, 83})
    case 4 => Card({87, 83, 26, 28, 32}, {88, 30, 70, 12, 93, 22, 82, 36})
    case _ => Card({31, 18, 13, 56, 72}, {74, 77, 10, 23, 35, 67, 36, 11})
  }

  function SampleCards(): seq<Card> {
    seq(6, i requires 0 <= i < 6 => SampleCard(i))
  }

  /** The winning and the chosen numbers of sample card i, in the order
      the puzzle lists them. */
  function SampleNumbers(i: nat): (seq<nat>, seq<nat>)
    requires i < 6
  {
    match i
    case 0 => ([41, 48, 83, 86, 17], [83, 86, 6, 31, 17, 9, 48, 53])
    case 1 => ([13, 32, 20, 16, 61], [61, 30, 68, 82, 17, 32, 24, 19])
    case 2 => ([1, 21, 53, 59, 44], [69, 82, 63, 72, 16, 21, 14, 1])
    case 3 => ([41, 92, 73, 84, 69], [59, 84, 76, 51, 58, 5, 54, 83])
    case 4 => ([87, 83, 26, 28, 32], [88, 30, 70, 12, 93, 22, 82, 36])
    case _ => ([31, 18, 13, 56, 72], [74, 77, 10, 23, 35, 67, 36, 11])
  }

  /** Line i of the sample, "Card <i + 1>: ... | ...". */
  function SampleLine(i: nat): string
    requires i < 6
  {
    CardLine("Card " + DecimalString(i + 1), SampleNumbers(i).0, SampleNumbers(i).1)
  }

  function SampleLines(): (lines: seq<string>)
    ensures |lines| == 6 && forall i :: 0 <= i < 6 ==> lines[i] == SampleLine(i)
  {
    seq(6, i requires 0 <= i < 6 => SampleLine(i))
  }

  /** The sample's text: its six card lines joined by '\n'. */
  function SampleInput(): string {
    Join(SampleLines(), "\n")
  }

  /** A list of numbers, as a set, is the set of the numbers it lists. */
  lemma ListedSet(ns: seq<nat>, xs: seq<int>, expected: set<int>)
    requires |ns| == |xs| && forall i :: 0 <= i < |ns| ==> ns[i] == xs[i]
    requires forall x :: x in expected <==> x in xs
    ensures NumberSet(ns) == expected
  {
    assert AsInts(ns) == xs;
    forall x ensures x in NumberSet(ns) <==> x in expected {
      assert x in NumberSet(ns) <==> x in AsInts(ns);
    }
  }

  lemma SampleSets(i: nat)
    requires i < 6
    ensures NumberSet(SampleNumbers(i).0) == SampleCard(i).winning
    ensures NumberSet(SampleNumbers(i).1) == SampleCard(i).chosen
  {
    var (w, c) := SampleNumbers(i);
    var card := SampleCard(i);
    ListedSet(w, w, card.winning);
    ListedSet(c, c, card.chosen);
  }

  /** Each sample line parses into its sample card. */
  lemma SampleLineCard(i: nat)
    requires i < 6
    ensures ParseCard(SampleLine(i)) == Ok(SampleCard(i))
  {
    DecimalStringAvoids(i + 1, ':');
    ParseCardLine("Card " + DecimalString(i + 1), SampleNumbers(i).0, SampleNumbers(i).1);
    SampleSets(i);
  }

  /** A card line of rendered numbers holds no line break. */
  lemma CardLineAvoids(header: string, winning: seq<nat>, chosen: seq<nat>)
    requires '\n' !in header
    ensures '\n' !in CardLine(header, winning, chosen)
  {
    JoinedDigits(winning);
    JoinedDigits(chosen);
  }

  /** Lines without a line break, joined by '\n', read as their cards. */
  lemma CardsOfLines(lines: seq<string>, cards: seq<Card>)
    requires lines != [] && |lines| == |cards|
    requires forall i :: 0 <= i < |lines| ==> '\n' !in lines[i] && ParseCard(lines[i]) == Ok(cards[i])
    ensures CardsOf(Join(lines, "\n")) == Ok(cards)
  {
    SplitOfJoin(lines, "\n");
    var read := ParseCards(lines);
    assert read.Ok?;
    assert forall i :: 0 <= i < |lines| ==> read.value[i] == cards[i];
    assert read.value == cards;
  }

  /** Each sample line is one line of text. */
  lemma SampleLineAvoids(i: nat)
    requires i < 6
    ensures '\n' !in SampleLine(i)
  {
    DecimalStringAvoids(i + 1, '\n');
    CardLineAvoids("Card " + DecimalString(i + 1), SampleNumbers(i).0, SampleNumbers(i).1);
  }

  /** The sample's text reads as the sample's cards. */
  lemma SampleRead()
    ensures CardsOf(SampleInput()) == Ok(SampleCards())
  {
    var lines := SampleLines();
    var cards := SampleCards();
    forall i | 0 <= i < 6 ensures '\n' !in lines[i] && ParseCard(lines[i]) == Ok(cards[i]) {
      assert lines[i] == SampleLine(i) && cards[i] == SampleCard(i);
      SampleLineAvoids(i);
      SampleLineCard(i);
    }
    CardsOfLines(lines, cards);
  }

  /** The common numbers of two sets, checked one by one. */
  lemma Intersection<T>(a: set<T>, b: set<T>, common: set<T>)
    requires common <= a && common <= b
    requires forall x :: x in a && x !in common ==> x !in b
    ensures a * b == common
  {
  }

  /** The winning numbers of each sample card. */
  lemma SampleCount0() ensures Count(SampleCard(0)) == 4 {
    Intersection(SampleCard(0).winning, SampleCard(0).chosen, {48, 83, 86, 17});
  }

  lemma SampleCount1() ensures Count(SampleCard(1)) == 2 {
    Intersection(SampleCard(1).winning, SampleCard(1).chosen, {32, 61});
  }

  lemma SampleCount2() ensures Count(SampleCard(2)) == 2 {
    Intersection(SampleCard(2).winning, SampleCard(2).chosen, {1, 21});
  }

  lemma SampleCount3() ensures Count(SampleCard(3)) == 1 {
    Intersection(SampleCard(3).winning, SampleCard(3).chosen, {84});
  }

  lemma SampleCount4() ensures Count(SampleCard(4)) == 0 {
    Intersection(SampleCard(4).winning, SampleCard(4).chosen, {});
  }

  lemma SampleCount5() ensures Count(SampleCard(5)) == 0 {
    Intersection(SampleCard(5).winning, SampleCard(5).chosen, {});
  }
}
