/** The two line-splitting readers of the cube games of 2023 day 2. Both
    take the text after the first ": " of each line, split it at "; " into
    draws and each draw at ", " into items, and split each item at its
    first ' ' into a count and a colour. They differ in how an item enters
    the draw:
    - the split readers sum an item's count into `acc[colour]`, parsing it
      as a `u32`;
    - the struct readers overwrite the colour's count, parsing it as a
      `usize`.
    Every `unwrap` and the `panic!` on an unknown colour abort the run. */
module CubesText {
  import opened Outcome
  import opened Text
  import opened Cubes
  import opened Seqs

  /** How a reader merges an item into its draw. */
  datatype Merge = Summing | Overwriting

  /** The integer type the count is parsed as: `u32` or `usize`. */
  function CountLimit(m: Merge): nat {
    match m
    case Summing => U32_MAX
    case Overwriting => USIZE_MAX
  }

  function Merged(m: Merge, acc: Draw, cube: Cube): Draw {
    match m
    case Summing => Add(acc, cube)
    case Overwriting => Assign(acc, cube)
  }

  function MergedAll(m: Merge, acc: Draw, cubes: seq<Cube>): (r: Draw)
    ensures m == Summing ==> r == AddAll(acc, cubes)
    ensures m == Overwriting ==> r == AssignAll(acc, cubes)
    decreases |cubes|
  {
    if cubes == [] then acc else MergedAll(m, Merged(m, acc, cubes[0]), cubes[1..])
  }

  /** The colour an item names, `None` for any other word. */
  function ColorOfName(s: string): (r: Option<Color>)
    ensures r.Some? ==> ColorName(r.value) == s
    ensures forall c :: ColorName(c) == s ==> r == Some(c)
  {
    if s == "red" then Some(Red)
    else if s == "green" then Some(Green)
    else if s == "blue" then Some(Blue)
    else None
  }

  /** The fold closure over the items of a draw: split at the first ' ',
      parse the count and merge it into its colour. */
  function ReadItem(m: Merge, acc: Draw, item: string): (r: Result<Draw>)
    ensures SplitOnce(item, " ").None? ==> r.Panic?
  {
    match SplitOnce(item, " ")
    case None => Panic
    case Some((num, color)) =>
      match (ColorOfName(color), ParseUnsigned(num, CountLimit(m)))
      case (Some(c), Some(n)) => Ok(Merged(m, acc, Cube(n, c)))
      case _ => Panic
  }

  /** The fold over the items, from `acc`; the first bad item panics. */
  function ReadItems(m: Merge, acc: Draw, items: seq<string>): Result<Draw>
    decreases |items|
  {
    if items == [] then Ok(acc)
    else
      match ReadItem(m, acc, items[0])
      case Panic => Panic
      case Ok(next) => ReadItems(m, next, items[1..])
  }

  /** One draw: `draw.split(", ").fold(...)` from no cubes. */
  function ReadDraw(m: Merge, s: string): Result<Draw> {
    ReadItems(m, NoCubes, Split(s, ", "))
  }

  function DrawResults(m: Merge, texts: seq<string>): (rs: seq<Result<Draw>>)
    ensures |rs| == |texts| && forall i :: 0 <= i < |texts| ==> rs[i] == ReadDraw(m, texts[i])
  {
    seq(|texts|, i requires 0 <= i < |texts| => ReadDraw(m, texts[i]))
  }

  /** One line: the draws of the text after the first ": ", in order; the
      text before it is ignored. */
  function ReadGame(m: Merge, line: string): (r: Result<seq<Draw>>)
    ensures SplitOnce(line, ": ").None? ==> r.Panic?
  {
    match SplitOnce(line, ": ")
    case None => Panic
    case Some((_, draws)) => AllOk(DrawResults(m, Split(draws, "; ")))
  }

  function GameResults(m: Merge, lines: seq<string>): (rs: seq<Result<seq<Draw>>>)
    ensures |rs| == |lines| && forall i :: 0 <= i < |lines| ==> rs[i] == ReadGame(m, lines[i])
  {
    seq(|lines|, i requires 0 <= i < |lines| => ReadGame(m, lines[i]))
  }

  /** The games of `input.lines()`; a panic on any line aborts the run. */
  function ReadGames(m: Merge, input: string): Result<seq<seq<Draw>>> {
    AllOk(GameResults(m, Lines(input)))
  }

  /** `process` of part 1: each game gets its line number from 1 as id, and
      the ids of the possible games are added up. */
  function Part1(m: Merge, input: string): (r: Result<nat>)
    ensures r.Panic? <==> ReadGames(m, input).Panic?
  {
    match ReadGames(m, input)
    case Panic => Panic
    case Ok(games) => Ok(PossibleIdSum(Numbered(games)))
  }

  /** `process` of part 2: the powers of the games, added up. */
  function Part2(m: Merge, input: string): (r: Result<nat>)
    ensures r.Panic? <==> ReadGames(m, input).Panic?
  {
    match ReadGames(m, input)
    case Panic => Panic
    case Ok(games) => Ok(PowerSum(games))
  }

  /* ---------------------------------------------------------------------
     Error paths
     --------------------------------------------------------------------- */

  /** An item whose word after the first ' ' is no colour panics, whatever
      the count. */
  lemma UnknownColorPanics(m: Merge, acc: Draw, num: string, word: string)
    requires ' ' !in num
    requires word != "red" && word != "green" && word != "blue"
    ensures ReadItem(m, acc, num + " " + word) == Panic
  {
    NoOccurrenceInHead(num, " ", word);
    SplitOnceAfter(num, " ", word);
  }

  /** A count that does not fit the integer type panics. */
  lemma CountTooLargePanics(m: Merge, acc: Draw, n: nat, c: Color)
    requires n > CountLimit(m)
    ensures ReadItem(m, acc, CubeText(Cube(n, c))) == Panic
  {
    ItemSplits(Cube(n, c));
    ParseDecimalString(n, CountLimit(m));
  }

  /** Only the text after the first ": " matters. */
  lemma HeaderIgnored(m: Merge, h1: string, h2: string, draws: string)
    requires ':' !in h1 && ':' !in h2
    ensures ReadGame(m, h1 + ": " + draws) == ReadGame(m, h2 + ": " + draws)
  {
    NoOccurrenceInHead(h1, ": ", draws);
    SplitOnceAfter(h1, ": ", draws);
    NoOccurrenceInHead(h2, ": ", draws);
    SplitOnceAfter(h2, ": ", draws);
  }

  /* ---------------------------------------------------------------------
     Round trip: a rendered game reads back as its draws
     --------------------------------------------------------------------- */

  lemma ItemSplits(cube: Cube)
    ensures SplitOnce(CubeText(cube), " ") == Some((DecimalString(cube.count), ColorName(cube.color)))
  {
    NoOccurrenceInHead(DecimalString(cube.count), " ", ColorName(cube.color));
    SplitOnceAfter(DecimalString(cube.count), " ", ColorName(cube.color));
  }

  /** A rendered item merges its count into its colour. */
  lemma ReadItemOf(m: Merge, acc: Draw, cube: Cube)
    requires cube.count <= U32_MAX
    ensures ReadItem(m, acc, CubeText(cube)) == Ok(Merged(m, acc, cube))
  {
    ItemSplits(cube);
    ParseDecimalString(cube.count, CountLimit(m));
  }

  lemma {:induction false} ReadItemsOf(m: Merge, acc: Draw, cubes: seq<Cube>)
    requires forall i :: 0 <= i < |cubes| ==> cubes[i].count <= U32_MAX
    ensures ReadItems(m, acc, CubeTexts(cubes)) == Ok(MergedAll(m, acc, cubes))
    decreases |cubes|
  {
    if cubes != [] {
      ReadItemOf(m, acc, cubes[0]);
      assert CubeTexts(cubes)[1..] == CubeTexts(cubes[1..]);
      ReadItemsOf(m, Merged(m, acc, cubes[0]), cubes[1..]);
    }
  }

  /** The characters of a rendered item: digits, one space and letters. */
  lemma CubeTextAvoids(cube: Cube, c: char)
    requires c != ' ' && !IsDigit(c) && !IsAlpha(c)
    ensures c !in CubeText(cube)
  {
  }

  /** A rendered draw reads back as its items merged: summed by the split
      readers, overwritten by the struct readers. */
  lemma ReadDrawOf(m: Merge, cubes: seq<Cube>)
    requires cubes != [] && forall i :: 0 <= i < |cubes| ==> cubes[i].count <= U32_MAX
    ensures ReadDraw(m, DrawText(cubes)) == Ok(MergedAll(m, NoCubes, cubes))
  {
    var texts := CubeTexts(cubes);
    forall i | 0 <= i < |texts| ensures ", "[0] !in texts[i] {
      CubeTextAvoids(cubes[i], ',');
    }
    assert ", "[0] == ',';
    SplitOfJoin(texts, ", ");
    ReadItemsOf(m, NoCubes, cubes);
  }

  /** A rendered draw holds no ';', '\n', '\r' or ':'. */
  lemma DrawTextAvoids(cubes: seq<Cube>, c: char)
    requires c == ';' || c == '\n' || c == '\r' || c == ':'
    ensures c !in DrawText(cubes)
  {
    var texts := CubeTexts(cubes);
    forall i | 0 <= i < |texts| ensures c !in texts[i] {
      CubeTextAvoids(cubes[i], c);
    }
    JoinAvoids(texts, ", ", c);
  }

  /** The draws a reader gets from well-formed rendered draws. */
  function MergedDraws(m: Merge, draws: seq<seq<Cube>>): (r: seq<Draw>)
    ensures |r| == |draws| && forall i :: 0 <= i < |draws| ==> r[i] == MergedAll(m, NoCubes, draws[i])
  {
    seq(|draws|, i requires 0 <= i < |draws| => MergedAll(m, NoCubes, draws[i]))
  }

  /** A rendered game line reads back as its draws, whatever its id. */
  lemma ReadGameOf(m: Merge, id: nat, draws: seq<seq<Cube>>)
    requires draws != [] && forall d :: 0 <= d < |draws| ==> WellFormedDraw(draws[d])
    ensures ReadGame(m, GameLine(id, draws)) == Ok(MergedDraws(m, draws))
  {
    var head := GameHeader(id);
    var texts := DrawTexts(draws);
    var body := Join(texts, "; ");
    GameHeaderAvoids(id, ':');
    NoOccurrenceInHead(head, ": ", body);
    SplitOnceAfter(head, ": ", body);
    ReadDrawsOf(m, draws);
  }

  /** The draws of a rendered game read back one by one. */
  lemma ReadDrawsOf(m: Merge, draws: seq<seq<Cube>>)
    requires draws != [] && forall d :: 0 <= d < |draws| ==> WellFormedDraw(draws[d])
    ensures AllOk(DrawResults(m, Split(Join(DrawTexts(draws), "; "), "; "))) == Ok(MergedDraws(m, draws))
  {
    var texts := DrawTexts(draws);
    forall i | 0 <= i < |texts| ensures "; "[0] !in texts[i] {
      DrawTextAvoids(draws[i], ';');
    }
    SplitOfJoin(texts, "; ");
    var rs := DrawResults(m, texts);
    forall i | 0 <= i < |rs| ensures rs[i] == Ok(MergedAll(m, NoCubes, draws[i])) {
      ReadDrawOf(m, draws[i]);
    }
    AllOkOf(rs, MergedDraws(m, draws));
  }

  /** A game line holds no line-ending character. */
  lemma GameLineAvoids(id: nat, draws: seq<seq<Cube>>, c: char)
    requires c == '\n' || c == '\r'
    ensures c !in GameLine(id, draws)
  {
    var texts := DrawTexts(draws);
    forall i | 0 <= i < |texts| ensures c !in texts[i] {
      DrawTextAvoids(draws[i], c);
    }
    JoinAvoids(texts, "; ", c);
    GameHeaderAvoids(id, c);
  }

  /** The lines of a rendered input are its game lines. */
  lemma LinesOfGames(games: seq<seq<seq<Cube>>>)
    ensures Lines(GamesText(games)) == GameLines(games, 1)
  {
    var lines := GameLines(games, 1);
    forall i | 0 <= i < |lines| ensures lines[i] != [] && '\n' !in lines[i] && '\r' !in lines[i] {
      GameLineAvoids(i + 1, games[i], '\n');
      GameLineAvoids(i + 1, games[i], '\r');
    }
    LinesOfJoin(lines);
  }

  /** A rendered input reads back as its games' draws. */
  function MergedGames(m: Merge, games: seq<seq<seq<Cube>>>): (r: seq<seq<Draw>>)
    ensures |r| == |games| && forall g :: 0 <= g < |games| ==> r[g] == MergedDraws(m, games[g])
  {
    seq(|games|, g requires 0 <= g < |games| => MergedDraws(m, games[g]))
  }

  lemma ReadGameOfWellFormed(m: Merge, games: seq<seq<seq<Cube>>>, g: nat)
    requires WellFormed(games) && g < |games|
    ensures GameResults(m, GameLines(games, 1))[g] == Ok(MergedGames(m, games)[g])
  {
    ReadGameOf(m, 1 + g, games[g]);
  }

  lemma ReadGamesOf(m: Merge, games: seq<seq<seq<Cube>>>)
    requires WellFormed(games)
    ensures ReadGames(m, GamesText(games)) == Ok(MergedGames(m, games))
  {
    var lines := GameLines(games, 1);
    LinesOfGames(games);
    var rs := GameResults(m, lines);
    var read := MergedGames(m, games);
    forall g | 0 <= g < |games| ensures rs[g] == Ok(read[g]) {
      ReadGameOfWellFormed(m, games, g);
    }
    AllOkOf(rs, read);
  }

  /** On a well-formed input the two merges agree, because no colour repeats
      within a draw. */
  lemma MergedDrawsAgree(draws: seq<seq<Cube>>)
    requires forall d :: 0 <= d < |draws| ==> WellFormedDraw(draws[d])
    ensures MergedDraws(Summing, draws) == ShownDraws(draws)
    ensures MergedDraws(Overwriting, draws) == ShownDraws(draws)
  {
    forall d | 0 <= d < |draws| ensures MergedDraws(Summing, draws)[d] == ShownDraws(draws)[d] {
      SummedIsOverwritten(draws[d]);
    }
  }

  /** Both readers give the puzzle's answers on a well-formed input. */
  lemma ProcessOf(m: Merge, games: seq<seq<seq<Cube>>>)
    requires WellFormed(games)
    ensures Part1(m, GamesText(games)) == Ok(Part1Answer(games))
    ensures Part2(m, GamesText(games)) == Ok(Part2Answer(games))
  {
    ReadGamesOf(m, games);
    var read := MergedGames(m, games);
    forall g | 0 <= g < |games| ensures read[g] == ShownGames(games)[g] {
      MergedDrawsAgree(games[g]);
    }
    Elementwise(read, ShownGames(games));
  }
}
