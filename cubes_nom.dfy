/** The nom grammar of the cube games of 2023 day 2, shared by the nom
    versions of part 1 and part 2. No parser of this grammar raises
    a non-recoverable error, so every failure is one that `alt`, `opt`,
    `fold_many1` and `separated_list1` recover from. */
module CubesNom {
  import opened Outcome
  import opened Text
  import opened Cubes
  import opened Seqs
  import opened Nom

  /** `parse_color`: `tag("red")`, `tag("green")` and `tag("blue")`, tried
      in that order. */
  function ParseColor(input: string): (r: Option<Parsed<Color>>)
    ensures r.Some? ==> input == ColorName(r.value.value) + r.value.rest
  {
    match Tag("red", input)
    case Some(rest) => Some(Parsed(Red, rest))
    case None =>
      match Tag("green", input)
      case Some(rest) => Some(Parsed(Green, rest))
      case None =>
        match Tag("blue", input)
        case Some(rest) => Some(Parsed(Blue, rest))
        case None => None
  }

  /** The colour parser reads exactly a colour's name, and nothing after it. */
  lemma ParseColorExactly(input: string, c: Color, rest: string)
    ensures ParseColor(input) == Some(Parsed(c, rest)) <==> input == ColorName(c) + rest
  {
    if input == ColorName(c) + rest {
      ParseColorOf(c, rest);
    }
  }

  lemma ParseColorOf(c: Color, rest: string)
    ensures ParseColor(ColorName(c) + rest) == Some(Parsed(c, rest))
  {
    var input := ColorName(c) + rest;
    assert input[0] == ColorName(c)[0];
    TagOf(ColorName(c), rest);
    if c != Red {
      TagMismatch("red", input);
    }
    if c == Blue {
      TagMismatch("green", input);
    }
  }

  predicate IsSpace(c: char) {
    c == ' ' || c == '\t'
  }

  function SpaceRunLength(s: string): (n: nat)
    ensures n <= |s|
  {
    if s == [] || !IsSpace(s[0]) then 0 else 1 + SpaceRunLength(s[1..])
  }

  /** `space1`: one or more spaces or tabs. */
  function Space1(input: string): (r: Option<string>)
    ensures r.Some? ==> |r.value| < |input|
  {
    var n := SpaceRunLength(input);
    if n == 0 then None else Some(input[n..])
  }

  /** `cube`: a `u32`, white space, then a colour. */
  function CubeOf(input: string): (r: Option<Parsed<Cube>>)
    ensures r.Some? ==> |r.value.rest| < |input| && r.value.value.count <= U32_MAX
  {
    match U32(input)
    case None => None
    case Some(count) =>
      match Space1(count.rest)
      case None => None
      case Some(afterSpaces) =>
        match ParseColor(afterSpaces)
        case None => None
        case Some(color) => Some(Parsed(Cube(count.value, color.value), color.rest))
  }

  /** `terminated(cube, opt(tag(", ")))`: an item and the ", " after it, if
      there is one. */
  function Item(input: string): (r: Option<Parsed<Cube>>)
    ensures r.Some? ==> |r.value.rest| < |input|
  {
    match CubeOf(input)
    case None => None
    case Some(cube) =>
      match Tag(", ", cube.rest)
      case Some(after) => Some(Parsed(cube.value, after))
      case None => Some(cube)
  }

  /** The loop of `fold_many1` after its first item: items are folded in
      with the closure (`Assign`) until one fails to parse; that one is left
      unconsumed. Every item consumes input, so the guard of `fold_many1`
      against a parser that consumes nothing never fires. */
  function FoldItems(acc: Draw, input: string): (r: Parsed<Draw>)
    ensures |r.rest| <= |input|
    decreases |input|
  {
    match Item(input)
    case None => Parsed(acc, input)
    case Some(item) => FoldItems(Assign(acc, item.value), item.rest)
  }

  /** `draw`: `fold_many1` of the items from `Draw::default`; it fails
      unless at least one item parses. */
  function DrawOf(input: string): (r: Option<Parsed<Draw>>)
    ensures r.Some? ==> |r.value.rest| < |input|
  {
    match Item(input)
    case None => None
    case Some(item) => Some(FoldItems(Assign(NoCubes, item.value), item.rest))
  }

  /** The loop of `separated_list1(tag("; "), draw)` after its first draw:
      a separator and a draw are taken while both parse; a separator whose
      draw fails is left unconsumed. */
  function MoreDraws(draws: seq<Draw>, input: string): (r: Parsed<seq<Draw>>)
    ensures |r.value| >= |draws| && |r.rest| <= |input|
    decreases |input|
  {
    match Tag("; ", input)
    case None => Parsed(draws, input)
    case Some(after) =>
      match DrawOf(after)
      case None => Parsed(draws, input)
      case Some(draw) => MoreDraws(draws + [draw.value], draw.rest)
  }

  /** `separated_list1(tag("; "), draw)`: one draw or more. */
  function Draws(input: string): (r: Option<Parsed<seq<Draw>>>)
    ensures r.Some? ==> r.value.value != [] && |r.value.rest| < |input|
  {
    match DrawOf(input)
    case None => None
    case Some(draw) => Some(MoreDraws([draw.value], draw.rest))
  }

  /** What `game` reads of a line: the digits of the id and the draws. */
  datatype GameRecord = GameRecord(id: string, draws: seq<Draw>)

  /** `game`: "Game ", `digit1`, ": ", then the draws. */
  function GameOf(input: string): (r: Option<Parsed<GameRecord>>)
    ensures r.Some? ==> |r.value.rest| < |input|
    ensures r.Some? ==> r.value.value.id != [] && AllDigits(r.value.value.id) && r.value.value.draws != []
    ensures r.Some? ==> "Game " + r.value.value.id + ": " <= input
    ensures !("Game " <= input) ==> r.None?
  {
    match Tag("Game ", input)
    case None => None
    case Some(afterTag) =>
      match Digit1(afterTag)
      case None => None
      case Some(id) =>
        match Tag(": ", id.rest)
        case None => None
        case Some(afterColon) =>
          match Draws(afterColon)
          case None => None
          case Some(draws) => Some(Parsed(GameRecord(id.value, draws.value), draws.rest))
  }

  /** The loop of `separated_list1(line_ending, game)` after its first game. */
  function MoreGames(games: seq<GameRecord>, input: string): (r: Parsed<seq<GameRecord>>)
    ensures |r.value| >= |games|
    decreases |input|
  {
    match LineEnding(input)
    case None => Parsed(games, input)
    case Some(after) =>
      match GameOf(after)
      case None => Parsed(games, input)
      case Some(game) => MoreGames(games + [game.value], game.rest)
  }

  /** `parse`: one game or more, one per line; what follows the last game
      that parses is left over and ignored by `process`. */
  function ParseGames(input: string): (r: Option<Parsed<seq<GameRecord>>>)
    ensures r.Some? ==> r.value.value != []
  {
    match GameOf(input)
    case None => None
    case Some(game) => Some(MoreGames([game.value], game.rest))
  }

  function RecordDraws(records: seq<GameRecord>): (draws: seq<seq<Draw>>)
    ensures |draws| == |records| && forall i :: 0 <= i < |records| ==> draws[i] == records[i].draws
  {
    seq(|records|, i requires 0 <= i < |records| => records[i].draws)
  }

  /** `process` of part 2 (nom): `expect` panics when no game parses. */
  function Part2(input: string): (r: Result<nat>)
    ensures r.Panic? <==> ParseGames(input).None?
  {
    match ParseGames(input)
    case None => Panic
    case Some(games) => Ok(PowerSum(RecordDraws(games.value)))
  }

  /** The id of a game record: `id.parse::<u32>().unwrap()`. */
  function RecordGame(record: GameRecord): (r: Result<Game>)
    ensures r.Ok? <==> ParseUnsigned(record.id, U32_MAX).Some?
    ensures r.Ok? ==> r.value.draws == record.draws && Some(r.value.id) == ParseUnsigned(record.id, U32_MAX)
  {
    match ParseUnsigned(record.id, U32_MAX)
    case None => Panic
    case Some(id) => Ok(Game(id, record.draws))
  }

  function RecordGames(records: seq<GameRecord>): (rs: seq<Result<Game>>)
    ensures |rs| == |records| && forall i :: 0 <= i < |records| ==> rs[i] == RecordGame(records[i])
  {
    seq(|records|, i requires 0 <= i < |records| => RecordGame(records[i]))
  }

  /** `process` of part 1 (nom): the ids are the parsed digits after
      "Game "; an id beyond `u32` panics in `game`, and so does `expect`
      when no game parses. */
  function Part1(input: string): (r: Result<nat>)
    ensures ParseGames(input).None? ==> r.Panic?
    ensures ParseGames(input).Some? ==> (r.Panic? <==> AllOk(RecordGames(ParseGames(input).value.value)).Panic?)
  {
    match ParseGames(input)
    case None => Panic
    case Some(games) =>
      match AllOk(RecordGames(games.value))
      case Panic => Panic
      case Ok(gs) => Ok(PossibleIdSum(gs))
  }

  /* ---------------------------------------------------------------------
     Round trip: a rendered input parses back as its games
     --------------------------------------------------------------------- */

  /** A rendered number parses back as itself. */
  lemma U32Of(n: nat, rest: string)
    requires n <= U32_MAX && (rest == [] || !IsDigit(rest[0]))
    ensures U32(DecimalString(n) + rest) == Some(Parsed(n, rest))
  {
    Digit1Of(n, rest);
  }

  /** A rendered item parses back as itself, whatever follows it. */
  lemma CubeOfText(cube: Cube, rest: string)
    requires cube.count <= U32_MAX
    ensures CubeOf(CubeText(cube) + rest) == Some(Parsed(cube, rest))
  {
    var digits := DecimalString(cube.count);
    var name := ColorName(cube.color);
    var afterDigits := " " + name + rest;
    assert CubeText(cube) + rest == digits + afterDigits;
    U32Of(cube.count, afterDigits);
    SpaceBeforeName(name, rest);
    ParseColorOf(cube.color, rest);
  }

  lemma SpaceBeforeName(name: string, rest: string)
    requires name != [] && IsAlpha(name[0])
    ensures Space1(" " + name + rest) == Some(name + rest)
  {
    var s := " " + name + rest;
    assert s[1..] == name + rest;
    assert (name + rest)[0] == name[0];
    assert SpaceRunLength(s) == 1;
  }

  /** What may follow the last item of a draw: the end of the input, the
      next draw's "; " or a line ending. */
  predicate DrawEnd(rest: string) {
    rest == [] || rest[0] == ';' || rest[0] == '\n' || rest[0] == '\r'
  }

  lemma ItemThenComma(cube: Cube, rest: string)
    requires cube.count <= U32_MAX
    ensures Item(CubeText(cube) + ", " + rest) == Some(Parsed(cube, rest))
  {
    assert CubeText(cube) + ", " + rest == CubeText(cube) + (", " + rest);
    CubeOfText(cube, ", " + rest);
    TagOf(", ", rest);
  }

  lemma ItemLast(cube: Cube, rest: string)
    requires cube.count <= U32_MAX && DrawEnd(rest)
    ensures Item(CubeText(cube) + rest) == Some(Parsed(cube, rest))
  {
    CubeOfText(cube, rest);
    if rest != [] {
      TagMismatch(", ", rest);
    }
  }

  /** Nothing that ends a draw starts an item. */
  lemma NoItemAtEnd(rest: string)
    requires DrawEnd(rest)
    ensures Item(rest) == None
  {
  }

  lemma DrawTextCons(cubes: seq<Cube>, rest: string)
    requires |cubes| > 1
    ensures DrawText(cubes) + rest == CubeText(cubes[0]) + ", " + (DrawText(cubes[1..]) + rest)
  {
    assert CubeTexts(cubes)[1..] == CubeTexts(cubes[1..]);
  }

  /** The fold reads the items of a rendered draw into `acc`, in order. */
  lemma {:induction false} FoldItemsOf(acc: Draw, cubes: seq<Cube>, rest: string)
    requires cubes != [] && forall i :: 0 <= i < |cubes| ==> cubes[i].count <= U32_MAX
    requires DrawEnd(rest)
    ensures FoldItems(acc, DrawText(cubes) + rest) == Parsed(AssignAll(acc, cubes), rest)
    decreases |cubes|
  {
    var c := cubes[0];
    var tail := cubes[1..];
    if |cubes| == 1 {
      assert DrawText(cubes) == CubeText(c);
      ItemLast(c, rest);
      FoldItemsStep(acc, CubeText(c) + rest, c, rest);
      FoldItemsEnd(Assign(acc, c), rest);
      assert AssignAll(Assign(acc, c), tail) == Assign(acc, c);
    } else {
      var after := DrawText(tail) + rest;
      DrawTextCons(cubes, rest);
      ItemThenComma(c, after);
      FoldItemsStep(acc, DrawText(cubes) + rest, c, after);
      FoldItemsOf(Assign(acc, c), tail, rest);
    }
  }

  lemma FoldItemsStep(acc: Draw, input: string, cube: Cube, rest: string)
    requires Item(input) == Some(Parsed(cube, rest))
    ensures FoldItems(acc, input) == FoldItems(Assign(acc, cube), rest)
  {
  }

  lemma FoldItemsEnd(acc: Draw, rest: string)
    requires DrawEnd(rest)
    ensures FoldItems(acc, rest) == Parsed(acc, rest)
  {
    NoItemAtEnd(rest);
  }

  /** A rendered draw parses back as its items, a repeated colour keeping
      its last count. */
  lemma DrawOfText(cubes: seq<Cube>, rest: string)
    requires WellFormedDraw(cubes) && DrawEnd(rest)
    ensures DrawOf(DrawText(cubes) + rest) == Some(Parsed(Overwritten(cubes), rest))
  {
    var c := cubes[0];
    var input := DrawText(cubes) + rest;
    if |cubes| == 1 {
      assert DrawText(cubes) == CubeText(c);
      ItemLast(c, rest);
      DrawOfStep(input, c, rest);
      FoldItemsEnd(Assign(NoCubes, c), rest);
      assert AssignAll(Assign(NoCubes, c), cubes[1..]) == Assign(NoCubes, c);
    } else {
      var after := DrawText(cubes[1..]) + rest;
      DrawTextCons(cubes, rest);
      ItemThenComma(c, after);
      DrawOfStep(input, c, after);
      FoldItemsOf(Assign(NoCubes, c), cubes[1..], rest);
    }
  }

  lemma DrawOfStep(input: string, cube: Cube, rest: string)
    requires Item(input) == Some(Parsed(cube, rest))
    ensures DrawOf(input) == Some(FoldItems(Assign(NoCubes, cube), rest))
  {
  }

  /** What may follow the last draw of a game: the end of the input or a
      line ending. */
  predicate LineEnd(rest: string) {
    rest == [] || rest[0] == '\n' || rest[0] == '\r'
  }

  lemma DrawTextsTail(draws: seq<seq<Cube>>)
    requires draws != []
    ensures DrawTexts(draws)[1..] == DrawTexts(draws[1..])
  {
  }

  lemma ShownDrawsCons(draws: seq<seq<Cube>>)
    requires draws != []
    ensures ShownDraws(draws) == [Overwritten(draws[0])] + ShownDraws(draws[1..])
  {
  }

  lemma ShownDrawsAppend(acc: seq<Draw>, draws: seq<seq<Cube>>)
    requires draws != []
    ensures acc + [Overwritten(draws[0])] + ShownDraws(draws[1..]) == acc + ShownDraws(draws)
  {
    ShownDrawsCons(draws);
  }

  lemma MoreDrawsStep(acc: seq<Draw>, input: string, after: string, draw: Draw, rest: string)
    requires Tag("; ", input) == Some(after) && DrawOf(after) == Some(Parsed(draw, rest))
    ensures MoreDraws(acc, input) == MoreDraws(acc + [draw], rest)
  {
  }

  lemma MoreDrawsStop(acc: seq<Draw>, rest: string)
    requires LineEnd(rest)
    ensures MoreDraws(acc, rest) == Parsed(acc, rest)
  {
    if rest != [] {
      TagMismatch("; ", rest);
    }
  }

  /** The loop reads "; " and a draw for each rendered draw. */
  lemma {:induction false} MoreDrawsOf(acc: seq<Draw>, draws: seq<seq<Cube>>, rest: string)
    requires draws != [] && forall d :: 0 <= d < |draws| ==> WellFormedDraw(draws[d])
    requires LineEnd(rest)
    ensures MoreDraws(acc, "; " + (Join(DrawTexts(draws), "; ") + rest)) == Parsed(acc + ShownDraws(draws), rest)
    decreases |draws|
  {
    if |draws| == 1 {
      MoreDrawsOfOne(acc, draws, rest);
    } else {
      MoreDrawsOf(acc + [Overwritten(draws[0])], draws[1..], rest);
      MoreDrawsOfMany(acc, draws, rest);
    }
  }

  lemma MoreDrawsOfOne(acc: seq<Draw>, draws: seq<seq<Cube>>, rest: string)
    requires |draws| == 1 && WellFormedDraw(draws[0]) && LineEnd(rest)
    ensures MoreDraws(acc, "; " + (Join(DrawTexts(draws), "; ") + rest)) == Parsed(acc + ShownDraws(draws), rest)
  {
    var texts := DrawTexts(draws);
    var d := Overwritten(draws[0]);
    var body := Join(texts, "; ") + rest;
    TagOf("; ", body);
    JoinOnly(texts, "; ", rest);
    DrawOfText(draws[0], rest);
    MoreDrawsStep(acc, "; " + body, body, d, rest);
    MoreDrawsStop(acc + [d], rest);
    assert ShownDraws(draws) == [d];
  }

  /** One draw, then the draws after it as the recursive call reads them. */
  lemma MoreDrawsOfMany(acc: seq<Draw>, draws: seq<seq<Cube>>, rest: string)
    requires |draws| > 1 && WellFormedDraw(draws[0]) && LineEnd(rest)
    requires MoreDraws(acc + [Overwritten(draws[0])], "; " + (Join(DrawTexts(draws[1..]), "; ") + rest))
          == Parsed(acc + [Overwritten(draws[0])] + ShownDraws(draws[1..]), rest)
    ensures MoreDraws(acc, "; " + (Join(DrawTexts(draws), "; ") + rest)) == Parsed(acc + ShownDraws(draws), rest)
  {
    var texts := DrawTexts(draws);
    var d := Overwritten(draws[0]);
    var body := Join(texts, "; ") + rest;
    TagOf("; ", body);
    var tail := draws[1..];
    var after := "; " + (Join(DrawTexts(tail), "; ") + rest);
    JoinFirst(texts, "; ", rest);
    DrawTextsTail(draws);
    DrawOfText(draws[0], after);
    MoreDrawsStep(acc, "; " + body, body, d, after);
    ShownDrawsAppend(acc, draws);
  }


  lemma DrawsStep(input: string, draw: Draw, rest: string)
    requires DrawOf(input) == Some(Parsed(draw, rest))
    ensures Draws(input) == Some(MoreDraws([draw], rest))
  {
  }

  /** The draws of a rendered game parse back, in order. */
  lemma DrawsOfText(draws: seq<seq<Cube>>, rest: string)
    requires draws != [] && forall d :: 0 <= d < |draws| ==> WellFormedDraw(draws[d])
    requires LineEnd(rest)
    ensures Draws(Join(DrawTexts(draws), "; ") + rest) == Some(Parsed(ShownDraws(draws), rest))
  {
    if |draws| == 1 {
      DrawsOfOne(draws, rest);
    } else {
      MoreDrawsOf([Overwritten(draws[0])], draws[1..], rest);
      DrawsOfMany(draws, rest);
    }
  }

  lemma DrawsOfOne(draws: seq<seq<Cube>>, rest: string)
    requires |draws| == 1 && WellFormedDraw(draws[0]) && LineEnd(rest)
    ensures Draws(Join(DrawTexts(draws), "; ") + rest) == Some(Parsed(ShownDraws(draws), rest))
  {
    var texts := DrawTexts(draws);
    var d := Overwritten(draws[0]);
    var input := Join(texts, "; ") + rest;
    JoinOnly(texts, "; ", rest);
    DrawOfText(draws[0], rest);
    DrawsStep(input, d, rest);
    MoreDrawsStop([d], rest);
    assert ShownDraws(draws) == [d];
  }

  /** The first draw, then the draws after it as `MoreDrawsOf` reads them. */
  lemma DrawsOfMany(draws: seq<seq<Cube>>, rest: string)
    requires |draws| > 1 && WellFormedDraw(draws[0]) && LineEnd(rest)
    requires MoreDraws([Overwritten(draws[0])], "; " + (Join(DrawTexts(draws[1..]), "; ") + rest))
          == Parsed([Overwritten(draws[0])] + ShownDraws(draws[1..]), rest)
    ensures Draws(Join(DrawTexts(draws), "; ") + rest) == Some(Parsed(ShownDraws(draws), rest))
  {
    var texts := DrawTexts(draws);
    var d := Overwritten(draws[0]);
    var input := Join(texts, "; ") + rest;
    var tail := draws[1..];
    var after := "; " + (Join(DrawTexts(tail), "; ") + rest);
    JoinFirst(texts, "; ", rest);
    DrawTextsTail(draws);
    DrawOfText(draws[0], after);
    DrawsStep(input, d, after);
    ShownDrawsCons(draws);
  }


  lemma GameLineText(id: nat, draws: seq<seq<Cube>>, rest: string)
    ensures GameLine(id, draws) + rest == "Game " + (DecimalString(id) + (": " + (Join(DrawTexts(draws), "; ") + rest)))
  {
  }

  lemma GameOfStep(input: string, afterTag: string, id: string, afterId: string, afterColon: string, draws: seq<Draw>, rest: string)
    requires Tag("Game ", input) == Some(afterTag) && Digit1(afterTag) == Some(Parsed(id, afterId))
    requires Tag(": ", afterId) == Some(afterColon) && Draws(afterColon) == Some(Parsed(draws, rest))
    ensures GameOf(input) == Some(Parsed(GameRecord(id, draws), rest))
  {
  }

  /** A rendered game line parses back as its id's digits and its draws. */
  lemma GameOfLine(id: nat, draws: seq<seq<Cube>>, rest: string)
    requires draws != [] && forall d :: 0 <= d < |draws| ==> WellFormedDraw(draws[d])
    requires LineEnd(rest)
    ensures GameOf(GameLine(id, draws) + rest) == Some(Parsed(GameRecord(DecimalString(id), ShownDraws(draws)), rest))
  {
    var digits := DecimalString(id);
    var body := Join(DrawTexts(draws), "; ") + rest;
    GameLineText(id, draws, rest);
    TagOf("Game ", digits + (": " + body));
    Digit1Of(id, ": " + body);
    TagOf(": ", body);
    DrawsOfText(draws, rest);
    GameOfStep(GameLine(id, draws) + rest, digits + (": " + body), digits, ": " + body, body, ShownDraws(draws), rest);
  }

  /** The records of games numbered from `first`. */
  function Records(games: seq<seq<seq<Cube>>>, first: nat): (records: seq<GameRecord>)
    ensures |records| == |games|
    ensures forall i :: 0 <= i < |games| ==> records[i] == GameRecord(DecimalString(first + i), ShownDraws(games[i]))
  {
    seq(|games|, i requires 0 <= i < |games| => GameRecord(DecimalString(first + i), ShownDraws(games[i])))
  }

  lemma RecordsCons(games: seq<seq<seq<Cube>>>, first: nat)
    requires games != []
    ensures Records(games, first) == [GameRecord(DecimalString(first), ShownDraws(games[0]))] + Records(games[1..], first + 1)
  {
  }

  lemma RecordsAppend(acc: seq<GameRecord>, games: seq<seq<seq<Cube>>>, first: nat)
    requires games != []
    ensures acc + [GameRecord(DecimalString(first), ShownDraws(games[0]))] + Records(games[1..], first + 1) == acc + Records(games, first)
  {
    RecordsCons(games, first);
  }

  lemma GameLinesTail(games: seq<seq<seq<Cube>>>, first: nat)
    requires games != []
    ensures GameLines(games, first)[1..] == GameLines(games[1..], first + 1)
  {
  }

  lemma WellFormedTail(games: seq<seq<seq<Cube>>>)
    requires WellFormed(games) && |games| > 1
    ensures WellFormed(games[1..])
  {
    assert forall g :: 0 <= g < |games| - 1 ==> games[1..][g] == games[g + 1];
  }

  lemma MoreGamesStep(acc: seq<GameRecord>, input: string, after: string, game: GameRecord, rest: string)
    requires LineEnding(input) == Some(after) && GameOf(after) == Some(Parsed(game, rest))
    ensures MoreGames(acc, input) == MoreGames(acc + [game], rest)
  {
  }

  lemma MoreGamesStop(acc: seq<GameRecord>, rest: string)
    requires InputEnd(rest)
    ensures MoreGames(acc, rest) == Parsed(acc, rest)
  {
    if rest == "\r\n" {
      TagMismatch("\n", rest);
      TagOf("\r\n", []);
      assert rest == "\r\n" + [];
    } else if rest == "\n" {
      TagOf("\n", []);
      assert rest == "\n" + [];
    }
  }

  /** The loop reads a line ending and a game for each rendered line. */
  lemma {:induction false} MoreGamesOf(acc: seq<GameRecord>, games: seq<seq<seq<Cube>>>, first: nat, rest: string)
    requires WellFormed(games) && InputEnd(rest)
    ensures MoreGames(acc, "\n" + (Join(GameLines(games, first), "\n") + rest)) == Parsed(acc + Records(games, first), rest)
    decreases |games|
  {
    var lines := GameLines(games, first);
    var body := Join(lines, "\n") + rest;
    var record := GameRecord(DecimalString(first), ShownDraws(games[0]));
    LineEndingOf(body);
    if |games| == 1 {
      JoinOnly(lines, "\n", rest);
      GameOfLine(first, games[0], rest);
      MoreGamesStep(acc, "\n" + body, body, record, rest);
      MoreGamesStop(acc + [record], rest);
      assert Records(games, first) == [record];
    } else {
      var tail := games[1..];
      var after := "\n" + (Join(GameLines(tail, first + 1), "\n") + rest);
      JoinFirst(lines, "\n", rest);
      GameLinesTail(games, first);
      GameOfLine(first, games[0], after);
      MoreGamesStep(acc, "\n" + body, body, record, after);
      WellFormedTail(games);
      MoreGamesOf(acc + [record], tail, first + 1, rest);
      RecordsAppend(acc, games, first);
    }
  }

  lemma ParseGamesStep(input: string, game: GameRecord, rest: string)
    requires GameOf(input) == Some(Parsed(game, rest))
    ensures ParseGames(input) == Some(MoreGames([game], rest))
  {
  }

  /** A rendered input, with or without a final line ending, parses back as
      its games, numbered from 1. */
  lemma ParseGamesOf(games: seq<seq<seq<Cube>>>, rest: string)
    requires WellFormed(games) && InputEnd(rest)
    ensures ParseGames(GamesText(games) + rest) == Some(Parsed(Records(games, 1), rest))
  {
    if |games| == 1 {
      ParseGamesOfOne(games, rest);
    } else {
      WellFormedTail(games);
      MoreGamesOf([GameRecord(DecimalString(1), ShownDraws(games[0]))], games[1..], 2, rest);
      ParseGamesOfMany(games, rest);
    }
  }

  lemma ParseGamesOfOne(games: seq<seq<seq<Cube>>>, rest: string)
    requires |games| == 1 && WellFormed(games) && InputEnd(rest)
    ensures ParseGames(GamesText(games) + rest) == Some(Parsed(Records(games, 1), rest))
  {
    var lines := GameLines(games, 1);
    var input := Join(lines, "\n") + rest;
    var record := GameRecord(DecimalString(1), ShownDraws(games[0]));
    JoinOnly(lines, "\n", rest);
    GameOfLine(1, games[0], rest);
    ParseGamesStep(input, record, rest);
    MoreGamesStop([record], rest);
    assert Records(games, 1) == [record];
  }

  /** The first game, then the games after it as `MoreGamesOf` reads them. */
  lemma ParseGamesOfMany(games: seq<seq<seq<Cube>>>, rest: string)
    requires |games| > 1 && WellFormed(games) && InputEnd(rest)
    requires MoreGames([GameRecord(DecimalString(1), ShownDraws(games[0]))], "\n" + (Join(GameLines(games[1..], 2), "\n") + rest))
          == Parsed([GameRecord(DecimalString(1), ShownDraws(games[0]))] + Records(games[1..], 2), rest)
    ensures ParseGames(GamesText(games) + rest) == Some(Parsed(Records(games, 1), rest))
  {
    var lines := GameLines(games, 1);
    var input := Join(lines, "\n") + rest;
    var record := GameRecord(DecimalString(1), ShownDraws(games[0]));
    var tail := games[1..];
    var after := "\n" + (Join(GameLines(tail, 2), "\n") + rest);
    JoinFirst(lines, "\n", rest);
    GameLinesTail(games, 1);
    GameOfLine(1, games[0], after);
    ParseGamesStep(input, record, after);
    RecordsCons(games, 1);
  }


  /** Both nom solvers give the puzzle's answers on a well-formed input;
      part 1 needs the ids to fit in a `u32`. */
  lemma ProcessOf(games: seq<seq<seq<Cube>>>, rest: string)
    requires WellFormed(games) && InputEnd(rest)
    ensures Part2(GamesText(games) + rest) == Ok(Part2Answer(games))
    ensures |games| <= U32_MAX ==> Part1(GamesText(games) + rest) == Ok(Part1Answer(games))
  {
    Part2Of(games, rest);
    if |games| <= U32_MAX {
      Part1Of(games, rest);
    }
  }

  lemma Part2Of(games: seq<seq<seq<Cube>>>, rest: string)
    requires WellFormed(games) && InputEnd(rest)
    ensures Part2(GamesText(games) + rest) == Ok(Part2Answer(games))
  {
    ParseGamesOf(games, rest);
    Elementwise(RecordDraws(Records(games, 1)), ShownGames(games));
  }

  lemma Part1Of(games: seq<seq<seq<Cube>>>, rest: string)
    requires WellFormed(games) && InputEnd(rest) && |games| <= U32_MAX
    ensures Part1(GamesText(games) + rest) == Ok(Part1Answer(games))
  {
    ParseGamesOf(games, rest);
    var records := Records(games, 1);
    Elementwise(RecordDraws(records), ShownGames(games));
    var rs := RecordGames(records);
    var numbered := Numbered(ShownGames(games));
    forall i | 0 <= i < |rs| ensures rs[i] == Ok(numbered[i]) {
      ParseDecimalString(1 + i, U32_MAX);
    }
    AllOkOf(rs, numbered);
  }

}
