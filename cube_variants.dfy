/** The six solvers of 2023 day 2 side by side, and the puzzle's example. */
module CubeVariants {
  import opened Outcome
  import opened Text
  import opened Cubes
  import CubesText
  import CubesNom
  import Nom

  /** On an input the puzzle could give, the string-splitting solvers (which
      add the counts of a repeated colour), the struct solvers (which keep
      the last one) and the nom solvers all give the puzzle's answers. */
  lemma AllVariantsAgree(games: seq<seq<seq<Cube>>>)
    requires WellFormed(games) && |games| <= U32_MAX
    ensures CubesText.Part1(CubesText.Summing, GamesText(games)) == Ok(Part1Answer(games))
    ensures CubesText.Part1(CubesText.Overwriting, GamesText(games)) == Ok(Part1Answer(games))
    ensures CubesNom.Part1(GamesText(games)) == Ok(Part1Answer(games))
    ensures CubesText.Part2(CubesText.Summing, GamesText(games)) == Ok(Part2Answer(games))
    ensures CubesText.Part2(CubesText.Overwriting, GamesText(games)) == Ok(Part2Answer(games))
    ensures CubesNom.Part2(GamesText(games)) == Ok(Part2Answer(games))
  {
    CubesText.ProcessOf(CubesText.Summing, games);
    CubesText.ProcessOf(CubesText.Overwriting, games);
    CubesNom.ProcessOf(games, []);
    assert GamesText(games) + [] == GamesText(games);
  }

  /* ---------------------------------------------------------------------
     The example of the puzzle
     --------------------------------------------------------------------- */

  function SampleGame1(): seq<seq<Cube>> {
    [[Cube(3, Blue), Cube(4, Red)], [Cube(1, Red), Cube(2, Green), Cube(6, Blue)], [Cube(2, Green)]]
  }

  function SampleGame2(): seq<seq<Cube>> {
    [[Cube(1, Blue), Cube(2, Green)], [Cube(3, Green), Cube(4, Blue), Cube(1, Red)], [Cube(1, Green), Cube(1, Blue)]]
  }

  function SampleGame3(): seq<seq<Cube>> {
    [[Cube(8, Green), Cube(6, Blue), Cube(20, Red)], [Cube(5, Blue), Cube(4, Red), Cube(13, Green)], [Cube(5, Green), Cube(1, Red)]]
  }

  function SampleGame4(): seq<seq<Cube>> {
    [[Cube(1, Green), Cube(3, Red), Cube(6, Blue)], [Cube(3, Green), Cube(6, Red)], [Cube(3, Green), Cube(15, Blue), Cube(14, Red)]]
  }

  function SampleGame5(): seq<seq<Cube>> {
    [[Cube(6, Red), Cube(1, Blue), Cube(3, Green)], [Cube(2, Blue), Cube(1, Red), Cube(2, Green)]]
  }

  /** The five games of the example, game i on line i. */
  function SampleGames(): seq<seq<seq<Cube>>> {
    [SampleGame1(), SampleGame2(), SampleGame3(), SampleGame4(), SampleGame5()]
  }

  /* The unit examples of the nom parsers */

  /** `parse_color` reads a whole colour name and leaves nothing. */
  lemma ColorSample(input: string, c: Color)
    requires input == ColorName(c)
    ensures CubesNom.ParseColor(input) == Some(Nom.Parsed(c, ""))
  {
    CubesNom.ParseColorOf(c, "");
    assert ColorName(c) + "" == input;
  }

  /** "3 blue" is three blue cubes. */
  lemma CubeSample(input: string)
    requires input == "3 blue"
    ensures CubesNom.CubeOf(input) == Some(Nom.Parsed(Cube(3, Blue), ""))
  {
    CubesNom.CubeOfText(Cube(3, Blue), "");
    CubeSampleText(Cube(3, Blue));
    assert CubeText(Cube(3, Blue)) + "" == CubeText(Cube(3, Blue));
  }

  lemma CubeSampleText(cube: Cube)
    requires cube == Cube(3, Blue)
    ensures CubeText(cube) == "3 blue"
  {
    assert DecimalString(3) == "3";
  }

  /** The draw "8 green, 6 blue, 20 red" is read as 20 red, 8 green and
      6 blue. */
  lemma DrawSample(cubes: seq<Cube>)
    requires cubes == [Cube(8, Green), Cube(6, Blue), Cube(20, Red)]
    ensures CubesNom.DrawOf(DrawText(cubes)) == Some(Nom.Parsed(Draw(20, 8, 6), ""))
  {
    DrawSampleWellFormed(cubes);
    OverwrittenOfThree(cubes[0], cubes[1], cubes[2]);
    assert cubes == [cubes[0], cubes[1], cubes[2]];
    CubesNom.DrawOfText(cubes, "");
    assert DrawText(cubes) + "" == DrawText(cubes);
  }

  lemma DrawSampleWellFormed(cubes: seq<Cube>)
    requires cubes == [Cube(8, Green), Cube(6, Blue), Cube(20, Red)]
    ensures WellFormedDraw(cubes)
  {
  }

  lemma OverwrittenOfThree(a: Cube, b: Cube, c: Cube)
    ensures Overwritten([a, b, c]) == Assign(Assign(Assign(NoCubes, a), b), c)
  {
    var d1 := Assign(NoCubes, a);
    var d2 := Assign(d1, b);
    assert [a, b, c][1..] == [b, c];
    assert [b, c][1..] == [c];
    assert [c][1..] == [];
    assert AssignAll(d2, [c]) == Assign(d2, c);
    assert AssignAll(d1, [b, c]) == Assign(d2, c);
  }

  lemma OverwrittenOfTwo(a: Cube, b: Cube)
    ensures Overwritten([a, b]) == Assign(Assign(NoCubes, a), b)
  {
    var d1 := Assign(NoCubes, a);
    assert [a, b][1..] == [b];
    assert [b][1..] == [];
    assert AssignAll(d1, [b]) == Assign(d1, b);
  }

  lemma OverwrittenOfOne(a: Cube)
    ensures Overwritten([a]) == Assign(NoCubes, a)
  {
    assert [a][1..] == [];
    assert AssignAll(NoCubes, [a]) == AssignAll(Assign(NoCubes, a), []);
  }

  /* The game lines of the unit examples, through all six parsers */

  /** The draws of game 1 as every parser reads them. */
  function SampleShown1(): seq<Draw> {
    [Draw(4, 0, 3), Draw(1, 2, 6), Draw(0, 2, 0)]
  }

  /** The draws of game 3 as every parser reads them. */
  function SampleShown3(): seq<Draw> {
    [Draw(20, 8, 6), Draw(4, 13, 5), Draw(1, 5, 0)]
  }

  function SampleShown2(): seq<Draw> {
    [Draw(0, 2, 1), Draw(1, 3, 4), Draw(0, 1, 1)]
  }

  function SampleShown4(): seq<Draw> {
    [Draw(3, 1, 6), Draw(6, 3, 0), Draw(14, 3, 15)]
  }

  function SampleShown5(): seq<Draw> {
    [Draw(6, 3, 1), Draw(1, 2, 2)]
  }

  lemma Shown1(draws: seq<seq<Cube>>)
    requires draws == SampleGame1()
    ensures ShownDraws(draws) == SampleShown1()
    ensures forall d :: 0 <= d < |draws| ==> WellFormedDraw(draws[d])
  {
    OverwrittenOfTwo(Cube(3, Blue), Cube(4, Red));
    OverwrittenOfThree(Cube(1, Red), Cube(2, Green), Cube(6, Blue));
    OverwrittenOfOne(Cube(2, Green));
  }

  lemma Shown3(draws: seq<seq<Cube>>)
    requires draws == SampleGame3()
    ensures ShownDraws(draws) == SampleShown3()
    ensures forall d :: 0 <= d < |draws| ==> WellFormedDraw(draws[d])
  {
    OverwrittenOfThree(Cube(8, Green), Cube(6, Blue), Cube(20, Red));
    OverwrittenOfThree(Cube(5, Blue), Cube(4, Red), Cube(13, Green));
    OverwrittenOfTwo(Cube(5, Green), Cube(1, Red));
  }

  lemma MaxDrawOfThree(x: Draw, y: Draw, z: Draw)
    ensures MaxDraw([x, y, z]) == Larger(Larger(Larger(NoCubes, x), y), z)
  {
    MaxDrawOfTwo(x, y);
    assert [x, y, z][..2] == [x, y];
  }

  lemma MaxDrawOfTwo(x: Draw, y: Draw)
    ensures MaxDraw([x, y]) == Larger(Larger(NoCubes, x), y)
  {
    assert [x, y][..1] == [x];
    assert [x][..0] == [];
    assert MaxDraw([x]) == Larger(NoCubes, x);
  }

  /** Game 1: three draws, possible, power 48. */
  lemma Game1Facts(draws: seq<Draw>)
    requires draws == SampleShown1()
    ensures |draws| == 3 && Possible(draws) && GamePower(draws) == 48
  {
    MaxDrawOfThree(draws[0], draws[1], draws[2]);
  }

  /** Game 3: three draws, impossible (20 red), power 1560. */
  lemma Game3Facts(draws: seq<Draw>)
    requires draws == SampleShown3()
    ensures |draws| == 3 && !Possible(draws) && GamePower(draws) == 1560
  {
    assert !IsValid(draws[0]);
    MaxDrawOfThree(draws[0], draws[1], draws[2]);
  }

  /** The line "Game 1: 3 blue, 4 red; 1 red, 2 green, 6 blue; 2 green" is
      read the same by every parser: three draws, possible, power 48. */
  lemma Game1Sample(m: CubesText.Merge)
    ensures CubesText.ReadGame(m, GameLine(1, SampleGame1())) == Ok(SampleShown1())
    ensures CubesNom.GameOf(GameLine(1, SampleGame1())) == Some(Nom.Parsed(CubesNom.GameRecord("1", SampleShown1()), ""))
    ensures |SampleShown1()| == 3 && Possible(SampleShown1()) && GamePower(SampleShown1()) == 48
  {
    var game := SampleGame1();
    Shown1(game);
    CubesText.ReadGameOf(m, 1, game);
    CubesText.MergedDrawsAgree(game);
    CubesNom.GameOfLine(1, game, "");
    assert GameLine(1, game) + "" == GameLine(1, game);
    Game1Facts(SampleShown1());
  }

  /** The line "Game 3: 8 green, 6 blue, 20 red; 5 blue, 4 red, 13 green;
      5 green, 1 red" is read the same by every parser: three draws,
      impossible, power 1560. */
  lemma Game3Sample(m: CubesText.Merge)
    ensures CubesText.ReadGame(m, GameLine(3, SampleGame3())) == Ok(SampleShown3())
    ensures CubesNom.GameOf(GameLine(3, SampleGame3())) == Some(Nom.Parsed(CubesNom.GameRecord("3", SampleShown3()), ""))
    ensures |SampleShown3()| == 3 && !Possible(SampleShown3()) && GamePower(SampleShown3()) == 1560
  {
    var game := SampleGame3();
    Shown3(game);
    CubesText.ReadGameOf(m, 3, game);
    CubesText.MergedDrawsAgree(game);
    CubesNom.GameOfLine(3, game, "");
    assert GameLine(3, game) + "" == GameLine(3, game);
    Game3Facts(SampleShown3());
  }

  /* The whole example */

  lemma Shown2(draws: seq<seq<Cube>>)
    requires draws == SampleGame2()
    ensures ShownDraws(draws) == SampleShown2()
    ensures forall d :: 0 <= d < |draws| ==> WellFormedDraw(draws[d])
  {
    OverwrittenOfTwo(Cube(1, Blue), Cube(2, Green));
    OverwrittenOfThree(Cube(3, Green), Cube(4, Blue), Cube(1, Red));
    OverwrittenOfTwo(Cube(1, Green), Cube(1, Blue));
  }

  lemma Shown4(draws: seq<seq<Cube>>)
    requires draws == SampleGame4()
    ensures ShownDraws(draws) == SampleShown4()
    ensures forall d :: 0 <= d < |draws| ==> WellFormedDraw(draws[d])
  {
    OverwrittenOfThree(Cube(1, Green), Cube(3, Red), Cube(6, Blue));
    OverwrittenOfTwo(Cube(3, Green), Cube(6, Red));
    OverwrittenOfThree(Cube(3, Green), Cube(15, Blue), Cube(14, Red));
  }

  lemma Shown5(draws: seq<seq<Cube>>)
    requires draws == SampleGame5()
    ensures ShownDraws(draws) == SampleShown5()
    ensures forall d :: 0 <= d < |draws| ==> WellFormedDraw(draws[d])
  {
    OverwrittenOfThree(Cube(6, Red), Cube(1, Blue), Cube(3, Green));
    OverwrittenOfThree(Cube(2, Blue), Cube(1, Red), Cube(2, Green));
  }

  lemma Game2Facts(draws: seq<Draw>)
    requires draws == SampleShown2()
    ensures Possible(draws) && GamePower(draws) == 12
  {
    MaxDrawOfThree(draws[0], draws[1], draws[2]);
  }

  lemma Game4Facts(draws: seq<Draw>)
    requires draws == SampleShown4()
    ensures !Possible(draws) && GamePower(draws) == 630
  {
    assert !IsValid(draws[2]);
    MaxDrawOfThree(draws[0], draws[1], draws[2]);
  }

  lemma Game5Facts(draws: seq<Draw>)
    requires draws == SampleShown5()
    ensures Possible(draws) && GamePower(draws) == 36
  {
    MaxDrawOfTwo(draws[0], draws[1]);
  }

  /** The example is a well-formed input, and every parser reads its games
      as these draws. */
  lemma SampleShownGames(games: seq<seq<seq<Cube>>>)
    requires games == SampleGames()
    ensures WellFormed(games)
    ensures ShownGames(games) == [SampleShown1(), SampleShown2(), SampleShown3(), SampleShown4(), SampleShown5()]
  {
    Shown1(games[0]);
    Shown2(games[1]);
    Shown3(games[2]);
    Shown4(games[3]);
    Shown5(games[4]);
  }

  /** Games 1, 2 and 5 are possible: 1 + 2 + 5 = 8. */
  lemma SampleIdSum(games: seq<Game>)
    requires games == Numbered([SampleShown1(), SampleShown2(), SampleShown3(), SampleShown4(), SampleShown5()])
    ensures PossibleIdSum(games) == 8
  {
    Game1Facts(SampleShown1());
    Game2Facts(SampleShown2());
    Game3Facts(SampleShown3());
    Game4Facts(SampleShown4());
    Game5Facts(SampleShown5());
    assert PossibleIdSum(games[4..]) == 5 by { assert games[4..][1..] == []; }
    assert PossibleIdSum(games[3..]) == 5 by { assert games[3..][1..] == games[4..]; }
    assert PossibleIdSum(games[2..]) == 5 by { assert games[2..][1..] == games[3..]; }
    assert PossibleIdSum(games[1..]) == 7 by { assert games[1..][1..] == games[2..]; }
  }

  /** The powers are 48, 12, 1560, 630 and 36: 2286 in all. */
  lemma SamplePowerSum(shown: seq<seq<Draw>>)
    requires shown == [SampleShown1(), SampleShown2(), SampleShown3(), SampleShown4(), SampleShown5()]
    ensures PowerSum(shown) == 2286
  {
    Game1Facts(SampleShown1());
    Game2Facts(SampleShown2());
    Game3Facts(SampleShown3());
    Game4Facts(SampleShown4());
    Game5Facts(SampleShown5());
    assert PowerSum(shown[4..]) == 36 by { assert shown[4..][1..] == []; }
    assert PowerSum(shown[3..]) == 666 by { assert shown[3..][1..] == shown[4..]; }
    assert PowerSum(shown[2..]) == 2226 by { assert shown[2..][1..] == shown[3..]; }
    assert PowerSum(shown[1..]) == 2238 by { assert shown[1..][1..] == shown[2..]; }
  }

  /** Every one of the six solvers answers 8 and 2286 on the example. */
  lemma SampleProcesses(games: seq<seq<seq<Cube>>>)
    requires games == SampleGames()
    ensures CubesText.Part1(CubesText.Summing, GamesText(games)) == Ok(8)
    ensures CubesText.Part1(CubesText.Overwriting, GamesText(games)) == Ok(8)
    ensures CubesNom.Part1(GamesText(games)) == Ok(8)
    ensures CubesText.Part2(CubesText.Summing, GamesText(games)) == Ok(2286)
    ensures CubesText.Part2(CubesText.Overwriting, GamesText(games)) == Ok(2286)
    ensures CubesNom.Part2(GamesText(games)) == Ok(2286)
  {
    SampleShownGames(games);
    var shown := ShownGames(games);
    SampleIdSum(Numbered(shown));
    SamplePowerSum(shown);
    AllVariantsAgree(games);
  }
}
