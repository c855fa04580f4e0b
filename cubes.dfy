/** The cube games of 2023 day 2, shared by its three parsers. A game line
    "Game 1: 3 blue, 4 red; 1 red, 2 green, 6 blue; 2 green" holds draws
    separated by "; ", each a list of "<count> <colour>" items separated by
    ", ". Part 1 adds up the ids of the games possible with 12 red, 13 green
    and 14 blue cubes; part 2 adds up, over the games, the product of the
    largest count of each colour. */
module Cubes {
  import opened Text

  datatype Color = Red | Green | Blue

  function ColorName(c: Color): (name: string)
    ensures |name| >= 3 && forall i :: 0 <= i < |name| ==> IsAlpha(name[i])
  {
    match c
    case Red => "red"
    case Green => "green"
    case Blue => "blue"
  }

  /** One "<count> <colour>" item of a draw. */
  datatype Cube = Cube(count: nat, color: Color)

  /** The cubes of each colour one draw shows; an absent colour counts 0. */
  datatype Draw = Draw(red: nat, green: nat, blue: nat)

  const NoCubes: Draw := Draw(0, 0, 0)

  function CountOf(d: Draw, c: Color): nat {
    match c
    case Red => d.red
    case Green => d.green
    case Blue => d.blue
  }

  /** Draws with the same count of every colour are the same draw. */
  lemma SameCounts(a: Draw, b: Draw)
    requires CountOf(a, Red) == CountOf(b, Red) && CountOf(a, Green) == CountOf(b, Green)
    requires CountOf(a, Blue) == CountOf(b, Blue)
    ensures a == b
  {
  }

  /** `draw.<colour> = count`: the item replaces the count of its colour. */
  function Assign(d: Draw, cube: Cube): (r: Draw)
    ensures CountOf(r, cube.color) == cube.count
    ensures forall c :: c != cube.color ==> CountOf(r, c) == CountOf(d, c)
  {
    match cube.color
    case Red => d.(red := cube.count)
    case Green => d.(green := cube.count)
    case Blue => d.(blue := cube.count)
  }

  /** `acc[colour] += count`: the item adds to the count of its colour. */
  function Add(d: Draw, cube: Cube): (r: Draw)
    ensures CountOf(r, cube.color) == CountOf(d, cube.color) + cube.count
    ensures forall c :: c != cube.color ==> CountOf(r, c) == CountOf(d, c)
  {
    match cube.color
    case Red => d.(red := d.red + cube.count)
    case Green => d.(green := d.green + cube.count)
    case Blue => d.(blue := d.blue + cube.count)
  }

  /** The items folded into `acc` left to right with `Assign`. */
  function AssignAll(acc: Draw, cubes: seq<Cube>): Draw
    decreases |cubes|
  {
    if cubes == [] then acc else AssignAll(Assign(acc, cubes[0]), cubes[1..])
  }

  /** The items folded into `acc` left to right with `Add`. */
  function AddAll(acc: Draw, cubes: seq<Cube>): Draw
    decreases |cubes|
  {
    if cubes == [] then acc else AddAll(Add(acc, cubes[0]), cubes[1..])
  }

  /** The draw the struct and nom parsers build from its items. */
  function Overwritten(cubes: seq<Cube>): Draw {
    AssignAll(NoCubes, cubes)
  }

  /** The draw the split parsers build from its items. */
  function Summed(cubes: seq<Cube>): Draw {
    AddAll(NoCubes, cubes)
  }

  /** The total count the items give colour c. */
  function Total(cubes: seq<Cube>, c: Color): nat {
    if cubes == [] then 0 else (if cubes[0].color == c then cubes[0].count else 0) + Total(cubes[1..], c)
  }

  /** Summing: each colour ends with the total of its items. */
  lemma {:induction false} AddAllTotals(acc: Draw, cubes: seq<Cube>, c: Color)
    ensures CountOf(AddAll(acc, cubes), c) == CountOf(acc, c) + Total(cubes, c)
    decreases |cubes|
  {
    if cubes != [] {
      AddAllTotals(Add(acc, cubes[0]), cubes[1..], c);
    }
  }

  /** Overwriting: a colour no item names keeps its count. */
  lemma {:induction false} AssignAllAbsent(acc: Draw, cubes: seq<Cube>, c: Color)
    requires forall i :: 0 <= i < |cubes| ==> cubes[i].color != c
    ensures CountOf(AssignAll(acc, cubes), c) == CountOf(acc, c)
    decreases |cubes|
  {
    if cubes != [] {
      assert cubes[0].color != c;
      AssignAllAbsent(Assign(acc, cubes[0]), cubes[1..], c);
    }
  }

  /** Overwriting: a colour ends with the count of its last item. */
  lemma {:induction false} AssignAllLast(acc: Draw, cubes: seq<Cube>, i: nat)
    requires i < |cubes|
    requires forall j :: i < j < |cubes| ==> cubes[j].color != cubes[i].color
    ensures CountOf(AssignAll(acc, cubes), cubes[i].color) == cubes[i].count
    decreases |cubes|
  {
    var tail := cubes[1..];
    if i == 0 {
      AssignAllAbsent(Assign(acc, cubes[0]), tail, cubes[0].color);
    } else {
      assert tail[i - 1] == cubes[i];
      AssignAllLast(Assign(acc, cubes[0]), tail, i - 1);
    }
  }

  /** No colour is named twice in the items of a draw. */
  predicate DistinctColors(cubes: seq<Cube>) {
    forall i, j :: 0 <= i < j < |cubes| ==> cubes[i].color != cubes[j].color
  }

  /** When no colour repeats, summing and overwriting read the same draw. */
  lemma SummedIsOverwritten(cubes: seq<Cube>)
    requires DistinctColors(cubes)
    ensures Summed(cubes) == Overwritten(cubes)
  {
    AddAllIsAssignAll(NoCubes, cubes);
  }

  lemma {:induction false} AddAllIsAssignAll(acc: Draw, cubes: seq<Cube>)
    requires DistinctColors(cubes)
    requires forall i :: 0 <= i < |cubes| ==> CountOf(acc, cubes[i].color) == 0
    ensures AddAll(acc, cubes) == AssignAll(acc, cubes)
    decreases |cubes|
  {
    if cubes != [] {
      var c := cubes[0];
      assert CountOf(acc, c.color) == 0;
      SameCounts(Add(acc, c), Assign(acc, c));
      var tail := cubes[1..];
      forall i | 0 <= i < |tail| ensures CountOf(Assign(acc, c), tail[i].color) == 0 {
        assert tail[i] == cubes[i + 1];
      }
      assert DistinctColors(tail) by {
        forall i, j | 0 <= i < j < |tail| ensures tail[i].color != tail[j].color {
          assert tail[i] == cubes[i + 1] && tail[j] == cubes[j + 1];
        }
      }
      AddAllIsAssignAll(Assign(acc, c), tail);
    }
  }

  /** With a repeated colour the two readings differ: "1 red, 2 red" sums to
      3 red but overwrites to 2 red. */
  lemma RepeatedColor(cubes: seq<Cube>)
    requires cubes == [Cube(1, Red), Cube(2, Red)]
    ensures Summed(cubes) == Draw(3, 0, 0) && Overwritten(cubes) == Draw(2, 0, 0)
  {
    var tail := cubes[1..];
    assert tail[0] == Cube(2, Red) && tail[1..] == [];
    assert AddAll(Draw(1, 0, 0), tail) == Draw(3, 0, 0);
    assert AssignAll(Draw(1, 0, 0), tail) == Draw(2, 0, 0);
  }

  /* ---------------------------------------------------------------------
     Part 1: the bag of 12 red, 13 green and 14 blue cubes
     --------------------------------------------------------------------- */

  /** `is_valid`: the draw could come from the bag. */
  predicate IsValid(d: Draw) {
    d.red <= 12 && d.green <= 13 && d.blue <= 14
  }

  /** Every draw of the game could come from the bag. */
  predicate Possible(draws: seq<Draw>) {
    forall i :: 0 <= i < |draws| ==> IsValid(draws[i])
  }

  /** A game with its id, as part 1 sees it. */
  datatype Game = Game(id: nat, draws: seq<Draw>)

  /** The ids of the possible games, added up. */
  function PossibleIdSum(games: seq<Game>): nat {
    if games == [] then 0
    else (if Possible(games[0].draws) then games[0].id else 0) + PossibleIdSum(games[1..])
  }

  /** The games of the input numbered from 1 by their line. */
  function Numbered(gameDraws: seq<seq<Draw>>): (games: seq<Game>)
    ensures |games| == |gameDraws|
    ensures forall i :: 0 <= i < |games| ==> games[i] == Game(i + 1, gameDraws[i])
  {
    seq(|gameDraws|, i requires 0 <= i < |gameDraws| => Game(i + 1, gameDraws[i]))
  }

  /** The sum is over the possible games: it splits over any division of the
      list, and one game adds its id exactly when it is possible. */
  lemma {:induction false} PossibleIdSumAppend(a: seq<Game>, b: seq<Game>)
    ensures PossibleIdSum(a + b) == PossibleIdSum(a) + PossibleIdSum(b)
    decreases |a|
  {
    if a == [] {
      assert a + b == b;
    } else {
      assert (a + b)[0] == a[0];
      assert (a + b)[1..] == a[1..] + b;
      PossibleIdSumAppend(a[1..], b);
    }
  }

  lemma PossibleIdSumOne(g: Game)
    ensures PossibleIdSum([g]) == if Possible(g.draws) then g.id else 0
  {
    assert [g][1..] == [];
  }

  /* ---------------------------------------------------------------------
     Part 2: the fewest cubes of each colour
     --------------------------------------------------------------------- */

  /** `cmp::max`. */
  function Max(a: nat, b: nat): nat {
    if a >= b then a else b
  }

  /** One step of the `max_draws` fold. */
  function Larger(acc: Draw, d: Draw): Draw {
    Draw(Max(d.red, acc.red), Max(d.green, acc.green), Max(d.blue, acc.blue))
  }

  /** The `max_draws` fold over the draws, from [0, 0, 0]. */
  function MaxDraw(draws: seq<Draw>): Draw {
    if draws == [] then NoCubes else Larger(MaxDraw(draws[..|draws| - 1]), draws[|draws| - 1])
  }

  /** Each colour of the maximum is at least that colour of every draw. */
  lemma {:induction false} MaxDrawBounds(draws: seq<Draw>, i: nat, c: Color)
    requires i < |draws|
    ensures CountOf(draws[i], c) <= CountOf(MaxDraw(draws), c)
    decreases |draws|
  {
    var init := draws[..|draws| - 1];
    if i < |draws| - 1 {
      assert init[i] == draws[i];
      MaxDrawBounds(init, i, c);
    }
  }

  /** Each colour of the maximum is that colour of some draw, or 0 when
      there are no draws. */
  lemma {:induction false} MaxDrawAttained(draws: seq<Draw>, c: Color)
    ensures draws == [] ==> MaxDraw(draws) == NoCubes
    ensures draws != [] ==> exists i :: 0 <= i < |draws| && CountOf(MaxDraw(draws), c) == CountOf(draws[i], c)
    decreases |draws|
  {
    if draws != [] {
      var n := |draws| - 1;
      var init := draws[..n];
      MaxDrawAttained(init, c);
      if CountOf(MaxDraw(draws), c) != CountOf(draws[n], c) {
        var i :| 0 <= i < |init| && CountOf(MaxDraw(init), c) == CountOf(init[i], c);
        assert init[i] == draws[i];
      }
    }
  }

  /** The maximum is the smallest draw that bounds every draw: the fewest
      cubes of each colour that make the game possible. */
  lemma {:induction false} MaxDrawLeast(draws: seq<Draw>, bound: Draw, c: Color)
    requires forall i :: 0 <= i < |draws| ==> CountOf(draws[i], c) <= CountOf(bound, c)
    ensures CountOf(MaxDraw(draws), c) <= CountOf(bound, c)
  {
    MaxDrawAttained(draws, c);
  }

  /** A game is possible exactly when its maximum draw is. */
  lemma PossibleIffMaxValid(draws: seq<Draw>)
    ensures Possible(draws) <==> IsValid(MaxDraw(draws))
  {
    var bag := Draw(12, 13, 14);
    if Possible(draws) {
      MaxDrawLeast(draws, bag, Red);
      MaxDrawLeast(draws, bag, Green);
      MaxDrawLeast(draws, bag, Blue);
    } else {
      var i :| 0 <= i < |draws| && !IsValid(draws[i]);
      MaxDrawBounds(draws, i, Red);
      MaxDrawBounds(draws, i, Green);
      MaxDrawBounds(draws, i, Blue);
    }
  }

  /** The product of the three counts. */
  function Power(d: Draw): nat {
    d.red * d.green * d.blue
  }

  /** `get_product`: the power of the maximum draw. */
  function GamePower(draws: seq<Draw>): nat {
    Power(MaxDraw(draws))
  }

  /** No draw of the game shows colour c. */
  predicate Absent(draws: seq<Draw>, c: Color) {
    forall i :: 0 <= i < |draws| ==> CountOf(draws[i], c) == 0
  }

  /** The product is 0 exactly when some colour never appears. */
  lemma GamePowerZero(draws: seq<Draw>)
    ensures GamePower(draws) == 0 <==> Absent(draws, Red) || Absent(draws, Green) || Absent(draws, Blue)
  {
    var m := MaxDraw(draws);
    ProductZero(m.red, m.green, m.blue);
    MaxZeroIffAbsent(draws, Red);
    MaxZeroIffAbsent(draws, Green);
    MaxZeroIffAbsent(draws, Blue);
  }

  lemma ProductZero(a: nat, b: nat, c: nat)
    ensures a * b * c == 0 <==> a == 0 || b == 0 || c == 0
  {
    if a != 0 && b != 0 && c != 0 {
      assert a * b >= 1;
      assert a * b * c >= 1;
    }
  }

  lemma MaxZeroIffAbsent(draws: seq<Draw>, c: Color)
    ensures CountOf(MaxDraw(draws), c) == 0 <==> Absent(draws, c)
  {
    if CountOf(MaxDraw(draws), c) == 0 {
      forall i | 0 <= i < |draws| ensures CountOf(draws[i], c) == 0 {
        MaxDrawBounds(draws, i, c);
      }
    } else {
      MaxDrawAttained(draws, c);
    }
  }

  /** The powers of the games, added up. */
  function PowerSum(games: seq<seq<Draw>>): nat {
    if games == [] then 0 else GamePower(games[0]) + PowerSum(games[1..])
  }

  /* ---------------------------------------------------------------------
     The game line format, for the round trips of the parsers
     --------------------------------------------------------------------- */

  /** "<count> <colour>". */
  function CubeText(cube: Cube): string {
    DecimalString(cube.count) + " " + ColorName(cube.color)
  }

  function CubeTexts(cubes: seq<Cube>): (texts: seq<string>)
    ensures |texts| == |cubes| && forall i :: 0 <= i < |cubes| ==> texts[i] == CubeText(cubes[i])
  {
    seq(|cubes|, i requires 0 <= i < |cubes| => CubeText(cubes[i]))
  }

  /** A draw: its items separated by ", ". */
  function DrawText(cubes: seq<Cube>): string {
    Join(CubeTexts(cubes), ", ")
  }

  function DrawTexts(draws: seq<seq<Cube>>): (texts: seq<string>)
    ensures |texts| == |draws| && forall i :: 0 <= i < |draws| ==> texts[i] == DrawText(draws[i])
  {
    seq(|draws|, i requires 0 <= i < |draws| => DrawText(draws[i]))
  }

  /** "Game <id>". */
  function GameHeader(id: nat): string {
    "Game " + DecimalString(id)
  }

  /** The header holds no ':' and no line-ending character. */
  lemma GameHeaderAvoids(id: nat, c: char)
    requires c == ':' || c == '\n' || c == '\r'
    ensures c !in GameHeader(id)
  {
    DecimalStringAvoids(id, c);
    assert c !in "Game ";
  }

  /** "Game <id>: " and the draws separated by "; ". */
  function GameLine(id: nat, draws: seq<seq<Cube>>): string {
    GameHeader(id) + ": " + Join(DrawTexts(draws), "; ")
  }

  /** The lines of games numbered from `first`. */
  function GameLines(games: seq<seq<seq<Cube>>>, first: nat): (lines: seq<string>)
    ensures |lines| == |games| && forall i :: 0 <= i < |games| ==> lines[i] == GameLine(first + i, games[i])
  {
    seq(|games|, i requires 0 <= i < |games| => GameLine(first + i, games[i]))
  }

  /** A puzzle input: the games numbered from 1, one per line. */
  function GamesText(games: seq<seq<seq<Cube>>>): string {
    Join(GameLines(games, 1), "\n")
  }

  /** An input as the puzzle writes it: at least one game, every game with
      at least one draw, every draw with at least one item and no colour
      twice, and every count within `u32`. */
  predicate WellFormed(games: seq<seq<seq<Cube>>>) {
    games != [] &&
    forall g :: 0 <= g < |games| ==> games[g] != [] && forall d :: 0 <= d < |games[g]| ==> WellFormedDraw(games[g][d])
  }

  predicate WellFormedDraw(cubes: seq<Cube>) {
    cubes != [] && DistinctColors(cubes) && forall i :: 0 <= i < |cubes| ==> cubes[i].count <= U32_MAX
  }

  /** The draws of a game as the overwriting parsers read them. */
  function ShownDraws(draws: seq<seq<Cube>>): (shown: seq<Draw>)
    ensures |shown| == |draws| && forall i :: 0 <= i < |draws| ==> shown[i] == Overwritten(draws[i])
  {
    seq(|draws|, i requires 0 <= i < |draws| => Overwritten(draws[i]))
  }

  function ShownGames(games: seq<seq<seq<Cube>>>): (shown: seq<seq<Draw>>)
    ensures |shown| == |games| && forall i :: 0 <= i < |games| ==> shown[i] == ShownDraws(games[i])
  {
    seq(|games|, i requires 0 <= i < |games| => ShownDraws(games[i]))
  }

  /** The answers the puzzle asks for, on the games themselves. */
  function Part1Answer(games: seq<seq<seq<Cube>>>): nat {
    PossibleIdSum(Numbered(ShownGames(games)))
  }

  function Part2Answer(games: seq<seq<seq<Cube>>>): nat {
    PowerSum(ShownGames(games))
  }
}
