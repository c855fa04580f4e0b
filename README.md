# Advent of Code solvers, 2023 days 1–4 and 2024 day 1

A Dafny model of the solvers in this Advent of Code repository. Each solver
reads a puzzle input as text and returns one number. The model covers these
puzzles:

- **2023 day 1, calibration values.** A line's value is ten times its first
  digit plus its last digit. Part 2 also reads the spelled digits "one" to
  "nine"; spelled digits may overlap, as in "eightwo". There are five
  solvers: part 1 by hand and with nom, in two versions, and part 2 by hand
  and with nom.
- **2023 day 2, cube games.** Each line is "Game N: " and draws separated
  by "; ". Part 1 adds up the ids of the games possible with 12 red,
  13 green and 14 blue cubes. Part 2 adds up the products of each game's
  largest count of each colour. There are six solvers: string splitting
  with arrays, string splitting with a `Draw` struct, and nom, each for
  both parts.
- **2023 day 3, engine schematic.** A grid of text. Each digit run gets a
  recorded footprint of neighbouring cells. Part 1 adds up the runs whose
  footprint holds a symbol. Part 2 adds up, over the gears ('*'), the
  product of the two runs whose footprint holds the gear, when exactly two
  do.
- **2023 day 4, scratchcards.** Part 1 totals 2^(n-1) points per card with
  n matching numbers. Part 2 counts the cards held once every card has won
  copies of the next n cards.
- **2024 day 1, location ids.** Two columns of ids are sorted, then the
  distances between the ids paired in order are added up.

Every `unwrap`, `expect` and `panic!` is modelled as a `Panic` result. So
the contracts state the failure cases as well as the answers.

The pure parts of the source are modelled as datatypes, functions and
lemmas. These include the iterator chains, the nom parsers and the string
helpers of Rust's standard library. The source's loops that update
variables, vectors, hash sets and an array are modelled as methods with
loop invariants. Examples are `parse_schematic`, the gear scan, the card
loops and the 2024 reading and sorting loop. Each method is proved against
a specification function, and the puzzle's own definition is proved about
that function.

## Model

| member | source | states |
|---|---|---|
| Outcome.AllOk | day-4/src/part1.rs:33-49 | A run of steps that each may panic gives all their values, in order, exactly when no step panics. |
| Outcome.CollectOk | day-4/src/part1.rs:33-49 | The push loop that stops at the first failing `unwrap` returns exactly `AllOk` of the steps. |
| Outcome.AllOkPanics | day-4/src/part1.rs:34-35 | One panicking step makes the whole run panic. |
| Text.ParseUnsigned | 2023/day-1/src/part1_nom.rs:13-14 | `parse::<u32>` gives a value within the type's maximum. It fails on the empty string, on a lone '+' and on a '-'. On a string of digits it gives their decimal value exactly when that value fits. |
| Text.ParseSigned | day-4/src/part1.rs:37-44 | `parse::<i64>`/`parse::<i32>` gives a value within the type's range. On a string of digits it gives its decimal value exactly when that value fits. |
| Text.ParseDecimalString | 2023/day-4/src/part2.rs:28-35 | A rendered number parses back as itself when it fits the type, and fails otherwise. |
| Text.Find | 2023/day-3/src/part1.rs:30 | `str::find` reports the first index where the needle occurs, or no index when it occurs nowhere. |
| Text.FindInSuffix | 2023/day-3/src/part1.rs:30 | Searching `line[processed..]` is searching the whole line from `processed`, shifted by `processed`. |
| Text.Split | day-1/src/part1.rs:8 | `str::split` gives at least one piece. The pieces joined by the separator are the input. No piece contains the separator. |
| Text.SplitOfJoin | day-4/src/part1.rs:33 | Pieces without the separator's first character, joined by it, split back into themselves. |
| Text.SplitOnce | day-2/src/part1.rs:25 | `split_once` gives the text before and after the first occurrence of the separator, and fails exactly when there is none. |
| Text.SplitOnceAfter | day-4/src/part1.rs:34-35 | With no separator inside `a`, `a + sep + b` splits once into `a` and `b`. |
| Text.SplitWhitespace | day-4/src/part1.rs:37-44 | `split_whitespace` gives only non-empty words without white space. |
| Text.SplitWhitespaceOfJoin | day-4/src/part1.rs:37-44 | Words joined by single spaces split back into the same words. |
| Text.SplitWhitespaceOfPadded | day-4/src/part1.rs:37-44 | Words joined by single spaces, each after white space of its own, also split back into the same words. |
| Text.Lines | 2023/day-3/src/part1.rs:26 | `str::lines` gives lines that hold no '\n'. |
| Text.LinesOfJoin | 2023/day-3/src/part1.rs:26 | Non-empty lines without line-ending characters, joined by '\n', are read back by `lines`. |
| Nom.Tag | day-2/src/part1_nom.rs:28-34 | `tag(t)` succeeds only when the input is `t` followed by what it returns. |
| Nom.TagMismatch | day-2/src/part1_nom.rs:28-34 | A tag never matches an input that starts with a different character. |
| Nom.Digit1 | 2023/day-1/src/part1_nom.rs:9 | `digit1` fails exactly when the input does not start with a digit. Otherwise it takes the whole leading run of digits. |
| Nom.U32 | day-2/src/part1_nom.rs:36-40 | `complete::u32` fails exactly when there is no leading digit or the leading digits exceed `u32::MAX`. Otherwise it gives the decimal value of the whole leading digit run, leading zeros included, and the text after that run. |
| Nom.LineEnding | day-2/src/part1_nom.rs:71-73 | `line_ending` matches exactly when the input starts with "\n" or "\r\n", and returns what follows that line ending. |
| Nom.Alpha0 | 2023/day-1/src/part1_nom.rs:9 | `alpha0` never fails. It takes exactly the leading run of ASCII letters. |
| Nom.Alphanumeric1 | 2023/day-1/src/part1_nom.rs:24 | `alphanumeric1` fails exactly when the input does not start with a letter or digit. Otherwise it takes the whole leading run of them. |
| Nom.Alphanumeric1Of | 2023/day-1/src/part1_nom.rs:24 | A run of letters and digits followed by something else reads back as itself. |
| Nom.AnyChar | day-1/src/part2_nom.rs:51 | `anychar` fails exactly at the end of the input. Otherwise it consumes exactly one character. |
| Calibration.SpelledIn | day-1/src/part2.rs:29-33 | The index counted from 1 of the first word of `NUMS` that starts the text. It gives none exactly when no word starts it. |
| Calibration.ValueAt | day-1/src/part2.rs:23-34 | A digit at the head is read as its value. In part 1 a value is read exactly when the head is a digit. Every value is at most 9. |
| Calibration.FoundBetweenSplit | day-1/src/part2.rs:10-11 | The values found in a range of positions are those of its two halves, in order. |
| Calibration.SpelledWord | day-1/src/part2.rs:29-33 | When the text starts with the spelled digit v, v is the value read. The words are told apart by their first two letters. |
| Calibration.NotSpelled | day-1/src/part2.rs:29-33 | A text too short for a word, or whose first two letters start none, reads no spelled digit. |
| Calibration.CalibrateBound | day-1/src/part1.rs:10-12 | A calibration value is at most 99. A line with a single value counts it as both first and last, 11 times it. |
| Calibration.LineCalibration | day-1/src/part1.rs:10-12 | A line's value panics exactly when nothing is found in it, and is at most 99 otherwise. |
| Calibration.FirstAndLast | day-1/src/part2.rs:10-11 | With nothing found before position a or after position b, where x and y are found, the line is worth 10x + y. |
| Calibration.Total | day-1/src/part1.rs:14 | The sum over lines panics exactly when some line panics. |
| CalibrationPart1.FirstDigit | day-1/src/part1.rs:10 | `chars().find(is_ascii_digit)` returns only digits. |
| CalibrationPart1.FirstDigitFound | day-1/src/part1.rs:10 | The forward search finds nothing exactly when the suffix has no digit. Otherwise it finds the first digit value of the suffix. |
| CalibrationPart1.LastDigitFound | day-1/src/part1.rs:11 | The reversed search finds nothing exactly when the prefix has no digit. Otherwise it finds the last digit value of the prefix. |
| CalibrationPart1.U8 | day-1/src/part1.rs:10-12 | `u8` arithmetic succeeds exactly within 0..255 and keeps the value. |
| CalibrationPart1.LineValue | day-1/src/part1.rs:9-13 | The closure's `u8` arithmetic never overflows. Its result, or its panic on a line without a digit, is the line's calibration value. |
| CalibrationPart1.Process | day-1/src/part1.rs:4-18 | `process` is the total of the calibration values of the pieces between the '\n's. |
| CalibrationPart2.FindFirstFound | day-1/src/part2.rs:10 | `(i..len).find_map(num)` finds nothing exactly when nothing is found from i on. Otherwise it finds the first value found there. |
| CalibrationPart2.FindLastFound | day-1/src/part2.rs:11 | `(0..j).rev().find_map(num)` finds nothing exactly when nothing is found before j. Otherwise it finds the last value found there. |
| CalibrationPart2.LineValueIsCalibration | day-1/src/part2.rs:9-13 | A line's `first * 10 + last`, or its panic, is its calibration value with spelled digits. |
| CalibrationPart2.Process | day-1/src/part2.rs:4-16 | `process` is the total of the part 2 calibration values of the pieces between the '\n's. |
| CalibrationNom.NomLines | 2023/day-1/src/part1_nom.rs:24-25 | `separated_list1(line_ending, alphanumeric1)` fails exactly when the input does not start with a letter or digit. Otherwise it gives one or more lines of letters and digits. |
| CalibrationNom.MoreLinesStop | day-1/src/part2_nom.rs:13 | The list stops at anything that is neither a line nor a line ending followed by a line, such as a blank line. |
| CalibrationNom.NomLinesOf | day-1/src/part2_nom.rs:12-18 | Lines of letters and digits joined by '\n' read back as themselves, whatever non-line text follows them. |
| CalibrationPart2Nom.WordValueIsSpelled | day-1/src/part2_nom.rs:39-49 | The `alt` of `value(k, tag(word))` reads the same spelled digit as `NUMS`. |
| CalibrationPart2Nom.ToDigit | day-1/src/part2_nom.rs:55 | `to_digit(10)` succeeds exactly on a digit, with its value. |
| CalibrationPart2Nom.Numbers | day-1/src/part2_nom.rs:38-57 | `numbers` fails exactly at the end of the input. Otherwise it consumes exactly one character, so overlapping words are both read. |
| CalibrationPart2Nom.NumbersIsValueAt | day-1/src/part2_nom.rs:38-57 | At every position `numbers` reads the value the puzzle finds there. It tries words before digits, which does not matter since no word starts with a digit. |
| CalibrationPart2Nom.Parser | day-1/src/part2_nom.rs:31-36 | The iterator of `numbers` consumes the whole line, so `finish` succeeds. |
| CalibrationPart2Nom.ParserFound | day-1/src/part2_nom.rs:31-36 | The parser's values are the values found in the line, left to right. |
| CalibrationPart2Nom.ParseLineIsCalibration | day-1/src/part2_nom.rs:20-29 | `parse_line` is the line's part 2 calibration value. It panics exactly when the line has no value. |
| CalibrationPart2Nom.Process | day-1/src/part2_nom.rs:5-18 | `process` panics when no line is read. Otherwise it is the total of the part 2 values of the lines nom reads. |
| CalibrationPart1Nom.ReadDigits | 2023/day-1/src/part1_nom.rs:9 | Both digit readers fail exactly without a leading digit. Otherwise they give a non-empty prefix of digits. |
| CalibrationPart1Nom.Element | 2023/day-1/src/part1_nom.rs:9 | `preceded(alpha0, terminated(digit1, alpha0))` yields non-empty digits and always consumes input. |
| CalibrationPart1Nom.NomParseLine | 2023/day-1/src/part1_nom.rs:8-10 | `many1` of elements yields at least one run. |
| CalibrationPart1Nom.SparseReadsAgree | 2023/day-1/src/part1_nom.rs:9 | Where no two digits are adjacent, `digit1` reads exactly what a one-digit reader reads. |
| CalibrationPart1Nom.NomParseLineRuns | 2023/day-1/src/part1_nom.rs:8-10 | On a line of letters and digits, `nom_parse_line` fails exactly when the line has no digit. Otherwise it reads the line's maximal digit runs, in order, to the end. |
| CalibrationPart1Nom.ManyElementsRead | 2023/day-1/src/part1_nom.rs:9 | From any position where a run starts, the `many1` loop reads every later run and consumes the rest of the line. |
| CalibrationPart1Nom.ParseNomResult | 2023/day-1/src/part1_nom.rs:12-16 | `parse_nom_result` panics on no runs. On runs of digits it is ten times the value of the first run plus the value of the last, a run of several digits counting as one whole number. It panics when that passes `u32::MAX`. |
| CalibrationPart1Nom.ParseNomResultOfDigits | 2023/day-1/src/part1_nom.rs:12-16 | Runs of one digit each give ten times the first digit plus the last. |
| CalibrationPart1Nom.AdjacentDigitsRunTogether | 2023/day-1/src/part1_nom.rs:9-16 | As written, the line "12" reads as the single run "12" and is worth 132, where its calibration value is 12. |
| CalibrationPart1Nom.LineValueOfRuns | 2023/day-1/src/part1_nom.rs:26-29 | On a line of letters and digits, a line's value is that of its readings. As written, that is ten times its first maximal run of digits plus its last. A line without a digit, or a value past `u32::MAX`, panics. |
| CalibrationPart1Nom.OneDigitLineValue | 2023/day-1/src/part1_nom.rs:26-29 | Read one digit at a time, every line of letters and digits is worth its calibration value. |
| CalibrationPart1Nom.SparseLineValue | 2023/day-1/src/part1_nom.rs:26-29 | As written, a line whose digits are never adjacent is worth its calibration value. |
| CalibrationPart1Nom.Process | 2023/day-1/src/part1_nom.rs:18-38 | `process` panics when nom reads no line. Otherwise it is the total over the lines nom reads of each line's value from its readings. As written, each line is worth ten times its first maximal digit run plus its last. |
| CalibrationPart1Nom.OneDigitProcess | 2023/day-1/src/part1_nom.rs:18-38 | Read one digit at a time, `process` is the total of the calibration values of the lines nom reads. |
| CalibrationPart1Nom.SparseProcess | 2023/day-1/src/part1_nom.rs:18-38 | As written, `process` is that total when no line read has two adjacent digits. |
| CalibrationVariants.AllSolversAgree | day-1/src/part2_nom.rs:5-18 | On lines of letters and digits joined by '\n', all five solvers give the puzzle's total. The `digit1` solver does so when no line has two adjacent digits. The nom solvers also ignore whatever trailing text ends the lines. |
| CalibrationVariants.ByHandAgree | day-1/src/part2.rs:4-16 | Both solvers by hand give the puzzle's total on a document without a final '\n'. |
| CalibrationVariants.NomAgree | day-1/src/part2_nom.rs:5-18 | The nom solvers give the puzzle's total of exactly the lines nom reads. |
| CalibrationVariants.TrailingNewline | day-1/src/part1.rs:8 | A final '\n' makes both solvers by hand panic on the empty last piece. The nom solvers still give the total. |
| CalibrationVariants.TrailingPieces | day-1/src/part1.rs:8 | The pieces of a document with a final '\n' are its lines and an empty string. |
| CalibrationSamples.Example1Total | day-1/src/part1.rs:25-30 | The first example document is worth 12 + 38 + 15 + 77 = 142. |
| CalibrationSamples.Example1Processes | 2023/day-1/src/part1_nom.rs:59-64 | `process` of the first example is 142 by hand, with `digit1` and read one digit at a time. |
| CalibrationSamples.Example2Total | day-1/src/part2.rs:41-46 | The second example document is worth 29 + 83 + 13 + 24 + 42 + 14 + 76 = 281. |
| CalibrationSamples.Example2Processes | day-1/src/part2_nom.rs:64-69 | `process` of the second example is 281 by hand and with nom. |
| CalibrationSamples.LineEightwothree | day-1/src/part2.rs:10-11 | "eightwothree" is worth 83: its first value is the spelled eight. |
| CalibrationSamples.LineXtwone3four | day-1/src/part2.rs:10-11 | "xtwone3four" is worth 24. The overlapping "two" and "one" are both read. |
| CalibrationSamples.LineTreb7uchet | day-1/src/part1.rs:10-12 | "treb7uchet" is worth 77: its one digit is both first and last. |
| CalibrationSamples.NomTestPqr3stu8vwx | 2023/day-1/src/part1_nom.rs:49-56 | `nom_parse_line("pqr3stu8vwx")` reads ["3", "8"], and `parse_nom_result` makes 38 of them. |
| CalibrationSamples.NomTestTreb7uchet | 2023/day-1/src/part1_nom.rs:50-56 | `nom_parse_line("treb7uchet")` reads ["7"], and `parse_nom_result` makes 77 of it. |
| Cubes.ColorName | day-2/src/part1.rs:30-34 | Colour names are words of at least three letters. |
| Cubes.SameCounts | day-2/src/part1_struct.rs:40-59 | Draws with the same count of every colour are equal. |
| Cubes.Assign | day-2/src/part1_struct.rs:50-55 | `draw.<colour> = count` sets the item's colour to its count and leaves the others alone. |
| Cubes.Add | day-2/src/part1.rs:28-35 | `acc[colour] += count` adds the count to the item's colour and leaves the others alone. |
| Cubes.AddAllTotals | day-2/src/part1.rs:28-35 | The split readers' fold gives each colour the total of its items. |
| Cubes.AssignAllLast | day-2/src/part1_struct.rs:50-55 | The struct readers' fold gives each colour the count of its last item. |
| Cubes.AssignAllAbsent | day-2/src/part1_struct.rs:40-59 | A colour that no item names keeps its count, 0 from the default. |
| Cubes.SummedIsOverwritten | day-2/src/part1_struct.rs:40-59 | When no colour repeats within a draw, summing and overwriting give the same draw. |
| Cubes.RepeatedColor | day-2/src/part1_struct.rs:50-55 | With a repeated colour the readings differ: "1 red, 2 red" sums to 3 red but overwrites to 2 red. |
| Cubes.Numbered | day-2/src/part1.rs:9-12 | The game on line i, counted from 0, gets the id i + 1. |
| Cubes.PossibleIdSumAppend | day-2/src/part1.rs:14-19 | The sum of possible ids splits over any division of the games. |
| Cubes.PossibleIdSumOne | day-2/src/part1.rs:14-19 | One game adds its id exactly when every draw is valid. |
| Cubes.MaxDrawBounds | 2023/day-2/src/part2.rs:40-45 | The `max` fold bounds each colour of every draw. |
| Cubes.MaxDrawAttained | 2023/day-2/src/part2.rs:40-45 | Each colour of the maximum is that colour of some draw, or 0 when there are no draws. |
| Cubes.MaxDrawLeast | 2023/day-2/src/part2.rs:40-45 | The maximum is below every bound of all the draws. It is the fewest cubes that make the game possible. |
| Cubes.PossibleIffMaxValid | day-2/src/part1_nom.rs:96-98 | A game is possible exactly when its maximum draw is valid. |
| Cubes.GamePowerZero | 2023/day-2/src/part2_struct.rs:30-39 | A game's power is 0 exactly when some colour appears in none of its draws. |
| Cubes.MaxZeroIffAbsent | 2023/day-2/src/part2.rs:40-45 | A colour of the maximum is 0 exactly when no draw shows that colour. |
| Cubes.GameHeaderAvoids | day-2/src/part1.rs:25 | "Game N" holds no ':' and no line-ending character. |
| CubesText.MergedAll | day-2/src/part1.rs:28-35 | The split readers sum the items of a draw and the struct readers overwrite them. |
| CubesText.ColorOfName | day-2/src/part1.rs:30-34 | The colour word names exactly one colour, or none. |
| CubesText.ReadItem | day-2/src/part1.rs:29 | An item without a ' ' panics. |
| CubesText.UnknownColorPanics | day-2/src/part1.rs:34 | An item whose word is not red, green or blue panics, whatever its count. |
| CubesText.CountTooLargePanics | day-2/src/part1_struct.rs:50-55 | A count that does not fit the parsed integer type panics. |
| CubesText.ReadGame | day-2/src/part1.rs:24-27 | A line without ": " panics. |
| CubesText.HeaderIgnored | day-2/src/part1.rs:25 | Only the text after the first ": " matters. The id in the header is never read. |
| CubesText.ReadItemOf | day-2/src/part1.rs:29-35 | A rendered item merges its count into its colour. |
| CubesText.ReadDrawOf | day-2/src/part1_struct.rs:40-59 | A rendered draw reads back as its items, summed or overwritten. |
| CubesText.ReadGameOf | day-2/src/part1.rs:24-41 | A rendered game line reads back as its draws, in order, whatever its id. |
| CubesText.ReadGamesOf | day-2/src/part1.rs:8 | A well-formed rendered input reads back as its games' draws, one game per line. |
| CubesText.Part1 | day-2/src/part1.rs:4-22 | Part 1 panics exactly when reading some line panics. |
| CubesText.Part2 | 2023/day-2/src/part2.rs:6-22 | Part 2 panics exactly when reading some line panics. |
| CubesText.MergedDrawsAgree | day-2/src/part1_struct.rs:40-59 | On well-formed draws, summing and overwriting both give the draws as shown. |
| CubesText.ProcessOf | 2023/day-2/src/part2_struct.rs:5-23 | Both split readers give the puzzle's two answers on every well-formed input. |
| CubesNom.ParseColor | day-2/src/part1_nom.rs:28-34 | `parse_color` succeeds only on a colour name followed by the rest. |
| CubesNom.ParseColorExactly | day-2/src/part1_nom.rs:28-34 | `parse_color` reads colour c with rest r exactly when the input is c's name followed by r. |
| CubesNom.CubeOf | day-2/src/part1_nom.rs:36-40 | `cube` consumes input and gives a count that fits in a `u32`. |
| CubesNom.CubeOfText | day-2/src/part1_nom.rs:36-40 | A rendered item parses back as itself, whatever follows it. |
| CubesNom.ItemThenComma | day-2/src/part1_nom.rs:44 | An item followed by ", " is read with its separator. |
| CubesNom.NoItemAtEnd | day-2/src/part1_nom.rs:42-61 | Nothing that ends a draw starts an item, so the fold stops there. |
| CubesNom.FoldItemsOf | day-2/src/part1_nom.rs:42-61 | The `fold_many1` loop reads the items of a rendered draw in order, overwriting each colour. |
| CubesNom.DrawOfText | day-2/src/part2_nom.rs:35-54 | A rendered draw parses back as its items. A repeated colour keeps its last count. |
| CubesNom.Draws | day-2/src/part1_nom.rs:67 | `separated_list1(tag("; "), draw)` gives one draw or more. |
| CubesNom.DrawsOfText | day-2/src/part1_nom.rs:67 | The draws of a rendered game parse back, in order. |
| CubesNom.GameOf | day-2/src/part1_nom.rs:63-69 | `game` consumes "Game ", a non-empty digit id and ": ", then reads at least one draw. Input that does not start with "Game " fails. |
| CubesNom.GameOfLine | day-2/src/part2_nom.rs:56-62 | A rendered game line parses back as its id's digits and its draws. |
| CubesNom.MoreGamesOf | day-2/src/part1_nom.rs:71-73 | The separator loop reads a line ending and a game for each rendered line. |
| CubesNom.ParseGames | day-2/src/part1_nom.rs:71-73 | `parse` gives at least one game on success. |
| CubesNom.ParseGamesOf | day-2/src/part1_nom.rs:71-73 | A rendered input, with or without a final line ending, parses back as its games numbered from 1. |
| CubesNom.RecordGame | day-2/src/part1_nom.rs:68 | `id.parse::<u32>().unwrap()` succeeds exactly when the id fits. The draws are kept. |
| CubesNom.Part1 | day-2/src/part1_nom.rs:14-26 | Part 1 (nom) panics when no game parses, or when some id does not fit in a `u32`. |
| CubesNom.Part2 | day-2/src/part2_nom.rs:7-19 | Part 2 (nom) panics exactly when no game parses. |
| CubesNom.ProcessOf | day-2/src/part2_nom.rs:7-19 | Both nom solvers give the puzzle's answers on a well-formed input. Part 1 needs the ids to fit in a `u32`. |
| CubeVariants.AllVariantsAgree | day-2/benches/benchmarks.rs:8-53 | On every well-formed input with at most `u32::MAX` games, the six solvers give the puzzle's answers. |
| CubeVariants.ColorSample | day-2/src/part1_nom.rs:107-115 | `parse_color` reads each colour's whole name and leaves nothing. |
| CubeVariants.CubeSample | day-2/src/part1_nom.rs:117-124 | "3 blue" is three blue cubes. |
| CubeVariants.DrawSample | day-2/src/part1_nom.rs:126-132 | The draw "8 green, 6 blue, 20 red" reads as 20 red, 8 green and 6 blue. |
| CubeVariants.Game1Sample | day-2/src/part1_nom.rs:135-143 | Every parser reads game 1 as three draws. The game is possible and has power 48. |
| CubeVariants.Game3Sample | day-2/src/part2_nom.rs:132-140 | Every parser reads game 3 as three draws. The game is impossible (20 red) and has power 1560. |
| CubeVariants.SampleIdSum | day-2/src/part1.rs:59-64 | In the example, games 1, 2 and 5 are possible: 8. |
| CubeVariants.SamplePowerSum | 2023/day-2/src/part2.rs:66-71 | The example's powers are 48, 12, 1560, 630 and 36: 2286. |
| CubeVariants.SampleProcesses | day-2/src/part1_struct.rs:83-88 | All six solvers answer 8 and 2286 on the example. |
| Schematic.SkipNonDigits | 2023/day-3/src/part1.rs:27 | `many0(satisfy(non-digit))` stops at the next digit or the end of the line. |
| Schematic.DigitRunsFrom | 2023/day-3/src/part1.rs:27 | The nom parser's slices lie within the line and are strictly increasing and separated. |
| Schematic.DigitRunsAreMaximalRuns | 2023/day-3/src/part1.rs:27 | On a whole line the parser yields exactly the maximal digit runs, in order. |
| Schematic.LocateRuns | 2023/day-3/src/part1.rs:29-33 | The loop gives each text's first occurrence at or after one past the previous text's column. |
| Schematic.LocateRunsSucceeds | 2023/day-3/src/part1.rs:30 | The `find(..).unwrap()` never panics. Each run is located at or before its own start. |
| Schematic.Columns | 2023/day-3/src/part1.rs:28-33 | The columns recorded for a line are its runs found in order, each at or before the run's start. |
| Schematic.Box | 2023/day-3/src/part1.rs:52-71 | The box is the cells in rows row-1..row+1 and columns col-1..last, without (row, col). |
| Schematic.NewPartNumber | 2023/day-3/src/part1.rs:51-82 | The loop over `1..len` builds the footprint from col-1 to col+len, and the value is the parsed token or 0. |
| Schematic.TokenValueOfDigits | 2023/day-3/src/part1.rs:72-81 | A digit token's value is its decimal value, or 0 when it exceeds `i64::MAX`. |
| Schematic.FootprintSize | 2023/day-3/src/part1.rs:176 | A run of L digits has a footprint of 3L + 5 cells, 14 for three digits. |
| Schematic.FootprintCells | 2023/day-3/src/part1.rs:152-179 | The footprint is exactly the 3-row box minus (row, col), and it holds the run's later digit cells. |
| Schematic.LineParts | 2023/day-3/src/part1.rs:29-33 | A line has one part number per digit run. |
| Schematic.LocateLineParts | 2023/day-3/src/part1.rs:28-33 | The inner loop pushes exactly the line's part numbers, in order. |
| Schematic.LocateTexts | 2023/day-3/src/part1.rs:29-33 | For texts found at the given columns, the loop pushes each text's part number at its column. |
| Schematic.MarkRow | 2023/day-3/src/part2.rs:44-51 | The character scan of a line adds exactly that line's symbol cells and gear cells. |
| Schematic.ParseSchematic | 2023/day-3/src/part2.rs:30-54 | `parse_schematic` collects all part numbers row by row in reading order, and exactly the symbol cells and gear cells of the grid. |
| Schematic.GearsAreSymbols | 2023/day-3/src/part2.rs:44-51 | Every gear is a symbol. The gears are exactly the '*' cells. |
| SchematicPart1.Process | 2023/day-3/src/part1.rs:5-19 | `process` is the sum of the values of the part numbers whose footprint meets the symbol cells. |
| SchematicPart1.SumAppend | 2023/day-3/src/part1.rs:11-16 | The filtered sum splits over a concatenation of part lists. |
| SchematicPart1.SumWithoutSymbols | 2023/day-3/src/part1.rs:90-92 | With no symbol, nothing is counted. |
| SchematicPart1.SumAllNextToSymbol | 2023/day-3/src/part1.rs:11-16 | When every footprint meets a symbol, every value is counted. |
| SchematicPart1.SumMonotone | 2023/day-3/src/part1.rs:11-16 | The answer lies between 0 and the sum of all values, and it grows with the symbol set. |
| SchematicPart1.PartValuesNonNegative | 2023/day-3/src/part1.rs:72-81 | Every part number value is non-negative. |
| SchematicPart1.FootprintIsNeighbourhood | 2023/day-3/src/part1.rs:52-71 | A cell is in the footprint exactly when it touches one of the run's digits, except the first digit's own cell. |
| SchematicPart1.RepeatedRuns | 2023/day-3/src/part1.rs:109 | "467..114..467" has the runs "467", "114" and "467". |
| SchematicPart1.RepeatedRunColumns | 2023/day-3/src/part1.rs:125-129 | Its runs are located at 0, 5 and 10: the repeated text is found at its own column. |
| SchematicPart1.MislocatedRunColumns | 2023/day-3/src/part1.rs:30-32 | In "12.2*" the search for "2" restarts at column 1 and is recorded there, not at column 3. |
| SchematicPart1.MislocatedRunIsMissed | 2023/day-3/src/part1.rs:30-32 | So in "12.2*" the run "2" touches the '*', but its recorded footprint misses it, and the answer is 0. |
| SchematicPart2.Matching | 2023/day-3/src/part2.rs:14-21 | The matches are values of part numbers whose footprint holds the gear. |
| SchematicPart2.MatchingOfExactlyTwo | 2023/day-3/src/part2.rs:22-24 | A gear held by exactly two footprints, i and j, has the ratio value(i) * value(j). |
| SchematicPart2.MatchingOfOne | 2023/day-3/src/part2.rs:14-21 | A gear held by one footprint matches that value alone. |
| SchematicPart2.MatchingOfNone | 2023/day-3/src/part2.rs:14-21 | A gear held by no footprint matches nothing. |
| SchematicPart2.MatchingPrefix | 2023/day-3/src/part2.rs:14-21 | The matches of a prefix of the part list are a prefix of the matches. |
| SchematicPart2.ScanGear | 2023/day-3/src/part2.rs:13-24 | The inner loop, with its early `continue` after a third match, gives the product when exactly two match and 0 otherwise. |
| SchematicPart2.RatioSumRemove | 2023/day-3/src/part2.rs:12 | Any gear can be visited first: the total does not depend on the `HashSet`'s iteration order. |
| SchematicPart2.RatioSumAdd | 2023/day-3/src/part2.rs:22-24 | Adding a gear adds its ratio. |
| SchematicPart2.Process | 2023/day-3/src/part2.rs:5-28 | `process` is the sum of the gear ratios of all gear cells. |
| SchematicPart2.SampleGearRatio | 2023/day-3/src/part2.rs:22-24 | The sample gear next to 467 and 35 has the ratio 16345. |
| SchematicSample.Row0Parts | 2023/day-3/src/part1.rs:109 | Row 0 "467..114.." gives 467 at column 0 and 114 at column 5. |
| SchematicSample.Row2Parts | 2023/day-3/src/part1.rs:111 | Row 2 "..35..633." gives 35 at column 2 and 633 at column 6. |
| SchematicSample.MarksOfRows | 2023/day-3/src/part1.rs:188 | The sample's only symbol, and its only gear, is (1, 3). |
| SchematicSample.SampleValues | 2023/day-3/src/part1.rs:190-193 | The four part numbers are 467, 114, 35 and 633. |
| SchematicSample.SampleSum | 2023/day-3/src/part1.rs:195 | 467 and 35 touch the symbol and 114 and 633 do not: 502. |
| SchematicSample.SampleSchematic | 2023/day-3/src/part1.rs:181-197 | The unit test of part 1: three lines, four part numbers and the one symbol (1, 3), answering 502. The part 2 answer on it is 16345. |
| Scratchcards.Count | day-4/src/part1.rs:11-15 | The matches are at most the size of either set, and 0 exactly when the sets are disjoint. |
| Scratchcards.ParseWords | day-4/src/part1.rs:37-44 | The words parse exactly when each parses as an `i64`, with those values in order. |
| Scratchcards.ParseNumberSet | day-4/src/part1.rs:37-44 | The collected set holds exactly the parsed numbers, and parsing fails exactly when a word does. |
| Scratchcards.ParseCard | day-4/src/part1.rs:34-35 | A line without ": ", or without the vertical-bar separator after it, panics. |
| Scratchcards.ParseCards | day-4/src/part1.rs:33-49 | The cards parse exactly when every line does, each to its card, in order. |
| Scratchcards.ReadCards | day-4/src/part1.rs:33-49 | The parsing loop pushes the cards of the '\n'-separated pieces in order, and panics at the first bad line. |
| Scratchcards.ParseNumberList | day-4/src/part1.rs:37-44 | Numbers in the `i64` range, printed as the puzzle prints them, read back as their set. Each number is right-aligned in two columns, and single spaces separate them. |
| Scratchcards.ParseCardLine | day-4/src/part1.rs:34-48 | A card line printed as the puzzle prints it parses back into its two number sets, whatever its header without ':'. |
| Scratchcards.SampleRead | day-4/src/part1.rs:59-64 | The sample's six card lines, joined by '\n', read as the six sample cards. |
| ScratchcardsPart1.Score | day-4/src/part1.rs:17-24 | A card scores 0 exactly when nothing matches, and at most 2 to the size of either set. |
| ScratchcardsPart1.ScoreDoubles | day-4/src/part1.rs:17-24 | The first match is worth 1, and every further match doubles the score. |
| ScratchcardsPart1.TotalScoreAppend | day-4/src/part1.rs:50 | The total splits over any division of the pile. |
| ScratchcardsPart1.TotalScoreZero | day-4/src/part1.rs:50 | The total is 0 exactly when no card has a match. |
| ScratchcardsPart1.TotalScoreBounds | day-4/src/part1.rs:50 | Every card's score is at most the total. |
| ScratchcardsPart1.Process | day-4/src/part1.rs:27-52 | `process` panics exactly when the cards do not parse. Otherwise it is the total score. |
| ScratchcardsPart1.SampleTotal | day-4/src/part1.rs:59-64 | The sample's cards score 8, 2, 2, 1, 0 and 0: 13. |
| ScratchcardsPart1.SampleProcess | day-4/src/part1.rs:59-64 | `process` of the sample's text is 13, as the unit test asserts. |
| ScratchcardsPart2.Counts | 2023/day-4/src/part2.rs:44 | Each card's count of matches, in order. |
| ScratchcardsPart2.TotalCopiesAtLeast | 2023/day-4/src/part2.rs:41 | Every card is held at least once, so the total is at least the number of cards. |
| ScratchcardsPart2.TotalOfNoWins | 2023/day-4/src/part2.rs:43-48 | With no matches anywhere the pile stays as it is. |
| ScratchcardsPart2.CopiesOfPrefix | 2023/day-4/src/part2.rs:43-48 | The copies of a card depend only on the cards up to it. |
| ScratchcardsPart2.HeldStep | 2023/day-4/src/part2.rs:45-47 | Once the earlier cards are played, card k is held its final number of times. Playing it adds that many copies to each card of its run. |
| ScratchcardsPart2.WinCopies | 2023/day-4/src/part2.rs:45-47 | The inner loop runs without panicking exactly when the run stays within the pile, and then leaves card k played. |
| ScratchcardsPart2.TotalCards | 2023/day-4/src/part2.rs:41-49 | The multiplier loop panics exactly when some card's run passes the last card. Otherwise it gives the total number of copies. |
| ScratchcardsPart2.Process | 2023/day-4/src/part2.rs:18-51 | `process` panics exactly when the cards do not parse or a run overruns. Otherwise it gives the total number of copies. |
| ScratchcardsPart2.SampleTotal | 2023/day-4/src/part2.rs:58-63 | In the sample no run overruns. The cards end as 1, 2, 4, 8, 14 and 1 copies: 30. |
| ScratchcardsPart2.SampleProcess | 2023/day-4/src/part2.rs:58-63 | `process` of the sample's text is 30, as the unit test asserts. |
| LocationIds.ParsePair | 2024/day-1/src/part1_nom.rs:9-15 | A line panics with fewer than two words. Otherwise its two ids lie in the `i32` range. |
| LocationIds.ParsePairOfLine | 2024/day-1/src/part1_nom.rs:9-15 | A line of two rendered ids in the `i32` range, with any white space between them, reads back as the pair. |
| LocationIds.Columns | 2024/day-1/src/part1_nom.rs:8-16 | The columns exist exactly when every line parses. Line i gives left[i] and right[i]. |
| LocationIds.ReadColumns | 2024/day-1/src/part1_nom.rs:8-16 | The reading loop pushes exactly the columns of the lines. |
| LocationIds.PushPairs | 2024/day-1/src/part1_nom.rs:10-15 | The push loop unzips the parsed pairs, stopping at the first panic. |
| LocationIds.Sort | 2024/day-1/src/part1_nom.rs:18-19 | Sorting in place leaves the array ascending and a permutation of what it held. |
| LocationIds.SiftDown | 2024/day-1/src/part1_nom.rs:18-19 | One insertion step extends the sorted prefix and keeps the multiset. |
| LocationIds.SortedOf | 2024/day-1/src/part1_nom.rs:18-19 | The reference sort is a permutation of its input. |
| LocationIds.SortedOfSorted | 2024/day-1/src/part1_nom.rs:18-19 | The reference sort is ascending. |
| LocationIds.SortedUnique | 2024/day-1/src/part1_nom.rs:18-19 | A multiset has only one ascending order, so any sort gives the reference result. |
| LocationIds.SortAndMeasure | 2024/day-1/src/part1_nom.rs:18-23 | Sorting both columns in place and summing `abs_diff` over the zipped pairs gives the distance of the sorted columns. |
| LocationIds.Process | 2024/day-1/src/part1_nom.rs:4-26 | `process` panics exactly when some line does not parse. Otherwise it gives the total distance of the sorted columns. |
| LocationIds.DistanceZero | 2024/day-1/src/part1_nom.rs:21-23 | Lists of the same length are at distance 0 exactly when they are equal. |
| LocationIds.ZeroIffSameIds | 2024/day-1/src/part1_nom.rs:18-23 | Columns of the same length are at distance 0 exactly when they hold the same ids the same number of times. |
| LocationIds.OrderIndependent | 2024/day-1/src/part1_nom.rs:8-23 | Shuffling the lines changes neither whether the run panics nor the answer. |
| LocationIds.SortedOfPermutation | 2024/day-1/src/part1_nom.rs:18-19 | Permuted columns sort to the same order. |
| LocationIds.SampleDistance | 2024/day-1/src/part1_nom.rs:33-38 | The puzzle's sample columns, in any order, pair up at distances 2, 1, 0, 1, 2 and 5: 11. |
| LocationIds.SampleColumns | 2024/day-1/src/part1_nom.rs:33-38 | The sample's six lines, each two ids three spaces apart, joined by '\n', read as the columns 3, 4, 2, 1, 3, 3 and 4, 3, 5, 3, 9, 3. |
| LocationIds.SampleProcess | 2024/day-1/src/part1_nom.rs:33-38 | `process` of the sample's text is 11, as the unit test asserts. |

## Left out

- The `bin` entry points, `miette` error wrapping, `tracing` and the final
  `to_string` are not modelled. Each `process` returns the number itself.
- The example text files read by the unit tests (`example1.txt` and the
  others) are not part of this model. Each example is written out as its
  lines joined by '\n', as the puzzle statement prints them.
- The benchmark harness is not modelled. The six solvers the benchmarks
  time are proved to agree (`AllVariantsAgree`).
- Sums, products and `+=` are unbounded integers. The `u32`, `usize` and
  `i64` overflows of these sums, of the part 2 multipliers of 2023 day 4
  and of the day 3 gear products are not modelled. The exceptions are the
  `u8` steps of day 1 part 1 and the `u32` `first * 10 + last` of the
  part 1 nom solver, which are modelled.
- ScratchcardsPart1.Score: `1 << (count - 1)` is modelled as 2^(count-1).
  Cards with 64 or more matches are not modelled: 64 matches shift by 63
  and give `i64::MIN`, and more matches overflow the shift.
- Text is ASCII. Non-ASCII characters, UTF-8 byte indexing of
  `line[processed..]` and Unicode white space are not modelled.
- SchematicPart2.Process: the gears are visited in an unspecified order, as
  `HashSet` iteration is. The total is proved not to depend on it.
- LocationIds.Sort: `slice::sort` is modelled by an insertion sort. Any
  sort gives the same result, since the ascending order of a multiset is
  unique (`SortedUnique`).
- nom's error values, and which alternative reports them, are not
  modelled. A parser that fails returns `None`, and the combinators recover
  or propagate as `many1`, `fold_many1` and `separated_list1` do. Their
  infinite-loop guards never fire on these parsers, because every element
  parser consumes input; they are left out.
- CubesNom.Part1: the `id.parse::<u32>().unwrap()` inside `game` is
  modelled after the whole input is parsed. This panics on the same inputs,
  but it does not model which game's id panics first.
- CubeVariants.DrawSample: the draw text of the source's unit test
  (day-2/src/part1_nom.rs:126-132) is produced by rendering the draw's
  items rather than written as a literal.
- The 10-line example of 2023 day 3 (answers 4361 and 467835) and the
  partial-input tests of `2023/day-3/src/part1.rs` (lines 199-284) read
  larger grids. They are not modelled; the three-line unit test is.
- Of the day 3 unit tests, only the cases "467..114..467", "...*......"
  and "..35..633." of `nom_test` are modelled. The other cases of
  `nom_test` and `test_get_symbols` are not; `ParseSchematic` states the
  symbol cells of every grid.
- day-5/src/bin/part2.rs and the other `bin` files are not part of this
  model.

## Findings

| source | as written | input that shows it | evidently intended | confidence | as-written member | corrected member |
|---|---|---|---|---|---|---|
| 2023/day-1/src/part1_nom.rs:9-16 | Each element reads a whole run of adjacent digits with `digit1`. `parse_nom_result` then parses the first and last runs as numbers. | The line "12" is read as the run "12" and is worth 12 * 10 + 12 = 132. | The first digit times ten plus the last digit: 12. The other part 1 solver gives that. | medium, not executed | CalibrationPart1Nom.AdjacentDigitsRunTogether | CalibrationPart1Nom.OneDigitLineValue |
