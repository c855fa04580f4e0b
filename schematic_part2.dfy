/** Part 2 of 2023 day 3: for every gear ('*') whose cell lies in the recorded
    footprint of exactly two part numbers, the product of their values; the
    answer is the sum over all gears. */
module SchematicPart2 {
  import opened Text
  import opened Schematic

  /** The values of the part numbers whose footprint holds the gear, in order. */
  function Matching(parts: seq<PartNumber>, gear: Cell): (m: seq<int>)
    ensures |m| <= |parts|
    ensures forall x :: x in m ==> exists i :: 0 <= i < |parts| && gear in parts[i].adj && parts[i].value == x
  {
    if parts == [] then []
    else
      var init := parts[..|parts| - 1];
      var last := parts[|parts| - 1];
      var m := Matching(init, gear) + if gear in last.adj then [last.value] else [];
      assert forall x :: x in Matching(init, gear) ==> exists i :: 0 <= i < |parts| && gear in parts[i].adj && parts[i].value == x by {
        forall x | x in Matching(init, gear)
          ensures exists i :: 0 <= i < |parts| && gear in parts[i].adj && parts[i].value == x
        {
          var i :| 0 <= i < |init| && gear in init[i].adj && init[i].value == x;
          assert parts[i] == init[i];
        }
      }
      m
  }

  /** The gear ratio: the product of the two matching values when there are
      exactly two, and nothing otherwise. */
  function GearRatio(parts: seq<PartNumber>, gear: Cell): int {
    var m := Matching(parts, gear);
    if |m| == 2 then m[0] * m[1] else 0
  }

  /** The sum of the gear ratios of a set of gears; the order in which a set
      is visited does not matter (`RatioSumRemove`). */
  ghost function RatioSum(parts: seq<PartNumber>, gears: set<Cell>): int
    decreases gears
  {
    if gears == {} then 0
    else
      var g :| g in gears;
      GearRatio(parts, g) + RatioSum(parts, gears - {g})
  }

  /** Any gear can be taken out first. */
  lemma {:induction false} RatioSumRemove(parts: seq<PartNumber>, gears: set<Cell>, g: Cell)
    requires g in gears
    ensures RatioSum(parts, gears) == GearRatio(parts, g) + RatioSum(parts, gears - {g})
    decreases gears
  {
    var h :| h in gears && RatioSum(parts, gears) == GearRatio(parts, h) + RatioSum(parts, gears - {h});
    if h != g {
      RatioSumRemove(parts, gears - {h}, g);
      RatioSumRemove(parts, gears - {g}, h);
      assert gears - {h} - {g} == gears - {g} - {h};
    }
  }

  /** Adding a gear adds its ratio. */
  lemma RatioSumAdd(parts: seq<PartNumber>, gears: set<Cell>, g: Cell)
    requires g !in gears
    ensures RatioSum(parts, gears + {g}) == RatioSum(parts, gears) + GearRatio(parts, g)
  {
    RatioSumRemove(parts, gears + {g}, g);
    assert gears + {g} - {g} == gears;
  }

  /** The matches of a prefix are a prefix of the matches. */
  lemma {:induction false} MatchingPrefix(parts: seq<PartNumber>, gear: Cell, k: nat)
    requires k <= |parts|
    ensures |Matching(parts[..k], gear)| <= |Matching(parts, gear)|
    ensures Matching(parts[..k], gear) == Matching(parts, gear)[..|Matching(parts[..k], gear)|]
    decreases |parts| - k
  {
    if k == |parts| {
      assert parts[..k] == parts;
    } else {
      MatchingPrefix(parts, gear, k + 1);
      assert parts[..k + 1][..k] == parts[..k];
    }
  }

  /** A gear held by exactly the footprints of parts i < j has the ratio
      parts[i].value * parts[j].value. */
  lemma {:induction false} MatchingOfExactlyTwo(parts: seq<PartNumber>, gear: Cell, i: nat, j: nat)
    requires i < j < |parts|
    requires gear in parts[i].adj && gear in parts[j].adj
    requires forall k :: 0 <= k < |parts| && k != i && k != j ==> gear !in parts[k].adj
    ensures Matching(parts, gear) == [parts[i].value, parts[j].value]
    ensures GearRatio(parts, gear) == parts[i].value * parts[j].value
    decreases |parts|
  {
    var init := parts[..|parts| - 1];
    if j < |parts| - 1 {
      MatchingOfExactlyTwo(init, gear, i, j);
    } else {
      MatchingOfOne(init, gear, i);
    }
  }

  lemma {:induction false} MatchingOfOne(parts: seq<PartNumber>, gear: Cell, i: nat)
    requires i < |parts|
    requires gear in parts[i].adj
    requires forall k :: 0 <= k < |parts| && k != i ==> gear !in parts[k].adj
    ensures Matching(parts, gear) == [parts[i].value]
    decreases |parts|
  {
    var init := parts[..|parts| - 1];
    if i < |parts| - 1 {
      MatchingOfOne(init, gear, i);
    } else {
      MatchingOfNone(init, gear);
    }
  }

  lemma {:induction false} MatchingOfNone(parts: seq<PartNumber>, gear: Cell)
    requires forall k :: 0 <= k < |parts| ==> gear !in parts[k].adj
    ensures Matching(parts, gear) == []
    decreases |parts|
  {
    if parts != [] {
      MatchingOfNone(parts[..|parts| - 1], gear);
    }
  }

  /** The inner loop of `process` for one gear: scan the part numbers in
      order collecting the values of those whose footprint holds the gear,
      abandoning the gear at a third match; exactly two matches give their
      product. */
  method ScanGear(parts: seq<PartNumber>, gear: Cell) returns (ratio: int)
    ensures ratio == GearRatio(parts, gear)
  {
    var matches: seq<int> := [];
    var k := 0;
    while k < |parts|
      invariant 0 <= k <= |parts|
      invariant matches == Matching(parts[..k], gear) && |matches| <= 2
    {
      assert parts[..k + 1][..k] == parts[..k];
      if gear in parts[k].adj {
        if |matches| == 2 {
          MatchingPrefix(parts, gear, k + 1);
          return 0;
        }
        matches := matches + [parts[k].value];
      }
      k := k + 1;
    }
    assert parts[..k] == parts;
    ratio := if |matches| == 2 then matches[0] * matches[1] else 0;
  }

  /** `process`: the gear ratios of all gears, visited in any order. */
  method Process(input: string) returns (total: int)
    ensures total == RatioSum(PartNumbersOf(Lines(input)), MarkedCells(Lines(input), GearCell))
  {
    var es := ParseSchematic(input);
    var parts := es.partNumbers;
    total := 0;
    var remaining := es.gears;
    ghost var done: set<Cell> := {};
    while remaining != {}
      invariant remaining !! done && remaining + done == es.gears
      invariant total == RatioSum(parts, done)
      decreases remaining
    {
      var gear :| gear in remaining;
      var ratio := ScanGear(parts, gear);
      RatioSumAdd(parts, done, gear);
      total := total + ratio;
      remaining := remaining - {gear};
      done := done + {gear};
    }
    assert done == es.gears;
  }

  /** A gear next to 467 (row 0) and 35 (row 2) of the puzzle's sample, and to
      no other part number, has the ratio 16345. */
  lemma SampleGearRatio()
    ensures GearRatio([PartOf(0, 0, "467"), PartOf(0, 5, "114"), PartOf(2, 2, "35"), PartOf(2, 6, "633")], (1, 3)) == 16345
  {
    SampleGearRatioOf([PartOf(0, 0, "467"), PartOf(0, 5, "114"), PartOf(2, 2, "35"), PartOf(2, 6, "633")]);
  }

  lemma SampleGearRatioOf(parts: seq<PartNumber>)
    requires parts == [PartOf(0, 0, "467"), PartOf(0, 5, "114"), PartOf(2, 2, "35"), PartOf(2, 6, "633")]
    ensures GearRatio(parts, (1, 3)) == 16345
  {
    FootprintCells(0, 0, 3);
    FootprintCells(0, 5, 3);
    FootprintCells(2, 2, 2);
    FootprintCells(2, 6, 3);
    assert (1, 3) in parts[0].adj && (1, 3) in parts[2].adj;
    assert (1, 3) !in parts[1].adj && (1, 3) !in parts[3].adj;
    TokenValue467(parts[0].value, "467");
    TokenValue35(parts[2].value, "35");
    MatchingOfExactlyTwo(parts, (1, 3), 0, 2);
  }

  lemma TokenValue467(v: int, t: string)
    requires t == "467" && v == TokenValue(t)
    ensures v == 467
  {
    assert t[..2] == "46" && t[..2][..1] == "4" && t[..2][..1][..0] == "";
    assert DecimalValue(t[..2][..1]) == 4;
    assert DecimalValue(t[..2]) == 46;
    assert DecimalValue(t) == 467;
    TokenValueOfDigits(t);
  }

  lemma TokenValue35(v: int, t: string)
    requires t == "35" && v == TokenValue(t)
    ensures v == 35
  {
    assert t[..1] == "3" && t[..1][..0] == "";
    assert DecimalValue(t[..1]) == 3;
    assert DecimalValue(t) == 35;
    TokenValueOfDigits(t);
  }
}
