/** Part 2 of 2023 day 4: a card with n winning numbers wins one copy of
    each of the next n cards, for each copy of it held; the answer is the
    number of cards held at the end, originals included. */
module ScratchcardsPart2 {
  import opened Outcome
  import opened Scratchcards

  /** The number of winning numbers of each card, in order. */
  function Counts(cards: seq<Card>): (counts: seq<nat>)
    ensures |counts| == |cards| && forall i :: 0 <= i < |cards| ==> counts[i] == Count(cards[i])
  {
    seq(|cards|, i requires 0 <= i < |cards| => Count(cards[i]))
  }

  /** The copies of card j held at the end: the original, plus one for each
      copy of every earlier card i whose run of wins i+1..i+counts[i] reaches j. */
  function Copies(counts: seq<nat>, j: nat): nat
    requires j < |counts|
    decreases j, 1
  {
    1 + Contrib(counts, j, j)
  }

  /** The copies of card j won by the cards 0..k-1. */
  function Contrib(counts: seq<nat>, k: nat, j: nat): nat
    requires k <= j < |counts|
    decreases j, 0, k
  {
    if k == 0 then 0
    else Contrib(counts, k - 1, j) + if j <= k - 1 + counts[k - 1] then Copies(counts, k - 1) else 0
  }

  /** A card whose run of wins passes the last card: `multiplier[i]` is
      then out of bounds. */
  predicate Overruns(counts: seq<nat>) {
    exists i :: 0 <= i < |counts| && i + counts[i] >= |counts|
  }

  function SumNat(s: seq<nat>): nat {
    if s == [] then 0 else s[0] + SumNat(s[1..])
  }

  function AllCopies(counts: seq<nat>): (cs: seq<nat>)
    ensures |cs| == |counts| && forall j :: 0 <= j < |counts| ==> cs[j] == Copies(counts, j)
  {
    seq(|counts|, j requires 0 <= j < |counts| => Copies(counts, j))
  }

  /** The total number of cards held at the end. */
  function TotalCopies(counts: seq<nat>): nat {
    SumNat(AllCopies(counts))
  }

  /** Every card is held at least once: the original. */
  lemma {:induction false} SumAtLeastLength(s: seq<nat>)
    requires forall i :: 0 <= i < |s| ==> s[i] >= 1
    ensures SumNat(s) >= |s|
    decreases |s|
  {
    if s != [] {
      SumAtLeastLength(s[1..]);
    }
  }

  lemma TotalCopiesAtLeast(counts: seq<nat>)
    ensures TotalCopies(counts) >= |counts|
  {
    SumAtLeastLength(AllCopies(counts));
  }

  /** Without winning numbers nobody wins copies. */
  lemma {:induction false} ContribOfNoWins(counts: seq<nat>, k: nat, j: nat)
    requires k <= j < |counts|
    requires forall i :: 0 <= i < |counts| ==> counts[i] == 0
    ensures Contrib(counts, k, j) == 0
    decreases k
  {
    if k > 0 {
      ContribOfNoWins(counts, k - 1, j);
    }
  }

  lemma {:induction false} SumOfOnes(s: seq<nat>)
    requires forall i :: 0 <= i < |s| ==> s[i] == 1
    ensures SumNat(s) == |s|
    decreases |s|
  {
    if s != [] {
      SumOfOnes(s[1..]);
    }
  }

  /** With no winning numbers anywhere the pile stays as it is. */
  lemma TotalOfNoWins(counts: seq<nat>)
    requires forall i :: 0 <= i < |counts| ==> counts[i] == 0
    ensures TotalCopies(counts) == |counts|
  {
    forall j | 0 <= j < |counts| ensures Copies(counts, j) == 1 {
      ContribOfNoWins(counts, j, j);
    }
    SumOfOnes(AllCopies(counts));
  }

  /** The copies of a card depend only on the cards up to it: the cards
      after it never matter. */
  lemma {:induction false} CopiesOfPrefix(counts: seq<nat>, m: nat, j: nat)
    requires j < m <= |counts|
    ensures Copies(counts[..m], j) == Copies(counts, j)
    decreases j, 1
  {
    ContribOfPrefix(counts, m, j, j);
  }

  lemma {:induction false} ContribOfPrefix(counts: seq<nat>, m: nat, k: nat, j: nat)
    requires k <= j < m <= |counts|
    ensures Contrib(counts[..m], k, j) == Contrib(counts, k, j)
    decreases j, 0, k
  {
    if k > 0 {
      ContribOfPrefix(counts, m, k - 1, j);
      CopiesOfPrefix(counts, m, k - 1);
    }
  }

  /** The copies of card j held once the cards before k have been played. */
  function Held(counts: seq<nat>, k: nat, j: nat): nat
    requires j < |counts|
  {
    1 + Contrib(counts, if j < k then j else k, j)
  }

  /** Playing card k adds a copy of it to each card of its run. */
  lemma HeldStep(counts: seq<nat>, k: nat, j: nat)
    requires k < |counts| && j < |counts|
    ensures Held(counts, k, k) == Copies(counts, k)
    ensures Held(counts, k + 1, j) == Held(counts, k, j) + if k < j <= k + counts[k] then Copies(counts, k) else 0
  {
  }

  /** The inner loop of `process` for card `index`: each of the next `count`
      multipliers grows by `multiplier[index]`; an index past the last card
      panics (`ok` is false) with the multipliers partly updated. */
  method WinCopies(multiplier: array<nat>, ghost counts: seq<nat>, index: nat, count: nat) returns (ok: bool)
    requires multiplier.Length == |counts| && index < |counts| && count == counts[index]
    requires forall j :: 0 <= j < |counts| ==> multiplier[j] == Held(counts, index, j)
    modifies multiplier
    ensures ok <==> index + count < |counts|
    ensures ok ==> forall j :: 0 <= j < |counts| ==> multiplier[j] == Held(counts, index + 1, j)
  {
    var n := multiplier.Length;
    HeldStep(counts, index, index);
    var i := index + 1;
    while i < index + 1 + count
      invariant index + 1 <= i <= index + 1 + count && i <= n
      invariant multiplier[index] == Copies(counts, index)
      invariant forall j :: 0 <= j < n ==> multiplier[j] == Held(counts, index, j) + if index < j < i then Copies(counts, index) else 0
    {
      if i >= n {
        return false;
      }
      multiplier[i] := multiplier[i] + multiplier[index];
      i := i + 1;
    }
    forall j | 0 <= j < n ensures multiplier[j] == Held(counts, index + 1, j) {
      HeldStep(counts, index, j);
    }
    return true;
  }

  /** The multiplier loop of `process` over the parsed cards. */
  method TotalCards(cards: seq<Card>) returns (r: Result<int>)
    ensures r.Panic? <==> Overruns(Counts(cards))
    ensures r.Ok? ==> r.value == TotalCopies(Counts(cards))
  {
    ghost var counts := Counts(cards);
    var n := |cards|;
    var multiplier := new nat[n](_ => 1);
    for index := 0 to n
      invariant forall j :: 0 <= j < n ==> multiplier[j] == Held(counts, index, j)
      invariant forall k :: 0 <= k < index ==> k + counts[k] < n
    {
      var ok := WinCopies(multiplier, counts, index, Count(cards[index]));
      if !ok {
        return Panic;
      }
    }
    assert multiplier[..] == AllCopies(counts);
    r := Ok(SumNat(multiplier[..]));
  }

  /** `process`: read the cards, then play them. */
  method Process(input: string) returns (r: Result<int>)
    ensures r.Panic? <==> CardsOf(input).Panic? || Overruns(Counts(CardsOf(input).value))
    ensures r.Ok? ==> r.value == TotalCopies(Counts(CardsOf(input).value))
  {
    var read := ReadCards(input);
    if read.Panic? {
      return Panic;
    }
    r := TotalCards(read.value);
  }

  /** The sample's cards have 4, 2, 2, 1, 0 and 0 winning numbers. */
  lemma SampleCounts()
    ensures Counts(SampleCards()) == [4, 2, 2, 1, 0, 0]
  {
    var cards := SampleCards();
    var cs := Counts(cards);
    assert cs[0] == 4 by { SampleCount0(); assert cards[0] == SampleCard(0); }
    assert cs[1] == 2 by { SampleCount1(); assert cards[1] == SampleCard(1); }
    assert cs[2] == 2 by { SampleCount2(); assert cards[2] == SampleCard(2); }
    assert cs[3] == 1 by { SampleCount3(); assert cards[3] == SampleCard(3); }
    assert cs[4] == 0 by { SampleCount4(); assert cards[4] == SampleCard(4); }
    assert cs[5] == 0 by { SampleCount5(); assert cards[5] == SampleCard(5); }
  }

  /** The unit test: `process` of the sample's text is 30. */
  method SampleProcess() returns (r: Result<int>)
    ensures r == Ok(30)
  {
    SampleRead();
    SampleTotal();
    r := Process(SampleInput());
  }

  /** No run of wins passes the last card, and the cards end as 1, 2, 4,
      8, 14 and 1 copies: 30 cards. */
  lemma SampleTotal()
    ensures !Overruns(Counts(SampleCards()))
    ensures TotalCopies(Counts(SampleCards())) == 30
  {
    SampleCounts();
    var counts := Counts(SampleCards());
    assert forall i :: 0 <= i < 6 ==> i + counts[i] < 6 by {
      assert counts == [4, 2, 2, 1, 0, 0];
    }
    SampleTotalOfCounts(Counts(SampleCards()));
  }

  lemma SampleTotalOfCounts(counts: seq<nat>)
    requires counts == [4, 2, 2, 1, 0, 0]
    ensures TotalCopies(counts) == 30
  {
    SampleEarlyCopies(counts);
    SampleLateCopies(counts);
    var all := AllCopies(counts);
    assert all == [1, 2, 4, 8, 14, 1];
    SumSample(all);
  }

  lemma SampleEarlyCopies(counts: seq<nat>)
    requires counts == [4, 2, 2, 1, 0, 0]
    ensures Copies(counts, 0) == 1 && Copies(counts, 1) == 2 && Copies(counts, 2) == 4 && Copies(counts, 3) == 8
  {
    assert Contrib(counts, 1, 1) == 1;
    assert Contrib(counts, 1, 2) == 1;
    assert Contrib(counts, 2, 2) == 3;
    assert Contrib(counts, 1, 3) == 1;
    assert Contrib(counts, 2, 3) == 3;
    assert Contrib(counts, 3, 3) == 7;
  }

  lemma SampleLateCopies(counts: seq<nat>)
    requires counts == [4, 2, 2, 1, 0, 0]
    ensures Copies(counts, 4) == 14 && Copies(counts, 5) == 1
  {
    SampleEarlyCopies(counts);
    assert Contrib(counts, 1, 4) == 1;
    assert Contrib(counts, 2, 4) == 1;
    assert Contrib(counts, 3, 4) == 5;
    assert Contrib(counts, 4, 4) == 13;
    assert Contrib(counts, 1, 5) == 0;
    assert Contrib(counts, 2, 5) == 0;
    assert Contrib(counts, 3, 5) == 0;
    assert Contrib(counts, 4, 5) == 0;
    assert Contrib(counts, 5, 5) == 0;
  }

  lemma SumSample(s: seq<nat>)
    requires s == [1, 2, 4, 8, 14, 1]
    ensures SumNat(s) == 30
  {
    assert SumNat(s[5..]) == 1 by { assert s[5..][1..] == []; }
    assert SumNat(s[4..]) == 15 by { assert s[4..][1..] == s[5..]; }
    assert SumNat(s[3..]) == 23 by { assert s[3..][1..] == s[4..]; }
    assert SumNat(s[2..]) == 27 by { assert s[2..][1..] == s[3..]; }
    assert SumNat(s[1..]) == 29 by { assert s[1..][1..] == s[2..]; }
  }
}
