/** Part 1 of 2023 day 4: a card with n > 0 winning numbers among its
    chosen numbers is worth 2^(n-1) points; the answer is the total. */
module ScratchcardsPart1 {
  import opened Outcome
  import opened Text
  import opened Scratchcards

  function Pow2(n: nat): (p: nat)
    ensures p >= 1
  {
    if n == 0 then 1 else 2 * Pow2(n - 1)
  }

  lemma {:induction false} Pow2Monotone(m: nat, n: nat)
    requires m <= n
    ensures Pow2(m) <= Pow2(n)
    decreases n
  {
    if m < n {
      Pow2Monotone(m, n - 1);
    }
  }

  /** `Card::score`: the first match is worth one point and every further
      match doubles it. */
  function Score(card: Card): (s: nat)
    ensures s == 0 <==> card.winning !! card.chosen
    ensures s <= Pow2(|card.winning|) && s <= Pow2(|card.chosen|)
  {
    var n := Count(card);
    if n > 0 then
      Pow2Monotone(n - 1, |card.winning|);
      Pow2Monotone(n - 1, |card.chosen|);
      Pow2(n - 1)
    else 0
  }

  /** One more match doubles the score of a winning card. */
  lemma ScoreDoubles(a: Card, b: Card)
    requires Count(a) == Count(b) + 1
    ensures Score(a) == if Count(b) == 0 then 1 else 2 * Score(b)
  {
  }

  /** The sum of the scores, `cards.iter().map(Card::score).sum()`. */
  function TotalScore(cards: seq<Card>): nat {
    if cards == [] then 0 else Score(cards[0]) + TotalScore(cards[1..])
  }

  /** The total splits over any division of the pile. */
  lemma {:induction false} TotalScoreAppend(a: seq<Card>, b: seq<Card>)
    ensures TotalScore(a + b) == TotalScore(a) + TotalScore(b)
    decreases |a|
  {
    if a == [] {
      assert a + b == b;
    } else {
      assert (a + b)[0] == a[0];
      assert (a + b)[1..] == a[1..] + b;
      TotalScoreAppend(a[1..], b);
    }
  }

  /** The total is zero exactly when no card has a winning number. */
  lemma {:induction false} TotalScoreZero(cards: seq<Card>)
    ensures TotalScore(cards) == 0 <==> forall i :: 0 <= i < |cards| ==> cards[i].winning !! cards[i].chosen
    decreases |cards|
  {
    if cards != [] {
      TotalScoreZero(cards[1..]);
      assert forall i :: 1 <= i < |cards| ==> cards[i] == cards[1..][i - 1];
    }
  }

  /** Every card scores at least as much as any part of the pile above it. */
  lemma {:induction false} TotalScoreBounds(cards: seq<Card>, i: nat)
    requires i < |cards|
    ensures Score(cards[i]) <= TotalScore(cards)
    decreases i
  {
    if i > 0 {
      TotalScoreBounds(cards[1..], i - 1);
    }
  }

  /** `process`: read the cards, panicking like the parsing loop does, and
      add up their scores. */
  method Process(input: string) returns (r: Result<int>)
    ensures r.Panic? <==> CardsOf(input).Panic?
    ensures r.Ok? ==> r.value == TotalScore(CardsOf(input).value)
  {
    var cards := ReadCards(input);
    if cards.Panic? {
      return Panic;
    }
    r := Ok(TotalScore(cards.value));
  }

  /** The unit test: `process` of the sample's text is 13. */
  method SampleProcess() returns (r: Result<int>)
    ensures r == Ok(13)
  {
    SampleRead();
    SampleTotal();
    r := Process(SampleInput());
  }

  /** The sample's cards score 8, 2, 2, 1, 0 and 0: 13 points in all. */
  lemma SampleTotal()
    ensures TotalScore(SampleCards()) == 13
  {
    var cs := SampleCards();
    SampleCount0();
    SampleCount1();
    SampleCount2();
    SampleCount3();
    SampleCount4();
    SampleCount5();
    assert Pow2(3) == 8;
    assert cs[5..] == [cs[5]] && cs[5..][1..] == [];
    assert TotalScore(cs[5..]) == 0;
    assert TotalScore(cs[4..]) == 0 by { assert cs[4..][1..] == cs[5..]; }
    assert TotalScore(cs[3..]) == 1 by { assert cs[3..][1..] == cs[4..]; }
    assert TotalScore(cs[2..]) == 3 by { assert cs[2..][1..] == cs[3..]; }
    assert TotalScore(cs[1..]) == 5 by { assert cs[1..][1..] == cs[2..]; }
  }
}
