/** 2024 day 1, part 1: two columns of location ids are read line by line,
    each column is sorted in place, and the answer is the total distance
    between the i-th smallest ids of the two columns. */
module LocationIds {
  import opened Outcome
  import opened Text
  import opened Seqs

  /* ---------------------------------------------------------------------
     Reading the columns
     --------------------------------------------------------------------- */

  /** One line: its first two white-space separated words, each parsed as
      an `i32`; a missing word or a bad number panics, later words are
      never looked at. */
  function ParsePair(line: string): (r: Result<(int, int)>)
    ensures r.Ok? ==> -(I32_MAX + 1) <= r.value.0 <= I32_MAX && -(I32_MAX + 1) <= r.value.1 <= I32_MAX
    ensures |SplitWhitespace(line)| < 2 ==> r.Panic?
  {
    var items := SplitWhitespace(line);
    if |items| < 1 then Panic
    else
      match ParseSigned(items[0], I32_MAX)
      case None => Panic
      case Some(l) =>
        if |items| < 2 then Panic
        else
          match ParseSigned(items[1], I32_MAX)
          case None => Panic
          case Some(r) => Ok((l, r))
  }

  function PairResults(lines: seq<string>): (rs: seq<Result<(int, int)>>)
    ensures |rs| == |lines| && forall i :: 0 <= i < |lines| ==> rs[i] == ParsePair(lines[i])
  {
    seq(|lines|, i requires 0 <= i < |lines| => ParsePair(lines[i]))
  }

  function Unzip<A, B>(ps: seq<(A, B)>): (r: (seq<A>, seq<B>))
    ensures |r.0| == |ps| == |r.1|
    ensures forall i :: 0 <= i < |ps| ==> ps[i] == (r.0[i], r.1[i])
  {
    (seq(|ps|, i requires 0 <= i < |ps| => ps[i].0), seq(|ps|, i requires 0 <= i < |ps| => ps[i].1))
  }

  /** The two columns of the parsed lines, unless one of them panics. */
  function UnzipAll<A, B>(rs: seq<Result<(A, B)>>): (r: Result<(seq<A>, seq<B>)>)
    ensures r.Ok? <==> forall i :: 0 <= i < |rs| ==> rs[i].Ok?
    ensures r.Ok? ==> |r.value.0| == |rs| == |r.value.1| && forall i :: 0 <= i < |rs| ==> rs[i] == Ok((r.value.0[i], r.value.1[i]))
  {
    match AllOk(rs)
    case Panic => Panic
    case Ok(ps) => Ok(Unzip(ps))
  }

  /** The two columns of the input: line i gives left[i] and right[i]. */
  function Columns(lines: seq<string>): (r: Result<(seq<int>, seq<int>)>)
    ensures r.Ok? <==> forall i :: 0 <= i < |lines| ==> ParsePair(lines[i]).Ok?
    ensures r.Ok? ==> |r.value.0| == |lines| == |r.value.1|
    ensures r.Ok? ==> forall i :: 0 <= i < |lines| ==> ParsePair(lines[i]) == Ok((r.value.0[i], r.value.1[i]))
  {
    UnzipAll(PairResults(lines))
  }

  /** The reading loop of `process`: for each line, push its two ids onto
      `left` and `right`. */
  method ReadColumns(input: string) returns (r: Result<(seq<int>, seq<int>)>)
    ensures r == Columns(Lines(input))
  {
    r := PushPairs(PairResults(Lines(input)));
  }

  method PushPairs<A, B>(rs: seq<Result<(A, B)>>) returns (r: Result<(seq<A>, seq<B>)>)
    ensures r == UnzipAll(rs)
  {
    var left: seq<A> := [];
    var right: seq<B> := [];
    var k := 0;
    while k < |rs|
      invariant 0 <= k <= |rs| && |left| == k && |right| == k
      invariant forall i :: 0 <= i < k ==> rs[i] == Ok((left[i], right[i]))
    {
      if rs[k].Panic? {
        assert !UnzipAll(rs).Ok?;
        return Panic;
      }
      left := left + [rs[k].value.0];
      right := right + [rs[k].value.1];
      k := k + 1;
    }
    var all := UnzipAll(rs);
    assert all.value.0 == left && all.value.1 == right;
    r := Ok((left, right));
  }

  /* ---------------------------------------------------------------------
     Sorting
     --------------------------------------------------------------------- */

  predicate Sorted(s: seq<int>) {
    forall p, q :: 0 <= p < q < |s| ==> s[p] <= s[q]
  }

  /** `slice::sort` on the ids: insertion sort, moving each element down
      past the larger ones before it. */
  method Sort(a: array<int>)
    modifies a
    ensures Sorted(a[..]) && multiset(a[..]) == multiset(old(a[..]))
  {
    for i := 0 to a.Length
      invariant Sorted(a[..i]) && multiset(a[..]) == multiset(old(a[..]))
    {
      SiftDown(a, i);
    }
    assert a[..a.Length] == a[..];
  }

  /** Move a[i] down into the sorted prefix a[..i]. */
  method SiftDown(a: array<int>, i: nat)
    requires i < a.Length && Sorted(a[..i])
    modifies a
    ensures Sorted(a[..i + 1]) && multiset(a[..]) == multiset(old(a[..]))
  {
    var j := i;
    while j > 0 && a[j - 1] > a[j]
      invariant 0 <= j <= i
      invariant multiset(a[..]) == multiset(old(a[..]))
      invariant forall p, q :: 0 <= p < q <= i && p != j && q != j ==> a[p] <= a[q]
      invariant forall q :: j < q <= i ==> a[j] <= a[q]
    {
      Swap(a, j - 1, j);
      j := j - 1;
    }
  }

  method Swap(a: array<int>, p: nat, q: nat)
    requires p < q < a.Length
    modifies a
    ensures a[..] == old(a[..])[p := old(a[q])][q := old(a[p])]
    ensures multiset(a[..]) == multiset(old(a[..]))
  {
    a[p], a[q] := a[q], a[p];
  }

  /* ---------------------------------------------------------------------
     The sorted order, as a function
     --------------------------------------------------------------------- */

  /** x placed into a sorted sequence before the first larger element. */
  function Insert(x: int, s: seq<int>): (r: seq<int>)
    ensures multiset(r) == multiset(s) + multiset{x}
  {
    if s == [] || x <= s[0] then [x] + s
    else
      assert s == [s[0]] + s[1..];
      [s[0]] + Insert(x, s[1..])
  }

  lemma {:induction false} InsertSorted(x: int, s: seq<int>)
    requires Sorted(s)
    ensures Sorted(Insert(x, s))
    decreases |s|
  {
    if s != [] && x > s[0] {
      InsertSorted(x, s[1..]);
      var rest := Insert(x, s[1..]);
      forall i | 0 <= i < |rest| ensures s[0] <= rest[i] {
        assert rest[i] in multiset(rest);
        assert rest[i] == x || rest[i] in multiset(s[1..]);
        if rest[i] != x {
          var k :| 0 <= k < |s[1..]| && s[1..][k] == rest[i];
          assert s[k + 1] == rest[i];
        }
      }
    }
  }

  /** The ids of a column in ascending order. */
  function SortedOf(s: seq<int>): (r: seq<int>)
    ensures multiset(r) == multiset(s)
  {
    if s == [] then []
    else
      assert s == [s[0]] + s[1..];
      Insert(s[0], SortedOf(s[1..]))
  }

  lemma {:induction false} SortedOfSorted(s: seq<int>)
    ensures Sorted(SortedOf(s))
    decreases |s|
  {
    if s != [] {
      SortedOfSorted(s[1..]);
      InsertSorted(s[0], SortedOf(s[1..]));
    }
  }

  /** There is only one ascending order of a multiset of ids; so whatever
      algorithm sorts a column, the result is `SortedOf` it. */
  lemma {:induction false} SortedUnique(a: seq<int>, b: seq<int>)
    requires Sorted(a) && Sorted(b) && multiset(a) == multiset(b)
    ensures a == b
    decreases |a|
  {
    SameLength(a, b);
    if a != [] {
      SortedHeads(a, b);
      SortedHeads(b, a);
      SameTails(a, b);
      SortedUnique(a[1..], b[1..]);
    }
  }

  lemma SameLength<T>(a: seq<T>, b: seq<T>)
    requires multiset(a) == multiset(b)
    ensures |a| == |b|
  {
    assert |a| == |multiset(a)|;
  }

  /** The head of a sorted sequence is at most every element of the other. */
  lemma SortedHeads(a: seq<int>, b: seq<int>)
    requires Sorted(b) && multiset(a) == multiset(b) && a != []
    ensures b != [] && b[0] <= a[0]
  {
    assert a[0] in multiset(b);
  }

  lemma SameTails<T>(a: seq<T>, b: seq<T>)
    requires multiset(a) == multiset(b) && a != [] && b != [] && a[0] == b[0]
    ensures multiset(a[1..]) == multiset(b[1..])
  {
    assert a == [a[0]] + a[1..] && b == [b[0]] + b[1..];
    assert multiset(a) == multiset{a[0]} + multiset(a[1..]);
    assert multiset(b) == multiset{a[0]} + multiset(b[1..]);
    forall y ensures multiset(a[1..])[y] == multiset(b[1..])[y] {
      assert multiset(a)[y] == multiset{a[0]}[y] + multiset(a[1..])[y];
    }
  }

  /* ---------------------------------------------------------------------
     The distance
     --------------------------------------------------------------------- */

  /** `i32::abs_diff`, exact as a `u32`. */
  function AbsDiff(l: int, r: int): nat {
    if l >= r then l - r else r - l
  }

  /** `zip(left, right).map(abs_diff).sum()`: pairs up to the shorter list. */
  function Distance(left: seq<int>, right: seq<int>): nat {
    if left == [] || right == [] then 0
    else AbsDiff(left[0], right[0]) + Distance(left[1..], right[1..])
  }

  /** The answer for two columns: the distance between their sorted orders. */
  function TotalDistance(left: seq<int>, right: seq<int>): nat {
    Distance(SortedOf(left), SortedOf(right))
  }

  /** `process`: read the columns, sort both in place, and add up the
      distances of the pairs. */
  method Process(input: string) returns (r: Result<int>)
    ensures r.Panic? <==> Columns(Lines(input)).Panic?
    ensures r.Ok? ==> r.value == TotalDistance(Columns(Lines(input)).value.0, Columns(Lines(input)).value.1)
  {
    var cols := ReadColumns(input);
    if cols.Panic? {
      return Panic;
    }
    var d := SortAndMeasure(cols.value.0, cols.value.1);
    r := Ok(d);
  }

  /** The columns as vectors, each sorted in place, then the distance of
      the sorted pairs. */
  method SortAndMeasure(ls: seq<int>, rs: seq<int>) returns (d: nat)
    ensures d == TotalDistance(ls, rs)
  {
    var left := new int[|ls|](i requires 0 <= i < |ls| => ls[i]);
    var right := new int[|rs|](i requires 0 <= i < |rs| => rs[i]);
    assert left[..] == ls;
    assert right[..] == rs;
    Sort(left);
    Sort(right);
    SortedOfSorted(ls);
    SortedOfSorted(rs);
    SortedUnique(left[..], SortedOf(ls));
    SortedUnique(right[..], SortedOf(rs));
    d := Distance(left[..], right[..]);
  }

  /** Lists of the same length are at distance 0 exactly when they are equal. */
  lemma {:induction false} DistanceZero(left: seq<int>, right: seq<int>)
    requires |left| == |right|
    ensures Distance(left, right) == 0 <==> left == right
    decreases |left|
  {
    if left != [] {
      DistanceZero(left[1..], right[1..]);
      if left[0] == right[0] && left[1..] == right[1..] {
        assert left == [left[0]] + left[1..] && right == [right[0]] + right[1..];
      }
    }
  }

  /** Two columns of the same length are at distance 0 exactly when they
      hold the same ids, each as often. */
  lemma ZeroIffSameIds(left: seq<int>, right: seq<int>)
    requires |left| == |right|
    ensures TotalDistance(left, right) == 0 <==> multiset(left) == multiset(right)
  {
    SameLength(SortedOf(left), left);
    SameLength(SortedOf(right), right);
    DistanceZero(SortedOf(left), SortedOf(right));
    if multiset(left) == multiset(right) {
      SortedOfSorted(left);
      SortedOfSorted(right);
      SortedUnique(SortedOf(left), SortedOf(right));
    }
  }

  /* ---------------------------------------------------------------------
     The order of the lines does not matter
     --------------------------------------------------------------------- */

  /** Mapping a permutation gives a permutation. */
  lemma {:induction false} MappedPermutation<A, B>(f: A -> B, s: seq<A>, t: seq<A>)
    requires multiset(s) == multiset(t)
    ensures multiset(Mapped(f, s)) == multiset(Mapped(f, t))
    decreases |s|
  {
    SameLength(s, t);
    if s != [] {
      assert s[0] in multiset(t);
      var j :| 0 <= j < |t| && t[j] == s[0];
      var rest := t[..j] + t[j + 1..];
      RemoveAt(s, t, j);
      MappedPermutation(f, s[1..], rest);
      var before := Mapped(f, t[..j]);
      var after := Mapped(f, t[j + 1..]);
      MappedSplit(f, t, j);
      MappedConcat(f, t[..j], t[j + 1..]);
      assert Mapped(f, s) == [f(s[0])] + Mapped(f, s[1..]);
      assert multiset(Mapped(f, t)) == multiset(before) + multiset{f(s[0])} + multiset(after);
      assert multiset(Mapped(f, rest)) == multiset(before) + multiset(after);
    }
  }

  lemma MappedSplit<A, B>(f: A -> B, t: seq<A>, j: nat)
    requires j < |t|
    ensures Mapped(f, t) == Mapped(f, t[..j]) + [f(t[j])] + Mapped(f, t[j + 1..])
  {
  }

  lemma MappedConcat<A, B>(f: A -> B, a: seq<A>, b: seq<A>)
    ensures Mapped(f, a + b) == Mapped(f, a) + Mapped(f, b)
  {
  }

  /** Taking out the first element of s and its copy at t[j] leaves a
      permutation. */
  lemma RemoveAt<T>(s: seq<T>, t: seq<T>, j: nat)
    requires multiset(s) == multiset(t) && s != [] && j < |t| && t[j] == s[0]
    ensures multiset(s[1..]) == multiset(t[..j] + t[j + 1..])
  {
    var x := s[0];
    assert s == [x] + s[1..];
    assert t == t[..j] + [x] + t[j + 1..];
    forall y ensures multiset(s[1..])[y] == multiset(t[..j] + t[j + 1..])[y] {
      assert multiset(s)[y] == multiset{x}[y] + multiset(s[1..])[y];
      assert multiset(t)[y] == multiset(t[..j])[y] + multiset{x}[y] + multiset(t[j + 1..])[y];
    }
  }

  function LeftOf(line: string): int {
    match ParsePair(line)
    case Ok(p) => p.0
    case Panic => 0
  }

  function RightOf(line: string): int {
    match ParsePair(line)
    case Ok(p) => p.1
    case Panic => 0
  }

  /** Shuffling the lines of the input changes neither whether it panics
      nor the answer: each column is only reordered, and is sorted anyway. */
  lemma OrderIndependent(lines: seq<string>, shuffled: seq<string>)
    requires multiset(lines) == multiset(shuffled)
    ensures Columns(lines).Ok? <==> Columns(shuffled).Ok?
    ensures Columns(lines).Ok? ==>
              TotalDistance(Columns(lines).value.0, Columns(lines).value.1) ==
              TotalDistance(Columns(shuffled).value.0, Columns(shuffled).value.1)
  {
    SameOutcome(lines, shuffled);
    if Columns(lines).Ok? {
      ColumnsAsMapped(lines);
      ColumnsAsMapped(shuffled);
      MappedPermutation(LeftOf, lines, shuffled);
      MappedPermutation(RightOf, lines, shuffled);
      SortedOfPermutation(Mapped(LeftOf, lines), Mapped(LeftOf, shuffled));
      SortedOfPermutation(Mapped(RightOf, lines), Mapped(RightOf, shuffled));
    }
  }

  lemma SameOutcome(lines: seq<string>, shuffled: seq<string>)
    requires multiset(lines) == multiset(shuffled)
    ensures Columns(lines).Ok? <==> Columns(shuffled).Ok?
  {
    forall i | 0 <= i < |lines| ensures exists j :: 0 <= j < |shuffled| && shuffled[j] == lines[i] {
      assert lines[i] in multiset(shuffled);
    }
    forall j | 0 <= j < |shuffled| ensures exists i :: 0 <= i < |lines| && lines[i] == shuffled[j] {
      assert shuffled[j] in multiset(lines);
    }
  }

  lemma ColumnsAsMapped(lines: seq<string>)
    requires Columns(lines).Ok?
    ensures Columns(lines).value == (Mapped(LeftOf, lines), Mapped(RightOf, lines))
  {
    var (l, r) := Columns(lines).value;
    assert l == Mapped(LeftOf, lines);
    assert r == Mapped(RightOf, lines);
  }

  /** Permuted columns sort to the same order. */
  lemma SortedOfPermutation(a: seq<int>, b: seq<int>)
    requires multiset(a) == multiset(b)
    ensures SortedOf(a) == SortedOf(b)
  {
    SortedOfSorted(a);
    SortedOfSorted(b);
    SortedUnique(SortedOf(a), SortedOf(b));
  }

  /* ---------------------------------------------------------------------
     Round trip and the puzzle's sample
     --------------------------------------------------------------------- */

  /** A line of two rendered ids in the `i32` range, with any white space
      between them, reads back as the pair. */
  lemma ParsePairOfLine(l: nat, gap: string, r: nat)
    requires l <= I32_MAX && r <= I32_MAX
    requires gap != [] && forall i :: 0 <= i < |gap| ==> IsWhitespace(gap[i])
    ensures ParsePair(DecimalString(l) + gap + DecimalString(r)) == Ok((l as int, r as int))
  {
    TwoWords(DecimalString(l), gap, DecimalString(r));
    ParseDecimalString(l, I32_MAX);
    ParseDecimalString(r, I32_MAX);
  }

  /** Lines whose pairs are read give the columns of those pairs. */
  lemma ColumnsOf(lines: seq<string>, left: seq<int>, right: seq<int>)
    requires |lines| == |left| == |right|
    requires forall i :: 0 <= i < |lines| ==> ParsePair(lines[i]) == Ok((left[i], right[i]))
    ensures Columns(lines) == Ok((left, right))
  {
    var cols := Columns(lines).value;
    assert cols.0 == left && cols.1 == right;
  }

  /** A line of the puzzle's input: two ids three spaces apart. */
  function PairLine(l: nat, r: nat): string {
    DecimalString(l) + "   " + DecimalString(r)
  }

  const SampleLeftColumn: seq<nat> := [3, 4, 2, 1, 3, 3]
  const SampleRightColumn: seq<nat> := [4, 3, 5, 3, 9, 3]

  function SampleLines(): (lines: seq<string>)
    ensures |lines| == 6 && forall i :: 0 <= i < 6 ==> lines[i] == PairLine(SampleLeftColumn[i], SampleRightColumn[i])
  {
    seq(6, i requires 0 <= i < 6 => PairLine(SampleLeftColumn[i], SampleRightColumn[i]))
  }

  /** The puzzle's sample: its six lines joined by '\n'. */
  function SampleInput(): string {
    Join(SampleLines(), "\n")
  }

  /** The sample's text reads as its two columns. */
  lemma SampleColumns()
    ensures Columns(Lines(SampleInput())) == Ok(([3, 4, 2, 1, 3, 3], [4, 3, 5, 3, 9, 3]))
  {
    var lines := SampleLines();
    forall i | 0 <= i < 6
      ensures lines[i] != [] && '\n' !in lines[i] && '\r' !in lines[i]
      ensures ParsePair(lines[i]) == Ok((SampleLeftColumn[i] as int, SampleRightColumn[i] as int))
    {
      DecimalStringAvoids(SampleLeftColumn[i], '\n');
      DecimalStringAvoids(SampleRightColumn[i], '\n');
      DecimalStringAvoids(SampleLeftColumn[i], '\r');
      DecimalStringAvoids(SampleRightColumn[i], '\r');
      ParsePairOfLine(SampleLeftColumn[i], "   ", SampleRightColumn[i]);
    }
    LinesOfJoin(lines);
    ColumnsOf(lines, [3, 4, 2, 1, 3, 3], [4, 3, 5, 3, 9, 3]);
  }

  /** The unit test: `process` of the sample's text is 11. */
  method SampleProcess() returns (r: Result<int>)
    ensures r == Ok(11)
  {
    SampleColumns();
    SampleDistance([3, 4, 2, 1, 3, 3], [4, 3, 5, 3, 9, 3]);
    r := Process(SampleInput());
  }

  /** The sample columns, in any order: sorted they pair up at distances
      2, 1, 0, 1, 2 and 5, 11 in all. */
  lemma SampleDistance(left: seq<int>, right: seq<int>)
    requires multiset(left) == multiset([3, 4, 2, 1, 3, 3]) && multiset(right) == multiset([4, 3, 5, 3, 9, 3])
    ensures TotalDistance(left, right) == 11
  {
    SampleLeft(left);
    SampleRight(right);
    SampleSortedDistance(SortedOf(left), SortedOf(right));
  }

  lemma SampleLeft(left: seq<int>)
    requires multiset(left) == multiset([3, 4, 2, 1, 3, 3])
    ensures SortedOf(left) == [1, 2, 3, 3, 3, 4]
  {
    SampleLeftIds(left);
    SampleSortedLeft([1, 2, 3, 3, 3, 4]);
    SampleSorted(left, [1, 2, 3, 3, 3, 4]);
  }

  lemma SampleLeftIds(left: seq<int>)
    requires multiset(left) == multiset([3, 4, 2, 1, 3, 3])
    ensures multiset(left) == multiset([1, 2, 3, 3, 3, 4])
  {
  }

  lemma SampleSortedLeft(sorted: seq<int>)
    requires sorted == [1, 2, 3, 3, 3, 4]
    ensures Sorted(sorted)
  {
  }

  lemma SampleRight(right: seq<int>)
    requires multiset(right) == multiset([4, 3, 5, 3, 9, 3])
    ensures SortedOf(right) == [3, 3, 3, 4, 5, 9]
  {
    SampleRightIds(right);
    SampleSortedRight([3, 3, 3, 4, 5, 9]);
    SampleSorted(right, [3, 3, 3, 4, 5, 9]);
  }

  lemma SampleRightIds(right: seq<int>)
    requires multiset(right) == multiset([4, 3, 5, 3, 9, 3])
    ensures multiset(right) == multiset([3, 3, 3, 4, 5, 9])
  {
  }

  lemma SampleSortedRight(sorted: seq<int>)
    requires sorted == [3, 3, 3, 4, 5, 9]
    ensures Sorted(sorted)
  {
  }

  lemma SampleSorted(s: seq<int>, sorted: seq<int>)
    requires Sorted(sorted) && multiset(s) == multiset(sorted)
    ensures SortedOf(s) == sorted
  {
    SortedOfSorted(s);
    SortedUnique(SortedOf(s), sorted);
  }

  lemma SampleSortedDistance(sl: seq<int>, sr: seq<int>)
    requires sl == [1, 2, 3, 3, 3, 4] && sr == [3, 3, 3, 4, 5, 9]
    ensures Distance(sl, sr) == 11
  {
    assert Distance(sl[5..], sr[5..]) == 5 by { assert sl[5..][1..] == [] && sr[5..][1..] == []; }
    assert Distance(sl[4..], sr[4..]) == 7 by { assert sl[4..][1..] == sl[5..] && sr[4..][1..] == sr[5..]; }
    assert Distance(sl[3..], sr[3..]) == 8 by { assert sl[3..][1..] == sl[4..] && sr[3..][1..] == sr[4..]; }
    assert Distance(sl[2..], sr[2..]) == 8 by { assert sl[2..][1..] == sl[3..] && sr[2..][1..] == sr[3..]; }
    assert Distance(sl[1..], sr[1..]) == 9 by { assert sl[1..][1..] == sl[2..] && sr[1..][1..] == sr[2..]; }
  }
}
