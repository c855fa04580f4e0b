/** The string operations of Rust's standard library that the solvers use,
    over ASCII text: character classes, `find`, `split`, `split_once`,
    `split_whitespace`, `lines` and `FromStr` for the integer types. */
module Text {
  import opened Outcome

  predicate IsDigit(c: char) { '0' <= c <= '9' }

  predicate IsAlpha(c: char) { ('a' <= c <= 'z') || ('A' <= c <= 'Z') }

  predicate IsAlphanumeric(c: char) { IsDigit(c) || IsAlpha(c) }

  /** `char::is_whitespace` restricted to ASCII. */
  predicate IsWhitespace(c: char) {
    c == ' ' || c == '\t' || c == '\n' || c == '\r' || c == '\U{B}' || c == '\U{C}'
  }

  predicate AllDigits(s: string) {
    forall i :: 0 <= i < |s| ==> IsDigit(s[i])
  }

  function DigitValue(c: char): (d: nat)
    requires IsDigit(c)
    ensures d <= 9
  {
    (c as int) - ('0' as int)
  }

  /** The number a string of decimal digits denotes (leading zeros allowed). */
  function DecimalValue(s: string): nat
    requires AllDigits(s)
  {
    if s == [] then 0 else 10 * DecimalValue(s[..|s| - 1]) + DigitValue(s[|s| - 1])
  }

  const U32_MAX: nat := 0xFFFF_FFFF
  const I32_MAX: nat := 0x7FFF_FFFF
  const I64_MAX: nat := 0x7FFF_FFFF_FFFF_FFFF
  const USIZE_MAX: nat := 0xFFFF_FFFF_FFFF_FFFF

  /** `<uN as FromStr>::from_str`: an optional '+', then one or more digits,
      whose value must not exceed `max`. */
  function ParseUnsigned(s: string, max: nat): (r: Option<nat>)
    ensures r.Some? ==> r.value <= max
    ensures s == [] || s == "+" || s[0] == '-' ==> r == None
    ensures s != [] && AllDigits(s) ==> r == if DecimalValue(s) <= max then Some(DecimalValue(s)) else None
  {
    var digits := if |s| > 0 && s[0] == '+' then s[1..] else s;
    if digits != [] && AllDigits(digits) && DecimalValue(digits) <= max then Some(DecimalValue(digits)) else None
  }

  /** `<iN as FromStr>::from_str`: an optional sign, then one or more digits;
      the value must lie in -(max + 1) .. max. */
  function ParseSigned(s: string, max: nat): (r: Option<int>)
    ensures r.Some? ==> -(max + 1) <= r.value <= max
    ensures s == [] || s == "+" || s == "-" ==> r == None
    ensures s != [] && AllDigits(s) ==> r == if DecimalValue(s) <= max then Some(DecimalValue(s) as int) else None
  {
    if |s| > 0 && s[0] == '-' then
      var digits := s[1..];
      if digits != [] && AllDigits(digits) && DecimalValue(digits) <= max + 1 then Some(-(DecimalValue(digits) as int)) else None
    else
      match ParseUnsigned(s, max)
      case Some(v) => Some(v as int)
      case None => None
  }

  /** `needle` occurs in `hay` starting at index `k`. */
  predicate OccursAt(hay: string, needle: string, k: nat) {
    k + |needle| <= |hay| && hay[k..k + |needle|] == needle
  }

  /** The first occurrence of `needle` at or after `from`. */
  function FindFrom(hay: string, needle: string, from: nat): (r: Option<nat>)
    requires from <= |hay|
    ensures r.Some? ==> from <= r.value && OccursAt(hay, needle, r.value)
    ensures r.Some? ==> forall k :: from <= k < r.value ==> !OccursAt(hay, needle, k)
    ensures r.None? ==> forall k :: from <= k <= |hay| ==> !OccursAt(hay, needle, k)
    decreases |hay| - from
  {
    if OccursAt(hay, needle, from) then Some(from)
    else if from == |hay| then None
    else FindFrom(hay, needle, from + 1)
  }

  /** `str::find` with a string pattern: the index of the first occurrence. */
  function Find(hay: string, needle: string): (r: Option<nat>)
    ensures r.Some? ==> OccursAt(hay, needle, r.value)
    ensures r.Some? ==> forall k :: 0 <= k < r.value ==> !OccursAt(hay, needle, k)
    ensures r.None? ==> forall k :: 0 <= k <= |hay| ==> !OccursAt(hay, needle, k)
  {
    FindFrom(hay, needle, 0)
  }

  /** Searching a suffix is searching the whole string from the suffix's start. */
  lemma FindInSuffix(hay: string, needle: string, p: nat)
    requires p <= |hay|
    ensures Find(hay[p..], needle) == match FindFrom(hay, needle, p)
                                      case Some(k) => Some(k - p)
                                      case None => None
  {
    forall k: nat | k <= |hay| - p
      ensures OccursAt(hay[p..], needle, k) <==> OccursAt(hay, needle, p + k)
    {
      OccursInSuffix(hay, needle, p, k);
    }
    var r := FindFrom(hay, needle, p);
    var s := Find(hay[p..], needle);
    if r.Some? {
      assert OccursAt(hay[p..], needle, r.value - p);
      assert s.Some? && s.value <= r.value - p;
      assert OccursAt(hay, needle, p + s.value);
    }
  }

  lemma OccursInSuffix(hay: string, needle: string, p: nat, k: nat)
    requires p + k <= |hay|
    ensures OccursAt(hay[p..], needle, k) <==> OccursAt(hay, needle, p + k)
  {
    if k + |needle| <= |hay| - p {
      assert hay[p..][k..k + |needle|] == hay[p + k..p + k + |needle|];
    }
  }

  /** Pieces joined back together with `sep` between neighbours. */
  function Join(parts: seq<string>, sep: string): string {
    if |parts| == 0 then []
    else if |parts| == 1 then parts[0]
    else parts[0] + sep + Join(parts[1..], sep)
  }

  /** `str::split` with a non-empty string pattern: the pieces between the
      successive leftmost occurrences of `sep`. */
  function Split(s: string, sep: string): (parts: seq<string>)
    requires |sep| > 0
    ensures |parts| >= 1
    ensures Join(parts, sep) == s
    ensures forall i :: 0 <= i < |parts| ==> Find(parts[i], sep).None?
    decreases |s|
  {
    match Find(s, sep)
    case None => [s]
    case Some(k) =>
      var head := s[..k];
      var rest := Split(s[k + |sep|..], sep);
      assert Find(head, sep).None? by {
        forall j: nat | j <= |head| ensures !OccursAt(head, sep, j) {
          if OccursAt(head, sep, j) {
            assert head[j..j + |sep|] == s[j..j + |sep|];
            assert OccursAt(s, sep, j);
          }
        }
      }
      assert s == head + sep + s[k + |sep|..] by {
        assert s[k..k + |sep|] == sep;
        assert s == s[..k] + s[k..k + |sep|] + s[k + |sep|..];
      }
      [head] + rest
  }

  /** `str::split_once`: the text before and after the first occurrence of `sep`. */
  function SplitOnce(s: string, sep: string): (r: Option<(string, string)>)
    ensures r.Some? ==> s == r.value.0 + sep + r.value.1 && Find(s, sep) == Some(|r.value.0|)
    ensures r.None? <==> Find(s, sep).None?
  {
    match Find(s, sep)
    case None => None
    case Some(k) =>
      assert s == s[..k] + s[k..k + |sep|] + s[k + |sep|..];
      Some((s[..k], s[k + |sep|..]))
  }

  /** Length of the leading run of non-white-space characters. */
  function WordLength(s: string): (n: nat)
    ensures n <= |s|
    ensures forall i :: 0 <= i < n ==> !IsWhitespace(s[i])
    ensures n == |s| || IsWhitespace(s[n])
  {
    if s == [] || IsWhitespace(s[0]) then 0 else 1 + WordLength(s[1..])
  }

  /** `str::split_whitespace`: the maximal runs of non-white-space characters. */
  function SplitWhitespace(s: string): (words: seq<string>)
    ensures forall w :: w in words ==> w != [] && forall i :: 0 <= i < |w| ==> !IsWhitespace(w[i])
    decreases |s|
  {
    if s == [] then []
    else if IsWhitespace(s[0]) then SplitWhitespace(s[1..])
    else
      var n := WordLength(s);
      [s[..n]] + SplitWhitespace(s[n..])
  }

  /** A line with one trailing carriage return removed. */
  function StripCarriageReturn(line: string): string {
    if |line| > 0 && line[|line| - 1] == '\r' then line[..|line| - 1] else line
  }

  /** `str::lines`: the text split at each '\n'; a '\r' just before a '\n' is
      dropped with it, and a final line ending yields no empty last line. */
  function Lines(s: string): (lines: seq<string>)
    ensures forall i :: 0 <= i < |lines| ==> '\n' !in lines[i]
    decreases |s|
  {
    if s == [] then []
    else
      match Find(s, "\n")
      case None =>
        assert '\n' !in s by {
          forall j | 0 <= j < |s| ensures s[j] != '\n' { assert !OccursAt(s, "\n", j); }
        }
        [s]
      case Some(k) =>
        assert '\n' !in s[..k] by {
          forall j | 0 <= j < k ensures s[j] != '\n' { assert !OccursAt(s, "\n", j); }
        }
        [StripCarriageReturn(s[..k])] + Lines(s[k + 1..])
  }

  /* ---------------------------------------------------------------------
     Rendering, for the round trips of the parsers
     --------------------------------------------------------------------- */

  function DigitChar(d: nat): (c: char)
    requires d <= 9
    ensures IsDigit(c) && DigitValue(c) == d
  {
    (('0' as int) + d) as char
  }

  /** The shortest decimal text of n, as `to_string` writes it. */
  function DecimalString(n: nat): (s: string)
    ensures s != [] && AllDigits(s) && DecimalValue(s) == n
    ensures forall i :: 0 <= i < |s| ==> !IsWhitespace(s[i]) && IsDigit(s[i])
  {
    if n < 10 then [DigitChar(n)]
    else
      var s := DecimalString(n / 10) + [DigitChar(n % 10)];
      assert s[..|s| - 1] == DecimalString(n / 10);
      s
  }

  /** A rendered number holds only digits. */
  lemma DecimalStringAvoids(n: nat, c: char)
    requires !IsDigit(c)
    ensures c !in DecimalString(n)
  {
    var s := DecimalString(n);
    assert forall i :: 0 <= i < |s| ==> IsDigit(s[i]);
  }

  /** Parsing a rendered number gives it back. */
  lemma ParseDecimalString(n: nat, max: nat)
    ensures ParseUnsigned(DecimalString(n), max) == if n <= max then Some(n) else None
    ensures ParseSigned(DecimalString(n), max) == if n <= max then Some(n as int) else None
  {
  }

  /** The first occurrence is the one after `a` when none starts inside `a`. */
  lemma FindAfter(a: string, sep: string, b: string)
    requires forall k :: 0 <= k < |a| ==> !OccursAt(a + sep + b, sep, k)
    ensures Find(a + sep + b, sep) == Some(|a|)
  {
    var s := a + sep + b;
    assert s[|a|..|a| + |sep|] == sep;
    assert OccursAt(s, sep, |a|);
  }

  /** With b free of `sep`, splitting a + sep + b once gives back a and b. */
  lemma SplitOnceAfter(a: string, sep: string, b: string)
    requires forall k :: 0 <= k < |a| ==> !OccursAt(a + sep + b, sep, k)
    ensures SplitOnce(a + sep + b, sep) == Some((a, b))
  {
    FindAfter(a, sep, b);
    var s := a + sep + b;
    assert s[..|a|] == a;
    assert s[|a| + |sep|..] == b;
  }

  /** No occurrence of `sep` starts inside a head that lacks `sep`'s first character. */
  lemma NoOccurrenceInHead(a: string, sep: string, b: string)
    requires |sep| > 0 && sep[0] !in a
    ensures forall k :: 0 <= k < |a| ==> !OccursAt(a + sep + b, sep, k)
  {
    var s := a + sep + b;
    forall k | 0 <= k < |a| ensures !OccursAt(s, sep, k) {
      assert s[k] == a[k] != sep[0];
      assert k + |sep| <= |s| ==> s[k..k + |sep|][0] == s[k];
    }
  }

  /** A piece without `sep`'s first character holds no `sep`. */
  lemma NotFoundWithout(s: string, sep: string)
    requires |sep| > 0 && sep[0] !in s
    ensures Find(s, sep).None?
  {
    forall k | 0 <= k <= |s| ensures !OccursAt(s, sep, k) {
      assert k + |sep| <= |s| ==> s[k..k + |sep|][0] == s[k] != sep[0];
    }
  }

  /** A character in neither the pieces nor the separator is not in their join. */
  lemma {:induction false} JoinAvoids(parts: seq<string>, sep: string, c: char)
    requires c !in sep && forall i :: 0 <= i < |parts| ==> c !in parts[i]
    ensures c !in Join(parts, sep)
    decreases |parts|
  {
    if |parts| > 1 {
      JoinAvoids(parts[1..], sep, c);
    }
  }

  /** Splitting the join of pieces that lack `sep`'s first character gives
      the pieces back. */
  lemma {:induction false} SplitOfJoin(parts: seq<string>, sep: string)
    requires |sep| > 0 && parts != []
    requires forall i :: 0 <= i < |parts| ==> sep[0] !in parts[i]
    ensures Split(Join(parts, sep), sep) == parts
    decreases |parts|
  {
    if |parts| == 1 {
      NotFoundWithout(parts[0], sep);
    } else {
      var a := parts[0];
      var rest := Join(parts[1..], sep);
      NoOccurrenceInHead(a, sep, rest);
      FindAfter(a, sep, rest);
      SplitOfJoin(parts[1..], sep);
      var s := a + sep + rest;
      assert s[..|a|] == a;
      assert s[|a| + |sep|..] == rest;
    }
  }

  /** Non-empty lines without line-ending characters, joined with '\n',
      are read back by `lines`. */
  lemma {:induction false} LinesOfJoin(lines: seq<string>)
    requires forall i :: 0 <= i < |lines| ==> lines[i] != [] && '\n' !in lines[i] && '\r' !in lines[i]
    ensures Lines(Join(lines, "\n")) == lines
    decreases |lines|
  {
    if |lines| == 1 {
      NotFoundWithout(lines[0], "\n");
    } else if |lines| > 1 {
      var a := lines[0];
      var rest := Join(lines[1..], "\n");
      NoOccurrenceInHead(a, "\n", rest);
      FindAfter(a, "\n", rest);
      LinesOfJoin(lines[1..]);
      var s := a + "\n" + rest;
      assert s[..|a|] == a;
      assert s[|a| + 1..] == rest;
      assert a[|a| - 1] != '\r';
    }
  }

  /** A word of non-white-space characters followed by white space or nothing. */
  lemma {:induction false} WordLengthOfWord(w: string, rest: string)
    requires forall i :: 0 <= i < |w| ==> !IsWhitespace(w[i])
    requires rest == [] || IsWhitespace(rest[0])
    ensures WordLength(w + rest) == |w|
    decreases |w|
  {
    if w == [] {
      assert w + rest == rest;
    } else {
      var s := w + rest;
      assert s[0] == w[0] && !IsWhitespace(s[0]);
      assert s[1..] == w[1..] + rest;
      WordLengthOfWord(w[1..], rest);
    }
  }

  /** Words joined with single spaces split back into the same words. */
  lemma {:induction false} SplitWhitespaceOfJoin(words: seq<string>)
    requires forall j :: 0 <= j < |words| ==> words[j] != [] && forall i :: 0 <= i < |words[j]| ==> !IsWhitespace(words[j][i])
    ensures SplitWhitespace(Join(words, " ")) == words
    decreases |words|
  {
    if |words| == 1 {
      var w := words[0];
      WordLengthOfWord(w, []);
      assert w + [] == w;
      assert w[|w|..] == [];
    } else if |words| > 1 {
      var w := words[0];
      var rest := Join(words[1..], " ");
      var s := w + " " + rest;
      assert Join(words, " ") == s;
      WordLengthOfWord(w, " " + rest);
      assert s == w + (" " + rest);
      assert s[..|w|] == w;
      assert s[|w|..] == " " + rest;
      assert (" " + rest)[1..] == rest;
      SplitWhitespaceOfJoin(words[1..]);
      assert s[0] == w[0];
    }
  }

  /** Leading white space is skipped by `split_whitespace`. */
  lemma {:induction false} SkipWhitespace(gap: string, rest: string)
    requires forall i :: 0 <= i < |gap| ==> IsWhitespace(gap[i])
    ensures SplitWhitespace(gap + rest) == SplitWhitespace(rest)
    decreases |gap|
  {
    if gap != [] {
      assert (gap + rest)[0] == gap[0];
      assert (gap + rest)[1..] == gap[1..] + rest;
      SkipWhitespace(gap[1..], rest);
    } else {
      assert gap + rest == rest;
    }
  }

  /** Two words with white space between them split into the two words. */
  lemma TwoWords(w: string, gap: string, v: string)
    requires w != [] && forall i :: 0 <= i < |w| ==> !IsWhitespace(w[i])
    requires v != [] && forall i :: 0 <= i < |v| ==> !IsWhitespace(v[i])
    requires gap != [] && forall i :: 0 <= i < |gap| ==> IsWhitespace(gap[i])
    ensures SplitWhitespace(w + gap + v) == [w, v]
  {
    var s := w + gap + v;
    WordLengthOfWord(w, gap + v);
    assert s == w + (gap + v);
    assert s[0] == w[0];
    assert s[..|w|] == w && s[|w|..] == gap + v;
    SkipWhitespace(gap, v);
    SplitWhitespaceOfJoin([v]);
  }

  /** Each word after its own padding. */
  function PadEach(pads: seq<string>, words: seq<string>): (r: seq<string>)
    requires |pads| == |words|
    ensures |r| == |words| && forall i :: 0 <= i < |words| ==> r[i] == pads[i] + words[i]
  {
    seq(|words|, i requires 0 <= i < |words| => pads[i] + words[i])
  }

  /** Words, each after white space of its own, joined with single spaces,
      split back into the same words. */
  lemma {:induction false} SplitWhitespaceOfPadded(pads: seq<string>, words: seq<string>)
    requires |pads| == |words|
    requires forall j :: 0 <= j < |words| ==> words[j] != [] && forall i :: 0 <= i < |words[j]| ==> !IsWhitespace(words[j][i])
    requires forall j :: 0 <= j < |pads| ==> forall i :: 0 <= i < |pads[j]| ==> IsWhitespace(pads[j][i])
    ensures SplitWhitespace(Join(PadEach(pads, words), " ")) == words
    decreases |words|
  {
    var pieces := PadEach(pads, words);
    if |words| == 1 {
      SkipWhitespace(pads[0], words[0]);
      SplitWhitespaceOfJoin([words[0]]);
    } else if |words| > 1 {
      var rest := Join(pieces[1..], " ");
      assert Join(pieces, " ") == pads[0] + (words[0] + " " + rest);
      SkipWhitespace(pads[0], words[0] + " " + rest);
      WordThenSpace(words[0], rest);
      assert pieces[1..] == PadEach(pads[1..], words[1..]);
      SplitWhitespaceOfPadded(pads[1..], words[1..]);
    }
  }

  /** A word, a space, then more text: the word, then the words of the rest. */
  lemma WordThenSpace(w: string, rest: string)
    requires w != [] && forall i :: 0 <= i < |w| ==> !IsWhitespace(w[i])
    ensures SplitWhitespace(w + " " + rest) == [w] + SplitWhitespace(rest)
  {
    var s := w + " " + rest;
    WordLengthOfWord(w, " " + rest);
    assert s == w + (" " + rest);
    assert s[0] == w[0];
    assert s[..|w|] == w && s[|w|..] == " " + rest;
    SkipWhitespace(" ", rest);
  }

  /** A single part, joined, is itself. */
  lemma JoinOnly(parts: seq<string>, sep: string, rest: string)
    requires |parts| == 1
    ensures Join(parts, sep) + rest == parts[0] + rest
  {
  }

  /** Several parts, joined: the first, the separator, then the others. */
  lemma JoinFirst(parts: seq<string>, sep: string, rest: string)
    requires |parts| > 1
    ensures Join(parts, sep) + rest == parts[0] + (sep + (Join(parts[1..], sep) + rest))
  {
  }
}
