/** The nom parsers shared by the solvers that use the nom parser
    combinators. A parser takes the input and either fails (`None`) or gives
    a value and the rest of the input; the `complete` parsers fail at the
    end of the input. */
module Nom {
  import opened Outcome
  import opened Text

  datatype Parsed<+T> = Parsed(value: T, rest: string)

  /** `tag(t)`: the input starts with t. */
  function Tag(t: string, input: string): (r: Option<string>)
    ensures r.Some? ==> input == t + r.value
  {
    if |t| <= |input| && input[..|t|] == t then Some(input[|t|..]) else None
  }

  lemma TagOf(t: string, rest: string)
    ensures Tag(t, t + rest) == Some(rest)
  {
    assert (t + rest)[..|t|] == t;
    assert (t + rest)[|t|..] == rest;
  }

  /** A tag does not match an input that starts with another character. */
  lemma TagMismatch(t: string, input: string)
    requires t != [] && input != [] && input[0] != t[0]
    ensures Tag(t, input) == None
  {
    if |t| <= |input| {
      assert input[..|t|][0] == input[0];
    }
  }

  /** The length of the leading run of digits. */
  function DigitRunLength(s: string): (n: nat)
    ensures n <= |s| && (n < |s| ==> !IsDigit(s[n]))
    ensures forall i :: 0 <= i < n ==> IsDigit(s[i])
  {
    if s == [] || !IsDigit(s[0]) then 0 else 1 + DigitRunLength(s[1..])
  }

  /** A run of digits followed by a non-digit or nothing. */
  lemma {:induction false} DigitRunOf(w: string, rest: string)
    requires AllDigits(w)
    requires rest == [] || !IsDigit(rest[0])
    ensures DigitRunLength(w + rest) == |w|
    decreases |w|
  {
    if w == [] {
      assert w + rest == rest;
    } else {
      var s := w + rest;
      assert s[0] == w[0];
      assert s[1..] == w[1..] + rest;
      DigitRunOf(w[1..], rest);
    }
  }

  /** `digit1`: one or more digits, as many as there are. */
  function Digit1(input: string): (r: Option<Parsed<string>>)
    ensures r.None? <==> input == [] || !IsDigit(input[0])
    ensures r.Some? ==> r.value.value != [] && AllDigits(r.value.value) && input == r.value.value + r.value.rest
    ensures r.Some? ==> r.value.rest == [] || !IsDigit(r.value.rest[0])
  {
    var n := DigitRunLength(input);
    if n == 0 then None
    else
      assert input == input[..n] + input[n..];
      Some(Parsed(input[..n], input[n..]))
  }

  lemma Digit1Of(n: nat, rest: string)
    requires rest == [] || !IsDigit(rest[0])
    ensures Digit1(DecimalString(n) + rest) == Some(Parsed(DecimalString(n), rest))
  {
    var w := DecimalString(n);
    DigitRunOf(w, rest);
    assert (w + rest)[..|w|] == w;
    assert (w + rest)[|w|..] == rest;
  }

  /** `character::complete::u32`: the value of the leading digits; it fails
      without a digit and when the value does not fit in a `u32`. */
  function U32(input: string): (r: Option<Parsed<nat>>)
    ensures r.Some? ==> r.value.value <= U32_MAX && |r.value.rest| < |input|
    ensures r.None? <==> Digit1(input).None? || DecimalValue(Digit1(input).value.value) > U32_MAX
    ensures r.Some? ==> r.value == Parsed(DecimalValue(Digit1(input).value.value), Digit1(input).value.rest)
  {
    match Digit1(input)
    case None => None
    case Some(digits) =>
      var v := DecimalValue(digits.value);
      if v <= U32_MAX then Some(Parsed(v, digits.rest)) else None
  }

  /** `line_ending`: "\n" or "\r\n", and what follows it. */
  function LineEnding(input: string): (r: Option<string>)
    ensures r.Some? ==> |r.value| < |input|
    ensures r.Some? <==> "\n" <= input || "\r\n" <= input
    ensures "\n" <= input ==> r == Some(input[1..])
    ensures "\r\n" <= input ==> r == Some(input[2..])
  {
    match Tag("\n", input)
    case Some(rest) => assert input[0] == '\n'; Some(rest)
    case None => Tag("\r\n", input)
  }

  /** What may follow the last game: nothing or one line ending. */
  predicate InputEnd(rest: string) {
    rest == [] || rest == "\n" || rest == "\r\n"
  }

  lemma LineEndingOf(rest: string)
    ensures LineEnding("\n" + rest) == Some(rest)
  {
    TagOf("\n", rest);
  }

  /** The length of the leading run of ASCII letters. */
  function AlphaRunLength(s: string): (n: nat)
    ensures n <= |s| && (n < |s| ==> !IsAlpha(s[n]))
    ensures forall i :: 0 <= i < n ==> IsAlpha(s[i])
  {
    if s == [] || !IsAlpha(s[0]) then 0 else 1 + AlphaRunLength(s[1..])
  }

  /** `alpha0`: zero or more ASCII letters, as many as there are; it never
      fails. */
  function Alpha0(input: string): (r: Parsed<string>)
    ensures |r.value| <= |input| && r.value == input[..|r.value|] && r.rest == input[|r.value|..]
    ensures forall i :: 0 <= i < |r.value| ==> IsAlpha(r.value[i])
    ensures r.rest == [] || !IsAlpha(r.rest[0])
  {
    var n := AlphaRunLength(input);
    assert input == input[..n] + input[n..];
    Parsed(input[..n], input[n..])
  }

  /** The length of the leading run of ASCII letters and digits. */
  function AlphanumericRunLength(s: string): (n: nat)
    ensures n <= |s| && (n < |s| ==> !IsAlphanumeric(s[n]))
    ensures forall i :: 0 <= i < n ==> IsAlphanumeric(s[i])
  {
    if s == [] || !IsAlphanumeric(s[0]) then 0 else 1 + AlphanumericRunLength(s[1..])
  }

  /** `alphanumeric1`: one or more ASCII letters and digits, as many as
      there are. */
  function Alphanumeric1(input: string): (r: Option<Parsed<string>>)
    ensures r.None? <==> input == [] || !IsAlphanumeric(input[0])
    ensures r.Some? ==> r.value.value != [] && input == r.value.value + r.value.rest
    ensures r.Some? ==> forall i :: 0 <= i < |r.value.value| ==> IsAlphanumeric(r.value.value[i])
    ensures r.Some? ==> r.value.rest == [] || !IsAlphanumeric(r.value.rest[0])
  {
    var n := AlphanumericRunLength(input);
    if n == 0 then None
    else
      assert input == input[..n] + input[n..];
      Some(Parsed(input[..n], input[n..]))
  }

  /** `anychar`: the next character, whatever it is. */
  function AnyChar(input: string): (r: Option<Parsed<char>>)
    ensures r.None? <==> input == []
    ensures r.Some? ==> input == [r.value.value] + r.value.rest
  {
    if input == [] then None
    else
      assert input == [input[0]] + input[1..];
      Some(Parsed(input[0], input[1..]))
  }

  /** A run of letters and digits followed by something else or nothing. */
  lemma {:induction false} AlphanumericRunOf(w: string, rest: string)
    requires forall i :: 0 <= i < |w| ==> IsAlphanumeric(w[i])
    requires rest == [] || !IsAlphanumeric(rest[0])
    ensures AlphanumericRunLength(w + rest) == |w|
    decreases |w|
  {
    if w == [] {
      assert w + rest == rest;
    } else {
      var s := w + rest;
      assert s[0] == w[0];
      assert s[1..] == w[1..] + rest;
      AlphanumericRunOf(w[1..], rest);
    }
  }

  lemma Alphanumeric1Of(w: string, rest: string)
    requires w != [] && forall i :: 0 <= i < |w| ==> IsAlphanumeric(w[i])
    requires rest == [] || !IsAlphanumeric(rest[0])
    ensures Alphanumeric1(w + rest) == Some(Parsed(w, rest))
  {
    AlphanumericRunOf(w, rest);
    assert (w + rest)[..|w|] == w;
    assert (w + rest)[|w|..] == rest;
  }
}
