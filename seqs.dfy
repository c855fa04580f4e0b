/** Generic facts about sequences that the solvers' loops rely on. */
module Seqs {

  /** f applied to each element, in order. */
  function Mapped<A, B>(f: A -> B, s: seq<A>): (r: seq<B>)
    ensures |r| == |s| && forall i :: 0 <= i < |s| ==> r[i] == f(s[i])
  {
    seq(|s|, i requires 0 <= i < |s| => f(s[i]))
  }

  /** Growing a prefix by one element. */
  lemma PrefixGrows<T>(s: seq<T>, j: nat)
    requires j < |s|
    ensures s[..j + 1] == s[..j] + [s[j]]
  {
  }

  /** Sequences with the same elements are equal. */
  lemma Elementwise<T>(a: seq<T>, b: seq<T>)
    requires |a| == |b| && forall k :: 0 <= k < |a| ==> a[k] == b[k]
    ensures a == b
  {
  }

  /** The suffix from k is the element at k, then the suffix from k + 1. */
  lemma SuffixStep<T>(s: seq<T>, k: nat)
    requires k < |s|
    ensures s[k..] != [] && s[k..][0] == s[k] && s[k..][1..] == s[k + 1..]
  {
  }

  /** The prefix of length j is the prefix of length j - 1, then the
      element at j - 1. */
  lemma PrefixStep<T>(s: seq<T>, j: nat)
    requires 0 < j <= |s|
    ensures s[..j] != [] && s[..j][..j - 1] == s[..j - 1] && s[..j][j - 1] == s[j - 1]
  {
  }

  /** Nothing, then the rest: the rest. */
  lemma EmptyPrefix<T>(whole: seq<T>, prefix: seq<T>, rest: seq<T>)
    requires whole == prefix + rest && prefix == []
    ensures whole == rest
  {
  }

  /** Pushing an element, then the rest: the element and the rest. */
  lemma PushThenRest<T>(acc: seq<T>, x: T, rest: seq<T>, whole: seq<T>)
    requires whole == [x] + rest
    ensures acc + [x] + rest == acc + whole
  {
  }

  /** The rows one after the other, as a loop that appends each row builds them. */
  function Flatten<T>(rows: seq<seq<T>>): seq<T> {
    if rows == [] then [] else Flatten(rows[..|rows| - 1]) + rows[|rows| - 1]
  }

  lemma FlattenPush<T>(rows: seq<seq<T>>, row: seq<T>)
    ensures Flatten(rows + [row]) == Flatten(rows) + row
  {
    assert (rows + [row])[..|rows|] == rows;
  }

  /** A loop over the rows appending each in turn. */
  lemma FlattenPrefixGrows<T>(rows: seq<seq<T>>, j: nat, row: seq<T>)
    requires j < |rows| && row == rows[j]
    ensures Flatten(rows[..j + 1]) == Flatten(rows[..j]) + row
  {
    PrefixGrows(rows, j);
    FlattenPush(rows[..j], row);
  }

  /** Every element of the flattened rows is an element of one of the rows. */
  lemma {:induction false} FlattenIndex<T>(rows: seq<seq<T>>, i: nat) returns (r: nat, k: nat)
    requires i < |Flatten(rows)|
    ensures r < |rows| && k < |rows[r]| && Flatten(rows)[i] == rows[r][k]
    decreases |rows|
  {
    var init := rows[..|rows| - 1];
    var last := rows[|rows| - 1];
    if i < |Flatten(init)| {
      r, k := FlattenIndex(init, i);
    } else {
      r, k := |rows| - 1, i - |Flatten(init)|;
    }
  }
}
