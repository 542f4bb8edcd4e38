/** Sequence operations that the source performs with JavaScript array methods. */
module Seqs {

  /** `s.filter(keep)`: the elements of `s` for which `keep` holds, in their original order. */
  function Filter<T>(s: seq<T>, keep: T -> bool): (r: seq<T>)
    ensures |r| <= |s|
    ensures forall i :: 0 <= i < |r| ==> r[i] in s && keep(r[i])
    ensures forall i :: 0 <= i < |s| && keep(s[i]) ==> s[i] in r
  {
    if s == [] then [] else (if keep(s[0]) then [s[0]] else []) + Filter(s[1..], keep)
  }

  /** Filtering a list with a known head: the head, when kept, followed by the filtered rest. */
  lemma FilterCons<T>(h: T, t: seq<T>, keep: T -> bool)
    ensures Filter([h] + t, keep) == (if keep(h) then [h] else []) + Filter(t, keep)
  {
    assert ([h] + t)[1..] == t;
  }

  /**
   * When `rest` filters to `xs` followed by the filtered `t`, putting the same head in
   * front of both keeps that relation, provided the head is rejected or `xs` is empty.
   */
  lemma FilterPastHead<T>(h: T, t: seq<T>, rest: seq<T>, xs: seq<T>, keep: T -> bool)
    requires !keep(h) || xs == []
    requires Filter(rest, keep) == xs + Filter(t, keep)
    ensures Filter([h] + rest, keep) == xs + Filter([h] + t, keep)
  {
    FilterCons(h, rest, keep);
    FilterCons(h, t, keep);
    if keep(h) {
      assert xs + Filter(t, keep) == Filter(t, keep);
      assert xs + Filter([h] + t, keep) == Filter([h] + t, keep);
    } else {
      assert Filter([h] + rest, keep) == Filter(rest, keep);
      assert Filter([h] + t, keep) == Filter(t, keep);
    }
  }

  /** Filtering distributes over concatenation, so it never reorders what it keeps. */
  lemma {:induction false} FilterConcat<T>(a: seq<T>, b: seq<T>, keep: T -> bool)
    ensures Filter(a + b, keep) == Filter(a, keep) + Filter(b, keep)
  {
    if a == [] {
      assert a + b == b;
    } else {
      assert (a + b)[1..] == a[1..] + b;
      FilterConcat(a[1..], b, keep);
    }
  }

  /** A filter that keeps every element is the identity. */
  lemma {:induction false} FilterKeepsAll<T>(s: seq<T>, keep: T -> bool)
    requires forall i :: 0 <= i < |s| ==> keep(s[i])
    ensures Filter(s, keep) == s
  {
    if s != [] {
      FilterKeepsAll(s[1..], keep);
    }
  }

  /** A filter that rejects exactly the element at `k` removes that one entry and keeps the rest in order. */
  lemma FilterRemovesOne<T>(s: seq<T>, keep: T -> bool, k: nat)
    requires k < |s|
    requires !keep(s[k])
    requires forall i :: 0 <= i < |s| && i != k ==> keep(s[i])
    ensures Filter(s, keep) == s[..k] + s[k + 1..]
    ensures |Filter(s, keep)| == |s| - 1
  {
    var before, after := s[..k], s[k + 1..];
    assert s == before + ([s[k]] + after);
    assert forall i :: 0 <= i < |before| ==> before[i] == s[i];
    assert forall i :: 0 <= i < |after| ==> after[i] == s[k + 1 + i];
    FilterKeepsAll(before, keep);
    FilterKeepsAll(after, keep);
    assert [s[k]][1..] == [];
    assert Filter([s[k]], keep) == [];
    FilterConcat([s[k]], after, keep);
    FilterConcat(before, [s[k]] + after, keep);
    assert Filter(s, keep) == Filter(before, keep) + Filter([s[k]] + after, keep);
    assert Filter([s[k]] + after, keep) == after;
  }
}
