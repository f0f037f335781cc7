/**
 * Sequence operations behind JavaScript's `Array.prototype.filter`, `map`
 * and `[...new Set(xs)]`, with the facts the models need about them:
 * what a filter keeps, that it keeps the original order, and that
 * de-duplication keeps first occurrences in first-occurrence order.
 */
module Seqs {

  /** No element occurs twice. */
  predicate Distinct<T(==)>(s: seq<T>) {
    forall i, j :: 0 <= i < j < |s| ==> s[i] != s[j]
  }

  /** `s.map(f)` */
  function Map<T, U>(s: seq<T>, f: T -> U): (r: seq<U>)
    ensures |r| == |s|
    ensures forall k :: 0 <= k < |s| ==> r[k] == f(s[k])
  {
    seq(|s|, k requires 0 <= k < |s| => f(s[k]))
  }

  /** `s.filter(p)`: the elements satisfying `p`, in their original order. */
  function Filter<T(==)>(s: seq<T>, p: T -> bool): (r: seq<T>)
    ensures |r| <= |s|
    ensures forall k :: 0 <= k < |r| ==> p(r[k])
  {
    if |s| == 0 then []
    else (if p(s[0]) then [s[0]] else []) + Filter(s[1..], p)
  }

  /** A filter keeps only elements of `s`, and loses none satisfying `p`. */
  lemma {:induction false} FilterMembers<T>(s: seq<T>, p: T -> bool)
    ensures forall k :: 0 <= k < |Filter(s, p)| ==> Filter(s, p)[k] in s
    ensures forall i :: 0 <= i < |s| && p(s[i]) ==> s[i] in Filter(s, p)
  {
    if |s| > 0 {
      FilterMembers(s[1..], p);
      var head := if p(s[0]) then [s[0]] else [];
      var r := Filter(s, p);
      assert r == head + Filter(s[1..], p);
      forall k | 0 <= k < |r| ensures r[k] in s {
        if k >= |head| {
          assert r[k] == Filter(s[1..], p)[k - |head|];
        }
      }
      forall i | 0 <= i < |s| && p(s[i]) ensures s[i] in r {
        if i > 0 {
          assert s[i] == s[1..][i - 1];
        }
      }
    }
  }

  /** Filtering a sequence extended by one element. */
  lemma FilterSnoc<T>(s: seq<T>, x: T, p: T -> bool)
    ensures Filter(s + [x], p) == Filter(s, p) + (if p(x) then [x] else [])
  {
    FilterAppend(s, [x], p);
    assert Filter([x], p) == (if p(x) then [x] else []) + Filter([x][1..], p);
  }

  /** Filtering distributes over concatenation, so a filter never reorders. */
  lemma {:induction false} FilterAppend<T>(a: seq<T>, b: seq<T>, p: T -> bool)
    ensures Filter(a + b, p) == Filter(a, p) + Filter(b, p)
  {
    if |a| == 0 {
      assert a + b == b;
    } else {
      assert (a + b)[0] == a[0];
      assert (a + b)[1..] == a[1..] + b;
      FilterAppend(a[1..], b, p);
    }
  }

  /**
   * The positions `Filter(s, p)` keeps, in increasing order; the facts that
   * make them a faithful index of the filter are `SelectedPositions`.
   */
  function Selected<T(==)>(s: seq<T>, p: T -> bool): seq<nat> {
    if |s| == 0 then []
    else
      var shifted := Map(Selected(s[1..], p), (k: nat) => k + 1);
      if p(s[0]) then [0] + shifted else shifted
  }

  /** The selected positions strictly increase and stay inside `s`. */
  lemma {:induction false} SelectedIncreasing<T>(s: seq<T>, p: T -> bool)
    ensures forall k :: 0 <= k < |Selected(s, p)| ==> Selected(s, p)[k] < |s|
    ensures forall k, l :: 0 <= k < l < |Selected(s, p)| ==> Selected(s, p)[k] < Selected(s, p)[l]
  {
    if |s| > 0 {
      var rest := Selected(s[1..], p);
      SelectedIncreasing(s[1..], p);
      var shifted := Map(rest, (k: nat) => k + 1);
      forall k | 0 <= k < |shifted| ensures 1 <= shifted[k] < |s| {
        assert shifted[k] == rest[k] + 1;
      }
      forall k, l | 0 <= k < l < |shifted| ensures shifted[k] < shifted[l] {
        assert shifted[k] == rest[k] + 1 && shifted[l] == rest[l] + 1;
      }
      var head: seq<nat> := if p(s[0]) then [0] else [];
      assert Selected(s, p) == head + shifted;
    }
  }

  /**
   * A filter is a subsequence: it is as long as the list of selected
   * positions, and its k-th element is the element at the k-th of them.
   */
  lemma {:induction false} SelectedPositions<T>(s: seq<T>, p: T -> bool)
    ensures var idx := Selected(s, p);
      && |idx| == |Filter(s, p)|
      && (forall k :: 0 <= k < |idx| ==> idx[k] < |s| && Filter(s, p)[k] == s[idx[k]])
  {
    SelectedIncreasing(s, p);
    if |s| > 0 {
      var rest, tail := Selected(s[1..], p), Filter(s[1..], p);
      SelectedPositions(s[1..], p);
      var shifted := Map(rest, (k: nat) => k + 1);
      var head := if p(s[0]) then [s[0]] else [];
      assert Filter(s, p) == head + tail;
      forall k | 0 <= k < |shifted| ensures tail[k] == s[shifted[k]] {
        assert tail[k] == s[1..][rest[k]];
      }
    }
  }

  /** The selected positions are exactly those whose element satisfies `p`: none is skipped. */
  lemma {:induction false} SelectedExactly<T>(s: seq<T>, p: T -> bool)
    ensures forall i :: 0 <= i < |s| ==> (p(s[i]) <==> i in Selected(s, p))
  {
    if |s| > 0 {
      var rest := Selected(s[1..], p);
      SelectedExactly(s[1..], p);
      var shifted := Map(rest, (k: nat) => k + 1);
      forall i | 1 <= i < |s| ensures (i in shifted <==> i - 1 in rest) {
        if i in shifted {
          var k :| 0 <= k < |shifted| && shifted[k] == i;
        }
        if i - 1 in rest {
          var k :| 0 <= k < |rest| && rest[k] == i - 1;
          assert shifted[k] == i;
        }
      }
      assert 0 !in shifted;
      forall i | 1 <= i < |s| ensures p(s[i]) <==> i in Selected(s, p) {
        assert s[i] == s[1..][i - 1];
      }
    }
  }

  /** A filter is empty exactly when no element satisfies the condition. */
  lemma FilterEmpty<T>(s: seq<T>, p: T -> bool)
    ensures |Filter(s, p)| == 0 <==> forall i :: 0 <= i < |s| ==> !p(s[i])
  {
    FilterMembers(s, p);
    if |Filter(s, p)| > 0 {
      var x := Filter(s, p)[0];
      assert x in s && p(x);
    }
  }

  /**
   * A filter is a subsequence of its input: the element at the k-th
   * selected position, the selected positions strictly increasing, and
   * exactly the positions whose element satisfies `p`.
   */
  lemma FilterIsSubsequence<T>(s: seq<T>, p: T -> bool)
    ensures var r, idx := Filter(s, p), Selected(s, p);
      && |r| == |idx|
      && (forall k :: 0 <= k < |idx| ==> idx[k] < |s| && r[k] == s[idx[k]])
      && (forall k, l :: 0 <= k < l < |idx| ==> idx[k] < idx[l])
      && (forall i :: 0 <= i < |s| ==> (p(s[i]) <==> i in idx))
  {
    SelectedPositions(s, p);
    SelectedIncreasing(s, p);
    SelectedExactly(s, p);
  }

  /** The position of the first occurrence of `x` in `s`. */
  function FirstIndex<T(==)>(s: seq<T>, x: T): (i: nat)
    requires x in s
    ensures i < |s| && s[i] == x && x !in s[..i]
  {
    if s[0] == x then 0
    else
      assert s == [s[0]] + s[1..];
      1 + FirstIndex(s[1..], x)
  }

  /** Appending an element does not move any first occurrence. */
  lemma {:induction false} FirstIndexAppend<T>(s: seq<T>, x: T, y: T)
    requires y in s
    ensures FirstIndex(s + [x], y) == FirstIndex(s, y)
  {
    if s[0] != y {
      assert (s + [x])[1..] == s[1..] + [x];
      FirstIndexAppend(s[1..], x, y);
    }
  }

  /** `[...new Set(s)]`: the elements of `s` without repetitions, each at its first occurrence. */
  function Dedup<T(==)>(s: seq<T>): (r: seq<T>)
    ensures Distinct(r)
    ensures forall k :: 0 <= k < |r| ==> r[k] in s
    ensures forall i :: 0 <= i < |s| ==> s[i] in r
  {
    if |s| == 0 then []
    else
      var init := s[..|s| - 1];
      var d := Dedup(init);
      assert s == init + [s[|s| - 1]];
      if s[|s| - 1] in d then d else d + [s[|s| - 1]]
  }

  /** De-duplication keeps the set of elements. */
  lemma DedupMembers<T>(s: seq<T>)
    ensures forall x :: x in Dedup(s) <==> x in s
  {
    var r := Dedup(s);
    forall x | x in r ensures x in s {
      var k :| 0 <= k < |r| && r[k] == x;
    }
    forall x | x in s ensures x in r {
      var i :| 0 <= i < |s| && s[i] == x;
    }
  }

  /** De-duplication lists the elements in the order of their first occurrences. */
  lemma {:induction false} DedupFirstOccurrenceOrder<T>(s: seq<T>)
    ensures forall i, j :: 0 <= i < j < |Dedup(s)| ==>
      FirstIndex(s, Dedup(s)[i]) < FirstIndex(s, Dedup(s)[j])
  {
    if |s| > 0 {
      var init, last := s[..|s| - 1], s[|s| - 1];
      assert s == init + [last];
      var d := Dedup(init);
      DedupFirstOccurrenceOrder(init);
      forall y | y in init ensures FirstIndex(s, y) == FirstIndex(init, y) < |init| {
        FirstIndexAppend(init, last, y);
      }
      if last !in d {
        assert FirstIndex(s, last) == |init|;
      }
    }
  }
}
