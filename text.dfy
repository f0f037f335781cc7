/**
 * The few JavaScript string operations the modelled code relies on,
 * written over `string` (a `seq<char>`): prefix and suffix tests,
 * `substring`, `Array.prototype.join`, `String.prototype.split` on a
 * one-character separator, and the decimal rendering of integers.
 */
module Text {
  import opened Seqs

  /** `s.startsWith(p)` */
  predicate StartsWith(s: string, p: string) {
    |p| <= |s| && s[..|p|] == p
  }

  /** `s.endsWith(p)` */
  predicate EndsWith(s: string, p: string) {
    |p| <= |s| && s[|s| - |p|..] == p
  }

  /** `s.substring(k)` for a non-negative `k`: an index past the end gives "". */
  function Substring(s: string, k: nat): string {
    if k <= |s| then s[k..] else ""
  }

  /** `s.startsWith("/") ? s.substring(1) : s`: drops one leading slash, no more. */
  function StripLeadingSlash(s: string): (r: string)
    ensures s == (if StartsWith(s, "/") then "/" + r else r)
    ensures StartsWith(r, "/") ==> StartsWith(s, "//") || s == r
  {
    if StartsWith(s, "/") then s[1..] else s
  }

  /** `parts.join(sep)`: the parts with one separator between neighbours. */
  function Join(parts: seq<string>, sep: char): string {
    if |parts| == 0 then ""
    else if |parts| == 1 then parts[0]
    else parts[0] + [sep] + Join(parts[1..], sep)
  }

  /**
   * `s.split(sep)`: the maximal separator-free pieces of `s`, in order;
   * there is always at least one piece (`"".split("/")` is `[""]`).
   */
  function Split(s: string, sep: char): (r: seq<string>)
    ensures |r| >= 1
    ensures forall k :: 0 <= k < |r| ==> sep !in r[k]
  {
    if |s| == 0 then [""]
    else
      var rest := Split(s[1..], sep);
      if s[0] == sep then [""] + rest
      else [[s[0]] + rest[0]] + rest[1..]
  }

  /** Joining the pieces of a split gives back the string: `s.split(c).join(c) == s`. */
  lemma {:induction false} JoinSplit(s: string, sep: char)
    ensures Join(Split(s, sep), sep) == s
  {
    if |s| > 0 {
      var rest := Split(s[1..], sep);
      JoinSplit(s[1..], sep);
      if s[0] != sep && |rest| > 1 {
        assert rest == [rest[0]] + rest[1..];
        assert Join(rest, sep) == rest[0] + [sep] + Join(rest[1..], sep);
        assert s == [s[0]] + s[1..];
      }
    }
  }

  /** A string without the separator splits into itself alone. */
  lemma {:induction false} SplitOfPiece(p: string, sep: char)
    requires sep !in p
    ensures Split(p, sep) == [p]
  {
    if |p| > 0 {
      SplitOfPiece(p[1..], sep);
      assert [p[0]] + p[1..] == p;
    }
  }

  /** Splitting `p + sep + t` with a separator-free `p` yields `p` and then the pieces of `t`. */
  lemma {:induction false} SplitAfterPiece(p: string, sep: char, t: string)
    requires sep !in p
    ensures Split(p + [sep] + t, sep) == [p] + Split(t, sep)
  {
    var s := p + [sep] + t;
    if |p| == 0 {
      assert s[0] == sep && s[1..] == t;
    } else {
      assert s[0] == p[0] && s[1..] == p[1..] + [sep] + t;
      SplitAfterPiece(p[1..], sep, t);
      assert [p[0]] + p[1..] == p;
    }
  }

  /** Splitting a join of separator-free parts gives back the parts. */
  lemma {:induction false} SplitJoin(parts: seq<string>, sep: char)
    requires |parts| >= 1
    requires forall k :: 0 <= k < |parts| ==> sep !in parts[k]
    ensures Split(Join(parts, sep), sep) == parts
  {
    if |parts| == 1 {
      SplitOfPiece(parts[0], sep);
    } else {
      SplitJoin(parts[1..], sep);
      SplitAfterPiece(parts[0], sep, Join(parts[1..], sep));
      assert [parts[0]] + parts[1..] == parts;
    }
  }

  /** The first piece of a split is the separator-free prefix, followed by a separator or the end. */
  lemma {:induction false} FirstPiece(s: string, sep: char)
    ensures var head := Split(s, sep)[0];
      StartsWith(s, head) && (|head| == |s| || s[|head|] == sep)
  {
    if |s| > 0 {
      FirstPiece(s[1..], sep);
    }
  }

  /** `s.split(sep)[0]`: everything before the first separator, or all of `s`. */
  function FirstSegment(s: string, sep: char): (r: string)
    ensures sep !in r
    ensures StartsWith(s, r)
    ensures |r| == |s| || s[|r|] == sep
  {
    FirstPiece(s, sep);
    Split(s, sep)[0]
  }

  /** Every character is a decimal digit. */
  predicate IsDecimal(s: string) {
    forall k :: 0 <= k < |s| ==> '0' <= s[k] <= '9'
  }

  /** The number a string of decimal digits denotes, most significant digit first. */
  function DecimalValue(s: string): nat
    requires IsDecimal(s)
  {
    if |s| == 0 then 0
    else DecimalValue(s[..|s| - 1]) * 10 + (s[|s| - 1] as int - '0' as int)
  }

  /** The decimal digits of `n`, most significant first, without leading zeros. */
  function NatToString(n: nat): (r: string)
    ensures |r| >= 1 && IsDecimal(r)
    ensures r[0] == '0' ==> n == 0
  {
    var digit := ['0' + (n % 10) as char];
    if n < 10 then digit else NatToString(n / 10) + digit
  }

  /** The digits of `NatToString(n)` denote `n`. */
  lemma {:induction false} NatToStringDenotes(n: nat)
    ensures DecimalValue(NatToString(n)) == n
  {
    if n >= 10 {
      var high, digit := NatToString(n / 10), ['0' + (n % 10) as char];
      NatToStringDenotes(n / 10);
      assert (high + digit)[..|high|] == high;
    }
  }

  /** `n.toString()` for an integral JavaScript number. */
  function IntToString(n: int): string {
    if n < 0 then "-" + NatToString(-n) else NatToString(n)
  }

  /**
   * `IntToString(n)` is the digits of `n` without leading zeros, after a
   * "-" exactly when `n` is negative.
   */
  lemma IntToStringDenotes(n: int)
    ensures var r := IntToString(n);
      && |r| >= (if n < 0 then 2 else 1)
      && (n >= 0 ==> IsDecimal(r) && DecimalValue(r) == n && (r[0] == '0' ==> n == 0))
      && (n < 0 ==> r[0] == '-' && IsDecimal(r[1..]) && DecimalValue(r[1..]) == -n && r[1] != '0')
  {
    var m := if n < 0 then -n else n;
    NatToStringDenotes(m);
    if n < 0 {
      assert IntToString(n)[1..] == NatToString(m);
    }
  }

  /** `s.replace(/c/g, "")`: `s` with every occurrence of `c` removed. */
  function RemoveAll(s: string, c: char): (r: string)
    ensures c !in r
    ensures |r| <= |s|
  {
    if |s| == 0 then ""
    else if s[0] == c then RemoveAll(s[1..], c)
    else [s[0]] + RemoveAll(s[1..], c)
  }

  /**
   * Removing `c` keeps every other character, in order: it is the filter
   * by `x != c`, which `FilterIsSubsequence` characterises position by position.
   */
  lemma {:induction false} RemoveAllKeepsOthers(s: string, c: char)
    ensures RemoveAll(s, c) == Filter(s, x => x != c)
  {
    if |s| > 0 {
      RemoveAllKeepsOthers(s[1..], c);
    }
  }
}
