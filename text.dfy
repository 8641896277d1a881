/**
 * Text helpers shared by the XML writer: decimal rendering of unsigned
 * integers as a C++ output stream prints them, the matching decimal
 * parser, and the ascending enumeration of a set of indices that a
 * `std::set<unsigned>` iterator performs.
 */
module Text {
  import opened Wrappers

  predicate IsDigit(c: char)
  {
    '0' <= c <= '9'
  }

  predicate AllDigits(s: string)
  {
    forall i :: 0 <= i < |s| ==> IsDigit(s[i])
  }

  function DigitChar(d: nat): (c: char)
    requires d < 10
    ensures IsDigit(c) && (c as int) - ('0' as int) == d
  {
    (('0' as int) + d) as char
  }

  /** Decimal text of `n` without leading zeros, as `operator<<` writes an unsigned value. */
  function FmtNat(n: nat): (s: string)
    ensures 1 <= |s| && AllDigits(s)
    ensures n < 10 <==> |s| == 1
    decreases n
  {
    if n < 10 then [DigitChar(n)] else FmtNat(n / 10) + [DigitChar(n % 10)]
  }

  /** Value of a string of decimal digits (the empty string reads as 0). */
  function ParseNat(s: string): nat
    requires AllDigits(s)
    decreases |s|
  {
    if s == [] then 0
    else ParseNat(s[..|s| - 1]) * 10 + ((s[|s| - 1] as int) - ('0' as int))
  }

  /** Reading back what FmtNat printed gives the number that was printed. */
  lemma {:induction false} ParseFmtNat(n: nat)
    ensures ParseNat(FmtNat(n)) == n
    decreases n
  {
    if n >= 10 {
      ParseFmtNat(n / 10);
      var s := FmtNat(n);
      assert s[..|s| - 1] == FmtNat(n / 10);
    }
  }

  /** FmtNat is injective: distinct numbers print as distinct texts. */
  lemma FmtNatInjective(m: nat, n: nat)
    ensures FmtNat(m) == FmtNat(n) ==> m == n
  {
    ParseFmtNat(m);
    ParseFmtNat(n);
  }

  /**
   * Splits `s` at the first occurrence of `c` into the text before it and
   * the text after it; None when `c` does not occur.
   */
  function SplitAt(s: string, c: char): (r: Option<(string, string)>)
    ensures r.Some? ==> s == r.value.0 + [c] + r.value.1 && c !in r.value.0
    ensures r.None? <==> c !in s
    decreases |s|
  {
    if s == [] then None
    else if s[0] == c then Some(([], s[1..]))
    else
      match SplitAt(s[1..], c)
      case None => None
      case Some((before, after)) => Some(([s[0]] + before, after))
  }

  /** The split happens at the first `c`, whatever follows it. */
  lemma {:induction false} SplitAtFirst(p: string, c: char, q: string)
    requires c !in p
    ensures SplitAt(p + [c] + q, c) == Some((p, q))
    decreases |p|
  {
    var s := p + [c] + q;
    if p == [] {
      assert s[1..] == q;
    } else {
      assert s[0] == p[0];
      assert s[1..] == p[1..] + [c] + q;
      SplitAtFirst(p[1..], c, q);
      assert [p[0]] + p[1..] == p;
    }
  }

  /** The least element of a non-empty set of indices. */
  ghost function MinOf(s: set<nat>): (m: nat)
    requires s != {}
    ensures m in s && forall x :: x in s ==> m <= x
    decreases |s|
  {
    var x :| x in s;
    assert forall y :: y in s ==> y in s - {x} || y == x;
    if s - {x} == {} then x
    else
      var m' := MinOf(s - {x});
      if x <= m' then x else m'
  }

  predicate StrictlyIncreasing(r: seq<nat>)
  {
    forall i, j :: 0 <= i < j < |r| ==> r[i] < r[j]
  }

  /** The elements of `s` in the order a `std::set<unsigned>` iterator visits them. */
  ghost function Ascending(s: set<nat>): seq<nat>
    decreases |s|
  {
    if s == {} then [] else [MinOf(s)] + Ascending(s - {MinOf(s)})
  }

  /** The ascending listing holds every element of the set and nothing else. */
  lemma {:induction false} AscendingMembers(s: set<nat>)
    ensures forall x :: x in Ascending(s) <==> x in s
    decreases |s|
  {
    if s != {} {
      var m := MinOf(s);
      AscendingMembers(s - {m});
      forall x ensures x in Ascending(s) <==> x in s {
        assert x in Ascending(s) <==> x == m || x in Ascending(s - {m});
      }
    }
  }

  /** The ascending listing is strictly increasing, so it holds each element once. */
  lemma {:induction false} AscendingIncreasing(s: set<nat>)
    ensures StrictlyIncreasing(Ascending(s))
    decreases |s|
  {
    if s != {} {
      var m := MinOf(s);
      var rest := Ascending(s - {m});
      AscendingIncreasing(s - {m});
      AscendingMembers(s - {m});
      var r := Ascending(s);
      assert r == [m] + rest;
      forall i, j | 0 <= i < j < |r| ensures r[i] < r[j] {
        var y := rest[j - 1];
        assert r[j] == y;
        if i == 0 {
          assert y in s - {m};
          assert m <= y && m != y;
        } else {
          assert r[i] == rest[i - 1];
          assert rest[i - 1] < y;
        }
      }
    }
  }

  /** The ascending listing is as long as the set. */
  lemma {:induction false} AscendingLength(s: set<nat>)
    ensures |Ascending(s)| == |s|
    decreases |s|
  {
    if s != {} {
      var m := MinOf(s);
      AscendingLength(s - {m});
      assert |s - {m}| == |s| - 1;
    }
  }

  /** A set's ascending listing starts with its least element. */
  lemma AscendingFirst(s: set<nat>, m: nat)
    requires m in s && forall j :: j in s ==> m <= j
    ensures Ascending(s) == [m] + Ascending(s - {m})
  {
    assert MinOf(s) == m;
  }

  lemma AppendAssoc<T>(a: seq<T>, b: seq<T>, c: seq<T>)
    ensures a + b + c == a + (b + c)
  {
  }

  /** Regrouping four appends onto a text, so that callers need not reason about the parts. */
  lemma AppendFour(s: string, a: string, b: string, c: string, d: string)
    ensures s + a + b + c + d == s + (a + b + c + d)
  {
  }

  lemma AppendThree(s: string, a: string, b: string, c: string)
    ensures s + a + b + c == s + (a + b + c)
  {
  }
}
