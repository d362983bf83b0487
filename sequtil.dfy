/** Small sequence vocabulary shared by the screening model: optional values,
    order-preserving filters, fixed-size batching, sums and substring search. */
module SeqUtil {

  datatype Option<+T> = None | Some(value: T)

  /** `a` can be obtained from `b` by deleting elements, without reordering. */
  predicate Subseq<T(==)>(a: seq<T>, b: seq<T>)
    decreases |b|
  {
    if |a| == 0 then true
    else if |b| == 0 then false
    else if a[0] == b[0] then Subseq(a[1..], b[1..])
    else Subseq(a, b[1..])
  }

  lemma {:induction false} SubseqRefl<T>(a: seq<T>)
    ensures Subseq(a, a)
    decreases |a|
  {
    if |a| > 0 { SubseqRefl(a[1..]); }
  }

  /** Keeping an element of `b` in front of a subsequence of the rest of `b`. */
  lemma {:induction false} SubseqCons<T>(x: T, a: seq<T>, b: seq<T>)
    requires Subseq(a, b)
    ensures Subseq([x] + a, [x] + b)
  {
    assert ([x] + a)[1..] == a;
    assert ([x] + b)[1..] == b;
  }

  /** Dropping the head of `b` when it is not kept. */
  lemma {:induction false} SubseqSkip<T>(x: T, a: seq<T>, b: seq<T>)
    requires Subseq(a, b)
    ensures Subseq(a, [x] + b)
    decreases |b|, 1
  {
    assert ([x] + b)[1..] == b;
    if |a| > 0 && a[0] == x {
      // Matching x here instead: a[1..] is a subsequence of b as well.
      SubseqDropHead(a, b);
    }
  }

  lemma {:induction false} SubseqDropHead<T>(a: seq<T>, b: seq<T>)
    requires |a| > 0 && Subseq(a, b)
    ensures Subseq(a[1..], b)
    decreases |b|, 0
  {
    if a[0] == b[0] {
      SubseqSkip(b[0], a[1..], b[1..]);
      assert [b[0]] + b[1..] == b;
    } else {
      SubseqDropHead(a, b[1..]);
      SubseqSkip(b[0], a[1..], b[1..]);
      assert [b[0]] + b[1..] == b;
    }
  }

  /** Appending the same element to both sides, or only to the whole. */
  lemma {:induction false} SubseqExtend<T>(a: seq<T>, b: seq<T>, x: T)
    requires Subseq(a, b)
    ensures Subseq(a, b + [x]) && Subseq(a + [x], b + [x])
    decreases |b|
  {
    if |b| == 0 {
      assert a + [x] == b + [x];
      SubseqRefl(b + [x]);
    } else {
      assert (b + [x])[1..] == b[1..] + [x];
      if |a| > 0 && a[0] == b[0] {
        SubseqExtend(a[1..], b[1..], x);
        assert (a + [x])[1..] == a[1..] + [x];
      } else if |a| > 0 {
        SubseqExtend(a, b[1..], x);
      } else {
        SubseqExtend(a, b[1..], x);
        assert a + [x] == [x];
      }
    }
  }

  /** Every element of a subsequence is an element of the whole. */
  lemma {:induction false} SubseqMembers<T>(a: seq<T>, b: seq<T>)
    requires Subseq(a, b)
    ensures forall x :: x in a ==> x in b
    decreases |b|
  {
    if |a| > 0 {
      if a[0] == b[0] {
        SubseqMembers(a[1..], b[1..]);
        forall x | x in a ensures x in b {
          if x != a[0] { assert x in a[1..]; }
        }
      } else {
        SubseqMembers(a, b[1..]);
      }
    }
  }

  /** The elements of `s` that satisfy `p`, in their original order
      (a boolean-mask selection on a table). */
  function Keep<T>(s: seq<T>, p: T -> bool): (r: seq<T>)
    ensures |r| <= |s|
    ensures forall i :: 0 <= i < |r| ==> r[i] in s && p(r[i])
    ensures forall i :: 0 <= i < |s| && p(s[i]) ==> s[i] in r
    ensures Subseq(r, s)
  {
    if |s| == 0 then []
    else
      var rest := Keep(s[1..], p);
      assert s == [s[0]] + s[1..];
      if p(s[0]) then
        SubseqCons(s[0], rest, s[1..]);
        [s[0]] + rest
      else
        SubseqSkip(s[0], rest, s[1..]);
        rest
  }

  lemma KeepCons<T>(x: T, s: seq<T>, p: T -> bool)
    ensures Keep([x] + s, p) == if p(x) then [x] + Keep(s, p) else Keep(s, p)
  {
    assert ([x] + s)[1..] == s;
  }

  /** Python's `for i in range(0, len(s), n): s[i:i+n]`: consecutive slices of
      at most `n` elements. */
  function Batches<T>(s: seq<T>, n: nat): (r: seq<seq<T>>)
    requires n > 0
    ensures forall b :: b in r ==> 0 < |b| <= n
    ensures Flatten(r) == s
    decreases |s|
  {
    if |s| == 0 then []
    else if |s| <= n then [s]
    else
      var rest := Batches(s[n..], n);
      assert Flatten([s[..n]] + rest) == s[..n] + Flatten(rest) by {
        assert ([s[..n]] + rest)[1..] == rest;
      }
      assert s[..n] + s[n..] == s;
      [s[..n]] + rest
  }

  /** `x`, `n` times. */
  function Repeated<T>(x: T, n: nat): (r: seq<T>)
    ensures |r| == n
    ensures forall k :: 0 <= k < n ==> r[k] == x
  {
    if n == 0 then [] else Repeated(x, n - 1) + [x]
  }

  lemma RepeatedSnoc<T>(x: T, n: nat)
    ensures Repeated(x, n) + [x] == Repeated(x, n + 1)
  {
  }

  function Flatten<T>(ss: seq<seq<T>>): seq<T> {
    if |ss| == 0 then [] else ss[0] + Flatten(ss[1..])
  }

  function Sum(xs: seq<real>): real {
    if |xs| == 0 then 0.0 else xs[0] + Sum(xs[1..])
  }

  lemma {:induction false} SumAppend(a: seq<real>, b: seq<real>)
    ensures Sum(a + b) == Sum(a) + Sum(b)
    decreases |a|
  {
    if |a| == 0 {
      assert a + b == b;
    } else {
      assert (a + b)[1..] == a[1..] + b;
      SumAppend(a[1..], b);
    }
  }

  /** A run of equal values adds up to its length times the value. */
  lemma {:induction false} SumFlat(xs: seq<real>, c: real)
    ensures (forall j :: 0 <= j < |xs| ==> xs[j] == c) ==> Sum(xs) == |xs| as real * c
    decreases |xs|
  {
    if |xs| > 0 {
      SumFlat(xs[1..], c);
      if forall j :: 0 <= j < |xs| ==> xs[j] == c {
        assert forall j :: 0 <= j < |xs| - 1 ==> xs[1..][j] == xs[j + 1];
      }
    }
  }

  /** Plain substring search (`str.contains` with a literal pattern). */
  predicate Contains(s: string, pat: string)
    decreases |s|
  {
    if |pat| <= |s| && s[..|pat|] == pat then true
    else if |s| == 0 then false
    else Contains(s[1..], pat)
  }

  /** `pat` occurs in `s` starting at offset `i`. */
  predicate OccursAt(s: string, pat: string, i: int) {
    0 <= i <= |s| - |pat| && s[i..i + |pat|] == pat
  }

  /** A pattern longer than the text never occurs in it. */
  lemma {:induction false} ShorterNeverContains(s: string, pat: string)
    requires |s| < |pat|
    ensures !Contains(s, pat)
    decreases |s|
  {
    if |s| > 0 {
      ShorterNeverContains(s[1..], pat);
    }
  }

  /** Contains is substring occurrence at some offset. */
  lemma {:induction false} ContainsAt(s: string, pat: string)
    ensures Contains(s, pat) <==> exists i :: OccursAt(s, pat, i)
    decreases |s|
  {
    if |pat| <= |s| && s[..|pat|] == pat {
      assert OccursAt(s, pat, 0);
    } else if |s| == 0 {
    } else {
      ContainsAt(s[1..], pat);
      if Contains(s[1..], pat) {
        var i :| OccursAt(s[1..], pat, i);
        assert s[i + 1..i + 1 + |pat|] == s[1..][i..i + |pat|];
        assert OccursAt(s, pat, i + 1);
      }
      if exists i :: OccursAt(s, pat, i) {
        var i :| OccursAt(s, pat, i);
        assert i != 0;
        assert s[1..][i - 1..i - 1 + |pat|] == s[i..i + |pat|];
        assert OccursAt(s[1..], pat, i - 1);
      }
    }
  }
}
