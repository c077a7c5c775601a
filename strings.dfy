/**
  Sequence and string helpers shared by the JavaScript and Python parts of the
  model: subsequences (what "only deletes characters" means), filtering, runs of
  characters of one class, trimming and joining.
*/
module Strings {

  /** `a` is obtained from `b` by deleting elements, keeping the order of the rest. */
  predicate IsSubsequence<T(==)>(a: seq<T>, b: seq<T>)
    decreases |b|
  {
    if a == [] then true
    else if b == [] then false
    else (a[0] == b[0] && IsSubsequence(a[1..], b[1..])) || IsSubsequence(a, b[1..])
  }

  lemma {:induction false} SubsequenceTrans<T>(a: seq<T>, b: seq<T>, c: seq<T>)
    requires IsSubsequence(a, b) && IsSubsequence(b, c)
    ensures IsSubsequence(a, c)
    decreases |c|
  {
    if a != [] {
      assert b != [] && c != [];
      if IsSubsequence(b, c[1..]) {
        SubsequenceTrans(a, b, c[1..]);
      } else if a[0] == b[0] && IsSubsequence(a[1..], b[1..]) {
        SubsequenceTrans(a[1..], b[1..], c[1..]);
      } else {
        SubsequenceTrans(a, b[1..], c[1..]);
      }
    }
  }

  lemma {:induction false} SubsequenceOfSuffix<T>(a: seq<T>, b: seq<T>, k: nat)
    requires k <= |b| && IsSubsequence(a, b[k..])
    ensures IsSubsequence(a, b)
  {
    if k > 0 {
      assert b[k..] == b[1..][k - 1..];
      SubsequenceOfSuffix(a, b[1..], k - 1);
    } else {
      assert b[k..] == b;
    }
  }

  lemma {:induction false} PrefixIsSubsequence<T>(s: seq<T>, j: nat)
    requires j <= |s|
    ensures IsSubsequence(s[..j], s)
  {
    if j > 0 {
      PrefixIsSubsequence(s[1..], j - 1);
      assert s[..j][1..] == s[1..][..j - 1];
    }
  }

  /** Any contiguous slice only deletes elements at both ends. */
  lemma SliceIsSubsequence<T>(s: seq<T>, i: nat, j: nat)
    requires i <= j <= |s|
    ensures IsSubsequence(s[i..j], s)
  {
    PrefixIsSubsequence(s[i..], j - i);
    assert s[i..][..j - i] == s[i..j];
    SubsequenceOfSuffix(s[i..j], s, i);
  }

  lemma {:induction false} SubsequenceElements<T>(a: seq<T>, b: seq<T>)
    requires IsSubsequence(a, b)
    ensures |a| <= |b|
    ensures forall x :: x in a ==> x in b
    decreases |b|
  {
    if a != [] {
      if a[0] == b[0] && IsSubsequence(a[1..], b[1..]) {
        SubsequenceElements(a[1..], b[1..]);
        assert a == [a[0]] + a[1..];
      } else {
        SubsequenceElements(a, b[1..]);
      }
    }
  }

  /** The elements of `s` that satisfy `keep`, in their original order. */
  function Filter<T(!new)>(s: seq<T>, keep: T -> bool): (r: seq<T>)
    ensures forall i :: 0 <= i < |r| ==> keep(r[i])
    ensures forall i :: 0 <= i < |s| && keep(s[i]) ==> s[i] in r
  {
    if s == [] then []
    else (if keep(s[0]) then [s[0]] else []) + Filter(s[1..], keep)
  }

  /** Filtering keeps every accepted element as often as it occurs, and nothing else. */
  lemma {:induction false} FilterCounts<T(!new)>(s: seq<T>, keep: T -> bool)
    ensures forall x :: multiset(Filter(s, keep))[x] == if keep(x) then multiset(s)[x] else 0
  {
    if s != [] {
      FilterCounts(s[1..], keep);
      assert s == [s[0]] + s[1..];
    }
  }

  lemma {:induction false} FilterIsSubsequence<T(!new)>(s: seq<T>, keep: T -> bool)
    ensures IsSubsequence(Filter(s, keep), s)
  {
    if s != [] {
      FilterIsSubsequence(s[1..], keep);
      var rest := Filter(s[1..], keep);
      if keep(s[0]) {
        assert Filter(s, keep) == [s[0]] + rest;
        assert ([s[0]] + rest)[1..] == rest;
      } else {
        assert Filter(s, keep) == rest;
      }
    }
  }

  /** Filtering distributes over concatenation: each element is judged on its own. */
  lemma {:induction false} FilterConcat<T(!new)>(a: seq<T>, b: seq<T>, keep: T -> bool)
    ensures Filter(a + b, keep) == Filter(a, keep) + Filter(b, keep)
  {
    if a != [] {
      assert (a + b)[1..] == a[1..] + b;
      FilterConcat(a[1..], b, keep);
    } else {
      assert a + b == b;
    }
  }

  lemma {:induction false} FilterKeepsAll<T(!new)>(s: seq<T>, keep: T -> bool)
    requires forall i :: 0 <= i < |s| ==> keep(s[i])
    ensures Filter(s, keep) == s
  {
    if s != [] {
      FilterKeepsAll(s[1..], keep);
    }
  }

  lemma {:induction false} FilterIdempotent<T(!new)>(s: seq<T>, keep: T -> bool)
    ensures Filter(Filter(s, keep), keep) == Filter(s, keep)
  {
    if s != [] {
      FilterIdempotent(s[1..], keep);
      var head := if keep(s[0]) then [s[0]] else [];
      FilterConcat(head, Filter(s[1..], keep), keep);
      if keep(s[0]) {
        assert Filter(head, keep) == [s[0]] + Filter(head[1..], keep);
        assert head[1..] == [];
      }
    }
  }

  /** The number of consecutive elements from index `i` on that satisfy `p`. */
  function RunLength(s: string, i: nat, p: char -> bool): (n: nat)
    requires i <= |s|
    ensures i + n <= |s|
    ensures forall k :: i <= k < i + n ==> p(s[k])
    ensures i + n == |s| || !p(s[i + n])
    decreases |s| - i
  {
    if i < |s| && p(s[i]) then 1 + RunLength(s, i + 1, p) else 0
  }

  predicate AllSatisfy(s: string, p: char -> bool)
  {
    forall k :: 0 <= k < |s| ==> p(s[k])
  }

  /** Removes leading characters that satisfy `isSpace`. */
  function TrimStart(s: string, isSpace: char -> bool): (r: string)
    ensures |r| <= |s| && r == s[|s| - |r|..]
    ensures forall k :: 0 <= k < |s| - |r| ==> isSpace(s[k])
    ensures r != [] ==> !isSpace(r[0])
  {
    if s != [] && isSpace(s[0]) then TrimStart(s[1..], isSpace) else s
  }

  /** Removes trailing characters that satisfy `isSpace`. */
  function TrimEnd(s: string, isSpace: char -> bool): (r: string)
    ensures |r| <= |s| && r == s[..|r|]
    ensures forall k :: |r| <= k < |s| ==> isSpace(s[k])
    ensures r != [] ==> !isSpace(r[|r| - 1])
  {
    if s != [] && isSpace(s[|s| - 1]) then TrimEnd(s[..|s| - 1], isSpace) else s
  }

  /**
    Removes both ends. The result is the slice of `s` between the first and the
    last non-space character; it is empty exactly when `s` is all spaces.
  */
  function Trim(s: string, isSpace: char -> bool): (r: string)
    ensures r != [] ==> !isSpace(r[0]) && !isSpace(r[|r| - 1])
    ensures var lead := |s| - |TrimStart(s, isSpace)|;
      lead + |r| <= |s| && r == s[lead..lead + |r|] &&
      forall k :: 0 <= k < |s| && (k < lead || lead + |r| <= k) ==> isSpace(s[k])
    ensures r == [] <==> AllSatisfy(s, isSpace)
  {
    var t := TrimStart(s, isSpace);
    var r := TrimEnd(t, isSpace);
    assert r != [] ==> r[0] == t[0];
    r
  }

  /**
    `r` is `s` without its leading and trailing `isSpace` characters: a slice of
    `s` outside which every character satisfies `isSpace`.
  */
  ghost predicate IsTrimOf(r: string, s: string, isSpace: char -> bool)
  {
    exists k :: TrimmedAt(r, s, isSpace, k)
  }

  /** `r` is the slice of `s` from `k`, and every character of `s` outside it satisfies `isSpace`. */
  predicate TrimmedAt(r: string, s: string, isSpace: char -> bool, k: int)
  {
    0 <= k && k + |r| <= |s| && r == s[k..k + |r|] &&
    forall j :: 0 <= j < |s| && (j < k || k + |r| <= j) ==> isSpace(s[j])
  }

  lemma TrimIsTrimOf(s: string, isSpace: char -> bool)
    ensures IsTrimOf(Trim(s, isSpace), s, isSpace)
  {
    assert TrimmedAt(Trim(s, isSpace), s, isSpace, |s| - |TrimStart(s, isSpace)|);
  }

  lemma TrimIsSubsequence(s: string, isSpace: char -> bool)
    ensures IsSubsequence(Trim(s, isSpace), s)
  {
    var lead := |s| - |TrimStart(s, isSpace)|;
    SliceIsSubsequence(s, lead, lead + |Trim(s, isSpace)|);
  }

  /** `sep.join(parts)` */
  function Join(parts: seq<string>, sep: string): string
  {
    if parts == [] then ""
    else if |parts| == 1 then parts[0]
    else parts[0] + sep + Join(parts[1..], sep)
  }

  /**
    When the separator is made of `p` characters, a joined string is made of `p`
    characters exactly when every part is.
  */
  lemma {:induction false} JoinAllSatisfy(parts: seq<string>, sep: string, p: char -> bool)
    requires AllSatisfy(sep, p)
    ensures AllSatisfy(Join(parts, sep), p) <==> forall i :: 0 <= i < |parts| ==> AllSatisfy(parts[i], p)
  {
    if |parts| > 1 {
      JoinAllSatisfy(parts[1..], sep, p);
      var rest := Join(parts[1..], sep);
      ConcatAllSatisfy(parts[0], sep, p);
      ConcatAllSatisfy(parts[0] + sep, rest, p);
      forall i | 1 <= i < |parts|
        ensures parts[i] == parts[1..][i - 1]
      {
      }
    }
  }

  lemma ConcatAllSatisfy(a: string, b: string, p: char -> bool)
    ensures AllSatisfy(a + b, p) <==> AllSatisfy(a, p) && AllSatisfy(b, p)
  {
    if AllSatisfy(a, p) && AllSatisfy(b, p) {
      forall k | 0 <= k < |a + b|
        ensures p((a + b)[k])
      {
        if k >= |a| {
          assert (a + b)[k] == b[k - |a|];
        }
      }
    }
    if AllSatisfy(a + b, p) {
      forall k | 0 <= k < |a|
        ensures p(a[k])
      {
        assert (a + b)[k] == a[k];
      }
      forall k | 0 <= k < |b|
        ensures p(b[k])
      {
        assert (a + b)[|a| + k] == b[k];
      }
    }
  }
}
