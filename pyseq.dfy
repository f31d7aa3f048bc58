/**
 * Python list operations whose edge cases matter to the scripts:
 * `list.index`, `list.remove` (first occurrence only) and slicing `s[start:]`.
 */
module PySeq {

  /** No element occurs twice. */
  predicate Distinct<T(==)>(s: seq<T>)
  {
    forall i, j :: 0 <= i < j < |s| ==> s[i] != s[j]
  }

  /** In a duplicate-free list an element occurs at most once. */
  lemma {:induction false} DistinctCount<T>(s: seq<T>, x: T)
    requires Distinct(s) && x in s
    ensures multiset(s)[x] == 1
  {
    var i := IndexOf(s, x);
    assert s == s[..i] + [x] + s[i + 1..];
    assert x !in s[i + 1..] by {
      forall j | i < j < |s| ensures s[j] != x {
        assert s[i] == x;
      }
    }
  }

  /** `r` is `s` with some elements left out, the rest kept in the order
      of `s`: the first element of `s` is either the first one kept or
      skipped. This is what a list comprehension with an `if` returns. */
  ghost predicate IsSubsequence<T>(r: seq<T>, s: seq<T>)
    decreases |s|
  {
    if r == [] then true
    else if s == [] then false
    else (r[0] == s[0] && IsSubsequence(r[1..], s[1..])) || IsSubsequence(r, s[1..])
  }

  /** A new first element of the list may be kept or left out. */
  lemma SubsequenceCons<T>(x: T, r: seq<T>, s: seq<T>)
    requires IsSubsequence(r, s)
    ensures IsSubsequence([x] + r, [x] + s)
    ensures IsSubsequence(r, [x] + s)
  {
    assert ([x] + r)[1..] == r && ([x] + s)[1..] == s;
  }

  /** A new last element of the list may be kept or left out. */
  lemma {:induction false} SubsequenceSnoc<T>(r: seq<T>, s: seq<T>, x: T)
    requires IsSubsequence(r, s)
    ensures IsSubsequence(r + [x], s + [x])
    ensures IsSubsequence(r, s + [x])
  {
    if s == [] {
      assert r == [];
      assert (r + [x])[1..] == [] && (s + [x])[1..] == [];
    } else {
      assert (s + [x])[1..] == s[1..] + [x];
      if r == [] {
        SubsequenceSnoc(r, s[1..], x);
        assert r + [x] == [x];
      } else {
        assert (r + [x])[1..] == r[1..] + [x];
        if r[0] == s[0] && IsSubsequence(r[1..], s[1..]) {
          SubsequenceSnoc(r[1..], s[1..], x);
        } else {
          SubsequenceSnoc(r, s[1..], x);
        }
      }
    }
  }

  /** `list.index(x)`: the position of the first occurrence of `x`. */
  function IndexOf<T(==)>(s: seq<T>, x: T): (i: nat)
    requires x in s
    ensures i < |s| && s[i] == x && x !in s[..i]
  {
    if s[0] == x then 0 else 1 + IndexOf(s[1..], x)
  }

  /** The first occurrence found by a left-to-right scan is `list.index`. */
  lemma {:induction false} IndexOfIs<T>(s: seq<T>, x: T, i: int)
    requires 0 <= i < |s| && s[i] == x && x !in s[..i]
    ensures IndexOf(s, x) == i
  {
    if i > 0 {
      assert s[0] in s[..i];
      assert s[1..][..i - 1] == s[..i][1..];
      IndexOfIs(s[1..], x, i - 1);
    }
  }

  /** `list.remove(x)`: drops the first occurrence of `x`; a list without `x`
      is left as it is (Python raises there, and every caller tests first). */
  function RemoveFirst<T(==)>(s: seq<T>, x: T): (r: seq<T>)
    ensures multiset(r) == multiset(s) - multiset{x}
    ensures x in s ==> |r| == |s| - 1
  {
    if x in s then
      var k := IndexOf(s, x);
      assert s == s[..k] + [x] + s[k + 1..];
      s[..k] + s[k + 1..]
    else s
  }

  /** Where each element of `s.remove(x)` came from. */
  lemma RemoveFirstAt<T>(s: seq<T>, x: T, i: int)
    requires x in s && 0 <= i < |s| - 1
    ensures RemoveFirst(s, x)[i] == s[if i < IndexOf(s, x) then i else i + 1]
  {
    var k := IndexOf(s, x);
    assert RemoveFirst(s, x) == s[..k] + s[k + 1..];
  }

  /** `remove` keeps every element other than `x`. */
  lemma RemoveFirstKeeps<T>(s: seq<T>, x: T, y: T)
    requires y != x
    ensures y in RemoveFirst(s, x) <==> y in s
  {
    assert multiset(RemoveFirst(s, x))[y] == multiset(s)[y];
  }

  /** `remove` adds nothing: every element it leaves was there before. */
  lemma RemoveFirstSubset<T>(s: seq<T>, x: T)
    ensures forall y :: y in RemoveFirst(s, x) ==> y in s
  {
    forall y | y in RemoveFirst(s, x) ensures y in s {
      assert multiset(RemoveFirst(s, x))[y] > 0;
    }
  }

  /** In a duplicate-free list, `remove` takes out every occurrence, keeps
      every other element and leaves the list duplicate-free. */
  lemma RemoveFirstDistinct<T>(s: seq<T>, x: T)
    requires Distinct(s)
    ensures x !in RemoveFirst(s, x)
    ensures Distinct(RemoveFirst(s, x))
    ensures forall y :: y != x ==> (y in RemoveFirst(s, x) <==> y in s)
  {
    var r := RemoveFirst(s, x);
    if x in s {
      var k := IndexOf(s, x);
      forall i, j | 0 <= i < j < |r| ensures r[i] != r[j] {
        RemoveFirstAt(s, x, i);
        RemoveFirstAt(s, x, j);
      }
      forall i | 0 <= i < |r| ensures r[i] != x {
        RemoveFirstAt(s, x, i);
      }
    }
    forall y | y != x ensures y in r <==> y in s {
      RemoveFirstKeeps(s, x, y);
    }
  }

  /** Cutting position `i` out of a duplicate-free list leaves it
      duplicate-free and without that element, and so does moving that
      element to the end. */
  lemma DistinctCut<T>(s: seq<T>, i: int)
    requires Distinct(s) && 0 <= i < |s|
    ensures Distinct(s[..i] + s[i + 1..]) && s[i] !in s[..i] + s[i + 1..]
    ensures Distinct(s[..i] + s[i + 1..] + [s[i]])
  {
    var r := s[..i] + s[i + 1..];
    assert forall k :: 0 <= k < |r| ==> r[k] == s[if k < i then k else k + 1];
    var t := r + [s[i]];
    assert forall k :: 0 <= k < |t| ==> t[k] == s[if k < i then k else if k < |r| then k + 1 else i];
  }

  /** A duplicate-free list has as many elements as the set of them. */
  lemma {:induction false} DistinctCard<T>(s: seq<T>)
    requires Distinct(s)
    ensures |set x | x in s| == |s|
  {
    if s != [] {
      var t := s[..|s| - 1];
      assert Distinct(t);
      DistinctCard(t);
      assert s == t + [s[|s| - 1]];
      assert s[|s| - 1] !in t;
      assert (set x | x in s) == (set x | x in t) + {s[|s| - 1]};
    }
  }

  /** The position of `x` just appended to a list that lacked it. */
  lemma {:induction false} IndexOfAppended<T>(s: seq<T>, x: T)
    requires x !in s
    ensures x in s + [x] && IndexOf(s + [x], x) == |s|
  {
    if s != [] {
      assert (s + [x])[1..] == s[1..] + [x];
      IndexOfAppended(s[1..], x);
    }
  }

  /** Removing what was just appended, when it was not there before, gives
      back the original list (the rollback of a failed save). */
  lemma RemoveAppended<T>(s: seq<T>, x: T)
    requires x !in s
    ensures RemoveFirst(s + [x], x) == s
  {
    IndexOfAppended(s, x);
    assert (s + [x])[..|s|] == s;
  }

  /** Python's slice `s[start:]`: a negative `start` counts from the end, and
      out-of-range starts are clamped. */
  function SliceFrom<T>(s: seq<T>, start: int): (r: seq<T>)
    ensures |r| <= |s| && r == s[|s| - |r|..]
    ensures start >= 0 ==> |r| == if start <= |s| then |s| - start else 0
    ensures start < 0 ==> |r| == if -start <= |s| then -start else |s|
  {
    var k := if start >= 0 then (if start <= |s| then start else |s|)
             else (if -start <= |s| then |s| + start else 0);
    s[k..]
  }
}
