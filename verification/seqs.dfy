/** Sequence helpers: sums, removal by index and the sub-list relation. */
module Seqs {

  /** Sum of `f` over `s`, folded from the left as `Array.prototype.reduce` with
      initial value 0 does. */
  function Sum<T>(s: seq<T>, f: T -> real): real
  {
    if |s| == 0 then 0.0 else Sum(s[..|s| - 1], f) + f(s[|s| - 1])
  }

  /** `s.filter((_, i) => i !== index)`, walking the elements with their
      position `offset + k`. */
  function DropIndex<T>(s: seq<T>, index: int, offset: int): (r: seq<T>)
    ensures offset <= index < offset + |s| ==> r == s[..index - offset] + s[index - offset + 1..]
    ensures !(offset <= index < offset + |s|) ==> r == s
    decreases |s|
  {
    if |s| == 0 then []
    else
      var rest := DropIndex(s[1..], index, offset + 1);
      if offset == index then
        assert s[..0] + s[1..] == s[1..];
        rest
      else if offset < index < offset + |s| then
        var j := index - offset;
        assert [s[0]] + s[1..][..j - 1] == s[..j];
        assert s[1..][j..] == s[j + 1..];
        [s[0]] + rest
      else
        assert [s[0]] + s[1..] == s;
        [s[0]] + rest
  }

  /** Removes position `index` and keeps the order of the rest; an index
      outside the sequence removes nothing. */
  function RemoveAt<T>(s: seq<T>, index: int): (r: seq<T>)
    ensures 0 <= index < |s| ==> |r| == |s| - 1
    ensures 0 <= index < |s| ==> forall k :: 0 <= k < index ==> r[k] == s[k]
    ensures 0 <= index < |s| ==> forall k :: index <= k < |r| ==> r[k] == s[k + 1]
    ensures !(0 <= index < |s|) ==> r == s
  {
    DropIndex(s, index, 0)
  }

  /** `a` is obtained from `b` by deleting elements: relative order is kept. */
  ghost predicate IsSubseq<T>(a: seq<T>, b: seq<T>)
    decreases |b|
  {
    |a| == 0 || (|b| > 0 && ((a[0] == b[0] && IsSubseq(a[1..], b[1..])) || IsSubseq(a, b[1..])))
  }

  lemma {:induction false} SubseqLength<T>(a: seq<T>, b: seq<T>)
    requires IsSubseq(a, b)
    ensures |a| <= |b|
    decreases |b|
  {
    if |a| > 0 {
      if a[0] == b[0] && IsSubseq(a[1..], b[1..]) {
        SubseqLength(a[1..], b[1..]);
      } else {
        SubseqLength(a, b[1..]);
      }
    }
  }

  lemma {:induction false} SumAppend<T>(a: seq<T>, b: seq<T>, f: T -> real)
    ensures Sum(a + b, f) == Sum(a, f) + Sum(b, f)
    decreases |b|
  {
    if |b| == 0 {
      assert a + b == a;
    } else {
      assert (a + b)[..|a + b| - 1] == a + b[..|b| - 1];
      SumAppend(a, b[..|b| - 1], f);
    }
  }

  lemma {:induction false} SumSingle<T>(x: T, f: T -> real)
    ensures Sum([x], f) == f(x)
  {
    assert [x][..0] == [];
  }

  /** Removing one element lowers the sum by exactly that element's share. */
  lemma {:induction false} SumRemoveAt<T>(s: seq<T>, i: int, f: T -> real)
    requires 0 <= i < |s|
    ensures Sum(RemoveAt(s, i), f) == Sum(s, f) - f(s[i])
  {
    assert s == s[..i] + [s[i]] + s[i + 1..];
    assert RemoveAt(s, i) == s[..i] + s[i + 1..];
    SumAppend(s[..i] + [s[i]], s[i + 1..], f);
    SumAppend(s[..i], [s[i]], f);
    SumAppend(s[..i], s[i + 1..], f);
    SumSingle(s[i], f);
  }

  /** Removing one element removes one copy of it from the multiset. */
  lemma MultisetRemoveAt<T>(s: seq<T>, i: int)
    requires 0 <= i < |s|
    ensures multiset(RemoveAt(s, i)) == multiset(s) - multiset{s[i]}
  {
    assert s == s[..i] + [s[i]] + s[i + 1..];
    assert RemoveAt(s, i) == s[..i] + s[i + 1..];
  }

  /** The sum does not depend on the order of the elements. */
  lemma {:induction false} SumPermutation<T>(a: seq<T>, b: seq<T>, f: T -> real)
    requires multiset(a) == multiset(b)
    ensures Sum(a, f) == Sum(b, f)
    decreases |a|
  {
    if |a| > 0 {
      var x := a[|a| - 1];
      var a' := a[..|a| - 1];
      MultisetRemoveAt(a, |a| - 1);
      assert RemoveAt(a, |a| - 1) == a';
      assert x in multiset(b);
      var j :| 0 <= j < |b| && b[j] == x;
      var b' := RemoveAt(b, j);
      MultisetRemoveAt(b, j);
      SumPermutation(a', b', f);
      SumRemoveAt(b, j, f);
    }
  }
}
