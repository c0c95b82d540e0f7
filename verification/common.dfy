/** Small helpers shared by the screen models. */
module Common {

  /** A value that may be absent (JavaScript's `undefined`). */
  datatype Option<+T> = None | Some(value: T)

  /** `sub` can be obtained from `s` by deleting elements, keeping the order of the rest. */
  ghost predicate IsSubsequence<T>(sub: seq<T>, s: seq<T>)
    decreases |s|
  {
    if sub == [] then true
    else if s == [] then false
    else (sub[0] == s[0] && IsSubsequence(sub[1..], s[1..])) || IsSubsequence(sub, s[1..])
  }

  /**
   * `Array.prototype.filter`: the elements of `s` that satisfy `p`, in their
   * original order, each as often as it occurs in `s`.
   */
  function Where<T>(s: seq<T>, p: T -> bool): (r: seq<T>)
    ensures |r| <= |s|
    ensures IsSubsequence(r, s)
    ensures forall x :: x in r ==> x in s && p(x)
    ensures forall x :: x in s ==> multiset(r)[x] == if p(x) then multiset(s)[x] else 0
  {
    if s == [] then []
    else
      assert s == [s[0]] + s[1..];
      var rest := Where(s[1..], p);
      if p(s[0]) then [s[0]] + rest else rest
  }

  /** A sequence is a subsequence of itself. */
  lemma {:induction false} SubsequenceOfSelf<T>(s: seq<T>)
    ensures IsSubsequence(s, s)
  {
    if s != [] {
      SubsequenceOfSelf(s[1..]);
    }
  }

  /** Filtering a sequence with a known first element. */
  lemma WhereCons<T>(x: T, s: seq<T>, p: T -> bool)
    ensures Where([x] + s, p) == (if p(x) then [x] else []) + Where(s, p)
  {
    assert ([x] + s)[1..] == s;
  }

  /** The filter is empty exactly when no element satisfies the predicate. */
  lemma WhereEmpty<T>(s: seq<T>, p: T -> bool)
    ensures Where(s, p) == [] <==> forall x :: x in s ==> !p(x)
  {
    if Where(s, p) == [] {
      forall x | x in s ensures !p(x) {
        assert multiset(Where(s, p))[x] == 0;
        assert multiset(s)[x] > 0;
      }
    } else {
      assert Where(s, p)[0] in Where(s, p);
    }
  }

  /** How many elements of `s` satisfy `p`. */
  function Count<T>(s: seq<T>, p: T -> bool): nat
  {
    if s == [] then 0 else (if p(s[0]) then 1 else 0) + Count(s[1..], p)
  }

  /** The filter keeps exactly as many elements as satisfy the predicate. */
  lemma {:induction false} WhereLength<T>(s: seq<T>, p: T -> bool)
    ensures |Where(s, p)| == Count(s, p)
  {
    if s != [] {
      WhereLength(s[1..], p);
    }
  }

  /** Counting from position `k` on: element `k`, then the rest. */
  lemma CountFrom<T>(s: seq<T>, k: nat, p: T -> bool)
    requires k < |s|
    ensures Count(s[k..], p) == (if p(s[k]) then 1 else 0) + Count(s[k + 1..], p)
  {
    assert s[k..][1..] == s[k + 1..];
  }

  /** The count over six elements, one element at a time. */
  lemma CountOfSix<T>(s: seq<T>, p: T -> bool)
    requires |s| == 6
    ensures Count(s, p) == (if p(s[0]) then 1 else 0) + (if p(s[1]) then 1 else 0)
      + (if p(s[2]) then 1 else 0) + (if p(s[3]) then 1 else 0)
      + (if p(s[4]) then 1 else 0) + (if p(s[5]) then 1 else 0)
  {
    assert s[0..] == s;
    CountFrom(s, 0, p);
    CountFrom(s, 1, p);
    CountFrom(s, 2, p);
    CountFrom(s, 3, p);
    CountFrom(s, 4, p);
    CountFrom(s, 5, p);
    assert s[6..] == [];
  }

  /** The filter's length over six elements, one element at a time. */
  lemma WhereLengthOfSix<T>(s: seq<T>, p: T -> bool)
    requires |s| == 6
    ensures |Where(s, p)| == (if p(s[0]) then 1 else 0) + (if p(s[1]) then 1 else 0)
      + (if p(s[2]) then 1 else 0) + (if p(s[3]) then 1 else 0)
      + (if p(s[4]) then 1 else 0) + (if p(s[5]) then 1 else 0)
  {
    WhereLength(s, p);
    CountOfSix(s, p);
  }
}
