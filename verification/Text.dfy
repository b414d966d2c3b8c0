/** Substring search over code points, as `strings.Index` does it. */
module Text {

  lemma Assoc<T>(a: seq<T>, b: seq<T>, c: seq<T>)
    ensures a + (b + c) == (a + b) + c
  {
  }

  lemma Slices<T>(s: seq<T>, n: nat, k: nat)
    requires n + k <= |s|
    ensures s[n..][k..] == s[n + k..]
  {
  }

  /** `pat` occurs in `s` at position `i`. */
  predicate At(s: string, pat: string, i: int) {
    0 <= i && i + |pat| <= |s| && s[i..i + |pat|] == pat
  }

  /** No occurrence of `pat` starts before `k`. */
  ghost predicate NoneBefore(s: string, pat: string, k: int) {
    forall j :: j < k ==> !At(s, pat, j)
  }

  predicate Contains(s: string, pat: string) {
    Index(s, pat) >= 0
  }

  /** The position of the first occurrence of `pat` in `s`, or -1. */
  function Index(s: string, pat: string): (i: int)
    ensures i >= 0 ==> At(s, pat, i) && NoneBefore(s, pat, i)
    ensures i < 0 ==> i == -1 && forall j :: !At(s, pat, j)
  {
    if exists i :: 0 <= i <= |s| && At(s, pat, i) then
      FirstExists(s, pat);
      var i :| 0 <= i <= |s| && At(s, pat, i) && forall j :: 0 <= j < i ==> !At(s, pat, j);
      i
    else
      -1
  }

  lemma FirstExists(s: string, pat: string)
    requires exists i :: At(s, pat, i)
    ensures exists i :: 0 <= i <= |s| && At(s, pat, i) && forall j :: 0 <= j < i ==> !At(s, pat, j)
  {
    var i :| At(s, pat, i);
    while exists j :: 0 <= j < i && At(s, pat, j)
      invariant At(s, pat, i)
      decreases i
    {
      var j :| 0 <= j < i && At(s, pat, j);
      i := j;
    }
  }

  /** A first occurrence is what `Index` finds. */
  lemma IndexIs(s: string, pat: string, i: int)
    requires At(s, pat, i) && NoneBefore(s, pat, i)
    ensures Index(s, pat) == i
  {
  }

  lemma AtDrop(s: string, pat: string, k: nat, j: int)
    requires k <= |s| && j >= k
    ensures At(s, pat, j) <==> At(s[k..], pat, j - k)
  {
    if j + |pat| <= |s| {
      assert s[j..j + |pat|] == s[k..][j - k..j - k + |pat|];
    }
  }

  lemma AtAppend(a: string, b: string, pat: string, j: int)
    requires j + |pat| <= |a|
    ensures At(a, pat, j) <==> At(a + b, pat, j)
  {
    if 0 <= j {
      assert a[j..j + |pat|] == (a + b)[j..j + |pat|];
    }
  }

  /** A prefix in which no occurrence starts shifts the first occurrence by its length. */
  lemma IndexBehind(head: string, tail: string, pat: string)
    requires NoneBefore(head + tail, pat, |head|)
    ensures Index(head + tail, pat) == if Index(tail, pat) < 0 then -1 else |head| + Index(tail, pat)
  {
    var s := head + tail;
    assert s[|head|..] == tail;
    forall j | j >= |head| {
      AtDrop(s, pat, |head|, j);
    }
    var i := Index(tail, pat);
    if i >= 0 {
      forall j | j < |head| + i
        ensures !At(s, pat, j)
      {
        if j >= |head| {
          assert !At(tail, pat, j - |head|);
        }
      }
      IndexIs(s, pat, |head| + i);
    }
  }

  /** More text after an occurrence does not move it. */
  lemma IndexAppend(a: string, b: string, pat: string)
    requires Index(a, pat) >= 0
    ensures Index(a + b, pat) == Index(a, pat)
  {
    var i := Index(a, pat);
    AtAppend(a, b, pat, i);
    forall j | j < i
      ensures !At(a + b, pat, j)
    {
      AtAppend(a, b, pat, j);
      assert !At(a, pat, j);
    }
    IndexIs(a + b, pat, i);
  }

  /** If `a` has no occurrence, one in `a + b` reaches into `b`. */
  lemma NoneBeforeSeam(a: string, b: string, pat: string, k: nat)
    requires Index(a, pat) < 0 && k + |pat| <= |a| + 1
    ensures NoneBefore(a + b, pat, k)
  {
    forall j | j < k
      ensures !At(a + b, pat, j)
    {
      AtAppend(a, b, pat, j);
      assert !At(a, pat, j);
    }
  }
}
