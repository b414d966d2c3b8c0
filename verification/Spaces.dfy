/** White space, and trimming it, as `strings.TrimSpace` does. */
module Spaces {
  import opened Text

  predicate IsSpace(c: char) {
    || '\t' <= c <= '\r' || c == ' ' || c == '\U{85}' || c == '\U{A0}' || c == '\U{1680}'
    || '\U{2000}' <= c <= '\U{200A}' || c == '\U{2028}' || c == '\U{2029}' || c == '\U{202F}'
    || c == '\U{205F}' || c == '\U{3000}'
  }

  function TrimSpace(s: string): (t: string)
    ensures Trimmed(t)
    decreases |s|
  {
    if s == "" then ""
    else if IsSpace(s[0]) then TrimSpace(s[1..])
    else if IsSpace(s[|s| - 1]) then TrimSpace(s[..|s| - 1])
    else s
  }

  /** No white space at either end. */
  predicate Trimmed(s: string) {
    s == "" || (!IsSpace(s[0]) && !IsSpace(s[|s| - 1]))
  }

  predicate AllSpace(s: string) {
    forall i :: 0 <= i < |s| ==> IsSpace(s[i])
  }

  /** `o` with nothing but white space around it. */
  ghost predicate Padded(s: string, o: string) {
    exists a, b :: s == a + o + b && AllSpace(a) && AllSpace(b)
  }

  lemma PaddedBy(s: string, a: string, o: string, b: string)
    requires s == a + o + b && AllSpace(a) && AllSpace(b)
    ensures Padded(s, o)
  {
  }

  lemma PadLeft(c: char, s: string, o: string)
    requires IsSpace(c) && Padded(s, o)
    ensures Padded([c] + s, o)
  {
    var a, b :| s == a + o + b && AllSpace(a) && AllSpace(b);
    assert [c] + s == ([c] + a) + o + b;
    PaddedBy([c] + s, [c] + a, o, b);
  }

  lemma PadRight(s: string, c: char, o: string)
    requires IsSpace(c) && Padded(s, o)
    ensures Padded(s + [c], o)
  {
    var a, b :| s == a + o + b && AllSpace(a) && AllSpace(b);
    assert s + [c] == a + o + (b + [c]);
    PaddedBy(s + [c], a, o, b + [c]);
  }

  /** Trimming takes off white space only. */
  lemma {:induction false} TrimSplits(s: string)
    ensures Padded(s, TrimSpace(s))
    decreases |s|
  {
    if s == "" || (!IsSpace(s[0]) && !IsSpace(s[|s| - 1])) {
      assert s == "" + s + "";
      PaddedBy(s, "", s, "");
    } else if IsSpace(s[0]) {
      TrimSplits(s[1..]);
      PadLeft(s[0], s[1..], TrimSpace(s));
      assert s == [s[0]] + s[1..];
    } else {
      var front, last := s[..|s| - 1], s[|s| - 1];
      TrimSplits(front);
      PadRight(front, last, TrimSpace(s));
      assert s == front + [last];
    }
  }

  /** And all of it. */
  lemma {:induction false} TrimTakesAll(a: string, o: string, b: string)
    requires AllSpace(a) && AllSpace(b) && o != "" && Trimmed(o)
    ensures TrimSpace(a + o + b) == o
    decreases |a| + |b|
  {
    var s := a + o + b;
    if a != "" {
      assert s[0] == a[0] && s[1..] == a[1..] + o + b;
      TrimTakesAll(a[1..], o, b);
    } else if b != "" {
      var front, last := b[..|b| - 1], b[|b| - 1];
      assert b == front + [last];
      assert s == (a + o + front) + [last];
      assert s[0] == o[0] && s[|s| - 1] == last && s[..|s| - 1] == a + o + front;
      TrimTakesAll(a, o, front);
    } else {
      assert s == o;
    }
  }

  /** What trims to a text is that text in white space. */
  lemma TrimIff(s: string, o: string)
    requires o != ""
    ensures TrimSpace(s) == o <==> Trimmed(o) && Padded(s, o)
  {
    TrimSplits(s);
    if Trimmed(o) && Padded(s, o) {
      var a, b :| s == a + o + b && AllSpace(a) && AllSpace(b);
      TrimTakesAll(a, o, b);
    }
  }

  /** The number of characters that are not white space. */
  function Ink(s: string): nat {
    if s == "" then 0 else Ink(s[..|s| - 1]) + (if IsSpace(s[|s| - 1]) then 0 else 1)
  }

  lemma {:induction false} InkAppend(a: string, b: string)
    ensures Ink(a + b) == Ink(a) + Ink(b)
    decreases |b|
  {
    if b == "" {
      assert a + b == a;
    } else {
      var front := b[..|b| - 1];
      assert (a + b)[..|a + b| - 1] == a + front;
      InkAppend(a, front);
    }
  }

  lemma {:induction false} InkOfSpace(s: string)
    requires AllSpace(s)
    ensures Ink(s) == 0
  {
    if s != "" {
      InkOfSpace(s[..|s| - 1]);
    }
  }

  lemma TrimKeepsInk(s: string)
    ensures Ink(TrimSpace(s)) == Ink(s)
  {
    var o := TrimSpace(s);
    TrimSplits(s);
    var a, b :| s == a + o + b && AllSpace(a) && AllSpace(b);
    InkOfSpace(a);
    InkOfSpace(b);
    InkAppend(a + o, b);
    InkAppend(a, o);
  }
}
