/** How prompt blocks are framed before hashing: length in decimal, NUL, chunk, NUL. */
module HashFraming {
  import opened Text

  type Byte = b: int | 0 <= b < 256
  type Bytes = seq<Byte>

  /** The decimal digits of `n`, as `strconv.Itoa` writes them. */
  function Itoa(n: nat): (d: Bytes)
    ensures d != [] && forall i :: 0 <= i < |d| ==> 48 <= d[i] <= 57
  {
    if n < 10 then [48 + n] else Itoa(n / 10) + [48 + n % 10]
  }

  function Atoi(d: Bytes): int {
    if d == [] then 0
    else
      var last: int := d[|d| - 1];
      10 * Atoi(d[..|d| - 1]) + (last - 48)
  }

  lemma {:induction false} ItoaAtoi(n: nat)
    ensures Atoi(Itoa(n)) == n
  {
    var d := Itoa(n);
    if n < 10 {
      assert Atoi(d[..0]) == 0;
    } else {
      ItoaAtoi(n / 10);
      assert d[..|d| - 1] == Itoa(n / 10);
    }
  }

  function Frame(chunk: Bytes): Bytes {
    Itoa(|chunk|) + [0] + chunk + [0]
  }

  function Frames(chunks: seq<Bytes>): Bytes {
    if chunks == [] then [] else Frame(chunks[0]) + Frames(chunks[1..])
  }

  lemma {:induction false} FramesAppend(a: seq<Bytes>, b: seq<Bytes>)
    ensures Frames(a + b) == Frames(a) + Frames(b)
  {
    if a == [] {
      assert a + b == b;
    } else {
      assert (a + b)[0] == a[0] && (a + b)[1..] == a[1..] + b;
      FramesAppend(a[1..], b);
      Assoc(Frame(a[0]), Frames(a[1..]), Frames(b));
    }
  }

  /** What stands in front of the first NUL is determined. */
  lemma UntilNul(a: Bytes, x: Bytes, b: Bytes, y: Bytes)
    requires 0 !in a && 0 !in b && a + [0] + x == b + [0] + y
    ensures a == b && x == y
  {
    var s, t := a + [0] + x, b + [0] + y;
    assert s[|a|] == 0 && t[|b|] == 0;
    assert forall i :: 0 <= i < |a| ==> s[i] == a[i];
    assert forall i :: 0 <= i < |b| ==> t[i] == b[i];
    assert s[..|a|] == a && t[..|b|] == b && s[|a| + 1..] == x && t[|b| + 1..] == y;
  }

  /** A frame can be taken off the front in only one way. */
  lemma FrameUnique(c: Bytes, x: Bytes, d: Bytes, y: Bytes)
    requires Frame(c) + x == Frame(d) + y
    ensures c == d && x == y
  {
    var c', d' := c + [0] + x, d + [0] + y;
    assert Frame(c) + x == Itoa(|c|) + [0] + c';
    assert Frame(d) + y == Itoa(|d|) + [0] + d';
    UntilNul(Itoa(|c|), c', Itoa(|d|), d');
    ItoaAtoi(|c|);
    ItoaAtoi(|d|);
    assert c == c'[..|c|] && d == d'[..|d|] && x == c'[|c| + 1..] && y == d'[|d| + 1..];
  }

  lemma FramesEmpty(chunks: seq<Bytes>)
    ensures Frames(chunks) == [] <==> chunks == []
  {
    if chunks != [] {
      assert |Frame(chunks[0])| > 0;
    }
  }

  /** Framing is injective over sequences of chunks, whatever bytes the chunks hold. */
  lemma {:induction false} FramesInjective(a: seq<Bytes>, b: seq<Bytes>)
    requires Frames(a) == Frames(b)
    ensures a == b
    decreases |a|
  {
    if a == [] || b == [] {
      FramesEmpty(a);
      FramesEmpty(b);
    } else {
      FrameUnique(a[0], Frames(a[1..]), b[0], Frames(b[1..]));
      FramesInjective(a[1..], b[1..]);
      assert a == [a[0]] + a[1..] && b == [b[0]] + b[1..];
    }
  }

  type Fingerprint = Bytes

  /** A digest in use: distinct inputs have distinct fingerprints, as SHA-256 is taken to have. */
  ghost predicate Collisionless(hash: Bytes -> Fingerprint) {
    forall x, y :: hash(x) == hash(y) ==> x == y
  }

  /** A running hash over everything written to it. */
  class Hasher {
    const hash: Bytes -> Fingerprint
    var written: Bytes

    constructor (hash: Bytes -> Fingerprint)
      ensures this.hash == hash && written == []
    {
      this.hash := hash;
      written := [];
    }

    method Write(bytes: Bytes)
      modifies this
      ensures written == old(written) + bytes
    {
      written := written + bytes;
    }

    method Sum() returns (fingerprint: Fingerprint)
      ensures fingerprint == hash(written)
    {
      fingerprint := hash(written);
    }
  }

  method WriteHashChunk(hasher: Hasher, chunk: Bytes)
    modifies hasher
    ensures hasher.written == old(hasher.written) + Frame(chunk)
  {
    var length := Itoa(|chunk|);
    hasher.Write(length);
    hasher.Write([0]);
    hasher.Write(chunk);
    hasher.Write([0]);
  }
}
