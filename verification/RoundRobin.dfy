/** The counting behind weighted round robin: any full turn of the counter serves every slot once. */
module RoundRobin {
  import opened Basics

  /** One entry of the weighted list: the account it stands for, or `None` while that account is not eligible. */
  type Slot = Option<string>

  /** The slot a counter value stands for. */
  function At(slots: seq<Slot>, p: nat): Slot
    requires slots != []
  {
    slots[p % |slots|]
  }

  predicate AnyEligible(slots: seq<Slot>) {
    exists i :: 0 <= i < |slots| && slots[i].Some?
  }

  lemma ModNext(n: nat, p: nat)
    requires n > 0
    ensures (p + 1) % n == if p % n + 1 == n then 0 else p % n + 1
  {
    var q, r := p / n, p % n;
    assert p == n * q + r;
    if r + 1 == n {
      assert p + 1 == n * (q + 1);
      ModOf(n, q + 1, 0);
    } else {
      ModOf(n, q, r + 1);
    }
  }

  lemma ModOf(n: nat, q: nat, r: nat)
    requires r < n
    ensures (n * q + r) % n == r
  {
    var x := n * q + r;
    assert x == n * (x / n) + x % n;
    assert n * (q - x / n) == x % n - r;
    MulBounds(n, q - x / n);
  }

  lemma MulBounds(n: nat, k: int)
    ensures k >= 1 ==> n * k >= n
    ensures k <= -1 ==> n * k + n <= 0
  {
  }

  lemma ModTurn(n: nat, p: nat)
    requires n > 0
    ensures (p + n) % n == p % n
  {
    assert p == n * (p / n) + p % n && p + n == n * (p / n + 1) + p % n;
    ModOf(n, p / n + 1, p % n);
  }

  /** Every slot comes up within one turn. */
  lemma {:induction false} WithinOneTurn(n: nat, p: nat, i: nat) returns (q: nat)
    requires i < n
    ensures p <= q < p + n && q % n == i
    ensures q - p == if i >= p % n then i - p % n else n + i - p % n
    decreases if i >= p % n then i - p % n else n + i - p % n
  {
    if p % n == i {
      q := p;
    } else {
      ModNext(n, p);
      q := WithinOneTurn(n, p + 1, i);
    }
  }

  lemma FirstExists(slots: seq<Slot>, p: nat)
    requires AnyEligible(slots)
    ensures exists q :: p <= q < p + |slots| && At(slots, q).Some? && forall k :: p <= k < q ==> At(slots, k).None?
  {
    var i :| 0 <= i < |slots| && slots[i].Some?;
    var q := WithinOneTurn(|slots|, p, i);
    while exists k :: p <= k < q && At(slots, k).Some?
      invariant p <= q < p + |slots| && At(slots, q).Some?
      decreases q - p
    {
      var k :| p <= k < q && At(slots, k).Some?;
      q := k;
    }
  }

  /** The first counter value from `p` on that stands for an eligible slot. */
  function First(slots: seq<Slot>, p: nat): (q: nat)
    requires AnyEligible(slots)
    ensures p <= q < p + |slots| && At(slots, q).Some?
    ensures forall k :: p <= k < q ==> At(slots, k).None?
  {
    FirstExists(slots, p);
    var q :| p <= q < p + |slots| && At(slots, q).Some? && forall k :: p <= k < q ==> At(slots, k).None?;
    q
  }

  /** The accounts `m` consecutive calls return, the counter standing at `counter` before them. */
  function Picks(slots: seq<Slot>, counter: nat, m: nat): (ids: seq<string>)
    requires AnyEligible(slots)
    ensures |ids| == m
    decreases m
  {
    if m == 0 then []
    else
      var q := First(slots, counter + 1);
      [At(slots, q).value] + Picks(slots, q, m - 1)
  }

  /** The counter after `m` consecutive calls. */
  function After(slots: seq<Slot>, counter: nat, m: nat): nat
    requires AnyEligible(slots)
    decreases m
  {
    if m == 0 then counter else After(slots, First(slots, counter + 1), m - 1)
  }

  /** The eligible accounts the counter values from `lo` up to `hi` stand for, in order. */
  function Between(slots: seq<Slot>, lo: nat, hi: nat): seq<string>
    requires slots != []
    decreases hi - lo
  {
    if hi <= lo then []
    else (if At(slots, lo).Some? then [At(slots, lo).value] else []) + Between(slots, lo + 1, hi)
  }

  function Count(ids: seq<string>, id: string): nat {
    if ids == [] then 0 else (if ids[0] == id then 1 else 0) + Count(ids[1..], id)
  }

  /** How many slots stand for `id`, and how many for anyone. */
  function Share(slots: seq<Slot>, id: string): nat {
    if slots == [] then 0 else (if slots[0] == Some(id) then 1 else 0) + Share(slots[1..], id)
  }

  function Total(slots: seq<Slot>): nat {
    if slots == [] then 0 else (if slots[0].Some? then 1 else 0) + Total(slots[1..])
  }

  /** What calls return is what the counter passes over, the ineligible entries left out. */
  lemma {:induction false} PicksAreBetween(slots: seq<Slot>, counter: nat, hi: nat)
    requires AnyEligible(slots) && counter + 1 <= hi
    ensures Picks(slots, counter, |Between(slots, counter + 1, hi)|) == Between(slots, counter + 1, hi)
    decreases hi - counter
  {
    var q := First(slots, counter + 1);
    if q < hi {
      SkipIneligible(slots, counter + 1, q, hi);
      PicksAreBetween(slots, q, hi);
    } else {
      SkipIneligible(slots, counter + 1, hi, hi);
    }
  }

  lemma {:induction false} SkipIneligible(slots: seq<Slot>, lo: nat, q: nat, hi: nat)
    requires slots != [] && lo <= q <= hi && forall k :: lo <= k < q ==> At(slots, k).None?
    ensures Between(slots, lo, hi) == Between(slots, q, hi)
    decreases q - lo
  {
    if lo < q {
      SkipIneligible(slots, lo + 1, q, hi);
      assert [] + Between(slots, lo + 1, hi) == Between(slots, lo + 1, hi);
    }
  }

  lemma {:induction false} BetweenAppend(slots: seq<Slot>, lo: nat, mid: nat, hi: nat)
    requires slots != [] && lo <= mid <= hi
    ensures Between(slots, lo, hi) == Between(slots, lo, mid) + Between(slots, mid, hi)
    decreases mid - lo
  {
    if lo < mid {
      BetweenAppend(slots, lo + 1, mid, hi);
    }
  }

  lemma {:induction false} CountAppend(a: seq<string>, b: seq<string>, id: string)
    ensures Count(a + b, id) == Count(a, id) + Count(b, id)
  {
    if a == [] {
      assert a + b == b;
    } else {
      assert (a + b)[0] == a[0] && (a + b)[1..] == a[1..] + b;
      CountAppend(a[1..], b, id);
    }
  }

  /** Over one turn starting at a multiple of its length, each slot is passed once. */
  lemma {:induction false} FromStart(slots: seq<Slot>, i: nat, id: string)
    requires i <= |slots| && slots != []
    ensures Count(Between(slots, i, |slots|), id) == Share(slots[i..], id)
    ensures |Between(slots, i, |slots|)| == Total(slots[i..])
    decreases |slots| - i
  {
    if i < |slots| {
      FromStart(slots, i + 1, id);
      assert slots[i..][1..] == slots[i + 1..];
      assert i % |slots| == i;
      CountAppend(if slots[i].Some? then [slots[i].value] else [], Between(slots, i + 1, |slots|), id);
      assert slots[i].Some? ==> [slots[i].value][1..] == [];
    }
  }

  /** Where a turn starts does not matter. */
  lemma {:induction false} AnyTurn(slots: seq<Slot>, lo: nat, id: string)
    requires slots != []
    ensures Count(Between(slots, lo, lo + |slots|), id) == Share(slots, id)
    ensures |Between(slots, lo, lo + |slots|)| == Total(slots)
    decreases lo
  {
    if lo == 0 {
      FromStart(slots, 0, id);
      assert slots[0..] == slots;
    } else {
      AnyTurn(slots, lo - 1, id);
      var n := |slots|;
      var one := Between(slots, lo - 1, lo);
      BetweenAppend(slots, lo - 1, lo, lo - 1 + n);
      BetweenAppend(slots, lo, lo - 1 + n, lo + n);
      ModTurn(n, lo - 1);
      assert At(slots, lo - 1 + n) == At(slots, lo - 1);
      assert Between(slots, lo - 1 + n, lo + n) == one;
      CountAppend(one, Between(slots, lo, lo - 1 + n), id);
      CountAppend(Between(slots, lo, lo - 1 + n), one, id);
    }
  }

  /**
   Exact shares: from any counter value, as many consecutive calls as there are eligible slots return each
   account exactly as often as it has slots, whatever ineligible entries lie between.
   */
  lemma ExactShares(slots: seq<Slot>, counter: nat, id: string)
    requires AnyEligible(slots)
    ensures Count(Picks(slots, counter, Total(slots)), id) == Share(slots, id)
  {
    AnyTurn(slots, counter + 1, id);
    PicksAreBetween(slots, counter, counter + 1 + |slots|);
  }

  /** The same over any number of full turns: no account runs ahead of its share. */
  lemma {:induction false} ExactSharesOver(slots: seq<Slot>, counter: nat, turns: nat, id: string)
    requires AnyEligible(slots)
    ensures Count(Picks(slots, counter, turns * Total(slots)), id) == turns * Share(slots, id)
    decreases turns
  {
    if turns > 0 {
      var w := Total(slots);
      var rest := (turns - 1) * w;
      assert turns * w == w + rest && turns * Share(slots, id) == Share(slots, id) + (turns - 1) * Share(slots, id);
      ExactShares(slots, counter, id);
      ExactSharesOver(slots, After(slots, counter, w), turns - 1, id);
      SharesAppend(slots, counter, w, rest, id);
    }
  }

  lemma SharesAppend(slots: seq<Slot>, counter: nat, a: nat, b: nat, id: string)
    requires AnyEligible(slots)
    ensures Count(Picks(slots, counter, a + b), id)
         == Count(Picks(slots, counter, a), id) + Count(Picks(slots, After(slots, counter, a), b), id)
  {
    PicksAppend(slots, counter, a, b);
    CountAppend(Picks(slots, counter, a), Picks(slots, After(slots, counter, a), b), id);
  }

  lemma {:induction false} PicksAppend(slots: seq<Slot>, counter: nat, a: nat, b: nat)
    requires AnyEligible(slots)
    ensures Picks(slots, counter, a + b) == Picks(slots, counter, a) + Picks(slots, After(slots, counter, a), b)
    decreases a
  {
    if a > 0 {
      PicksAppend(slots, First(slots, counter + 1), a - 1, b);
    }
  }
}
