/** The sums a metrics bucket holds, how they add up, and percentiles read off a latency histogram. */
module Tallies {

  /** A served request, or a prompt-cache split reported for one, in the minute it was recorded. */
  datatype Entry =
    | Served(minute: int, endpoint: string, model: string, account: string, ok: bool, tokens: int, credits: real, latency: int)
    | Cached(minute: int, read: int, write: int)

  datatype Counter = Counter(requests: int, errors: int, tokens: int, credits: real, latency: int)

  const NO_COUNT := Counter(0, 0, 0, 0.0, 0)

  type Dim = map<string, Counter>

  /** One count for each latency edge, and one for what lies above them all. */
  type Hist = h: seq<nat> | |h| == 10 witness [0, 0, 0, 0, 0, 0, 0, 0, 0, 0]

  const EMPTY_HIST: Hist := [0, 0, 0, 0, 0, 0, 0, 0, 0, 0]

  const EDGES: seq<int> := [250, 500, 1000, 2000, 4000, 8000, 16000, 32000, 64000]

  datatype Figures = Figures(requests: int, errors: int, tokens: int, credits: real, latencySum: int, latencyN: nat, cacheRead: int, cacheWrite: int)

  datatype Tally = Tally(fig: Figures, hist: Hist, byModel: Dim, byAccount: Dim, byEndpoint: Dim)

  const ZERO := Tally(Figures(0, 0, 0, 0.0, 0, 0, 0, 0), EMPTY_HIST, map[], map[], map[])

  function Count(d: Dim, key: string): Counter {
    if key in d then d[key] else NO_COUNT
  }

  function PlusCounter(a: Counter, b: Counter): Counter {
    Counter(a.requests + b.requests, a.errors + b.errors, a.tokens + b.tokens, a.credits + b.credits, a.latency + b.latency)
  }

  function PlusDim(a: Dim, b: Dim): Dim {
    map key | key in a.Keys + b.Keys :: PlusCounter(Count(a, key), Count(b, key))
  }

  function PlusHist(a: Hist, b: Hist): Hist {
    seq(10, i requires 0 <= i < 10 => a[i] + b[i])
  }

  function PlusFigures(a: Figures, b: Figures): Figures {
    Figures(a.requests + b.requests, a.errors + b.errors, a.tokens + b.tokens, a.credits + b.credits,
            a.latencySum + b.latencySum, a.latencyN + b.latencyN, a.cacheRead + b.cacheRead, a.cacheWrite + b.cacheWrite)
  }

  function Plus(a: Tally, b: Tally): Tally {
    Tally(PlusFigures(a.fig, b.fig), PlusHist(a.hist, b.hist),
          PlusDim(a.byModel, b.byModel), PlusDim(a.byAccount, b.byAccount), PlusDim(a.byEndpoint, b.byEndpoint))
  }

  lemma CountPlus(a: Dim, b: Dim, key: string)
    ensures Count(PlusDim(a, b), key) == PlusCounter(Count(a, key), Count(b, key))
  {
  }

  lemma SameDim(a: Dim, b: Dim)
    requires a.Keys == b.Keys && forall key :: Count(a, key) == Count(b, key)
    ensures a == b
  {
    forall key | key in a
      ensures a[key] == b[key]
    {
      assert Count(a, key) == Count(b, key);
    }
  }

  lemma PlusDimAssoc(a: Dim, b: Dim, c: Dim)
    ensures PlusDim(PlusDim(a, b), c) == PlusDim(a, PlusDim(b, c))
  {
    var l, r := PlusDim(PlusDim(a, b), c), PlusDim(a, PlusDim(b, c));
    forall key
      ensures Count(l, key) == Count(r, key)
    {
      CountPlus(PlusDim(a, b), c, key);
      CountPlus(a, b, key);
      CountPlus(a, PlusDim(b, c), key);
      CountPlus(b, c, key);
    }
    assert l.Keys == r.Keys;
    SameDim(l, r);
  }

  lemma PlusDimComm(a: Dim, b: Dim)
    ensures PlusDim(a, b) == PlusDim(b, a)
  {
    forall key
      ensures Count(PlusDim(a, b), key) == Count(PlusDim(b, a), key)
    {
      CountPlus(a, b, key);
      CountPlus(b, a, key);
    }
    assert PlusDim(a, b).Keys == PlusDim(b, a).Keys;
    SameDim(PlusDim(a, b), PlusDim(b, a));
  }

  lemma PlusDimNone(a: Dim)
    ensures PlusDim(a, map[]) == a
  {
    forall key
      ensures Count(PlusDim(a, map[]), key) == Count(a, key)
    {
      CountPlus(a, map[], key);
    }
    assert PlusDim(a, map[]).Keys == a.Keys;
    SameDim(PlusDim(a, map[]), a);
  }

  lemma PlusHistLaws(a: Hist, b: Hist, c: Hist)
    ensures PlusHist(PlusHist(a, b), c) == PlusHist(a, PlusHist(b, c))
    ensures PlusHist(a, b) == PlusHist(b, a)
    ensures PlusHist(a, EMPTY_HIST) == a
  {
  }

  lemma FiguresAssoc(a: Figures, b: Figures, c: Figures)
    ensures PlusFigures(PlusFigures(a, b), c) == PlusFigures(a, PlusFigures(b, c))
  {
  }

  lemma PlusAssoc(a: Tally, b: Tally, c: Tally)
    ensures Plus(Plus(a, b), c) == Plus(a, Plus(b, c))
  {
    FiguresAssoc(a.fig, b.fig, c.fig);
    PlusHistLaws(a.hist, b.hist, c.hist);
    PlusDimAssoc(a.byModel, b.byModel, c.byModel);
    PlusDimAssoc(a.byAccount, b.byAccount, c.byAccount);
    PlusDimAssoc(a.byEndpoint, b.byEndpoint, c.byEndpoint);
  }

  lemma PlusComm(a: Tally, b: Tally)
    ensures Plus(a, b) == Plus(b, a)
  {
    PlusHistLaws(a.hist, b.hist, a.hist);
    PlusDimComm(a.byModel, b.byModel);
    PlusDimComm(a.byAccount, b.byAccount);
    PlusDimComm(a.byEndpoint, b.byEndpoint);
  }

  lemma PlusZero(a: Tally)
    ensures Plus(a, ZERO) == a && Plus(ZERO, a) == a
  {
    PlusHistLaws(a.hist, a.hist, a.hist);
    PlusDimNone(a.byModel);
    PlusDimNone(a.byAccount);
    PlusDimNone(a.byEndpoint);
    PlusComm(a, ZERO);
  }

  /** (a + b) + (c + d) == (a + c) + (b + d) */
  lemma PlusSwap(a: Tally, b: Tally, c: Tally, d: Tally)
    ensures Plus(Plus(a, b), Plus(c, d)) == Plus(Plus(a, c), Plus(b, d))
  {
    PlusAssoc(a, b, Plus(c, d));
    PlusAssoc(b, c, d);
    PlusComm(b, c);
    PlusAssoc(c, b, d);
    PlusAssoc(a, c, Plus(b, d));
  }

  /** Either of two sums may take a third addend. */
  lemma PlusOnto(a: Tally, b: Tally, c: Tally)
    ensures Plus(Plus(a, b), c) == Plus(a, Plus(b, c)) == Plus(Plus(a, c), b)
  {
    PlusAssoc(a, b, c);
    PlusComm(b, c);
    PlusAssoc(a, c, b);
  }

  /** A request's latency is sampled when it succeeded and took measurable time. */
  predicate Sampled(e: Entry) {
    e.Served? && e.ok && e.latency > 0
  }

  /** The first edge at or above the latency, or the slot above all edges. */
  function Bin(latency: int, from: nat := 0): (i: nat)
    requires from <= 9
    ensures from <= i <= 9
    decreases 9 - from
  {
    if from < 9 && latency > EDGES[from] then Bin(latency, from + 1) else from
  }

  function DimOf(key: string, e: Entry): Dim
    requires e.Served?
  {
    map[(if key == "" then "-" else key) := Counter(1, if e.ok then 0 else 1, e.tokens, e.credits, e.latency)]
  }

  /** What one entry adds to its minute. */
  function Contribution(e: Entry): Tally {
    match e
    case Served(_, endpoint, model, account, ok, tokens, credits, latency) =>
      Tally(
        Figures(1, if ok then 0 else 1, tokens, credits, if Sampled(e) then latency else 0, if Sampled(e) then 1 else 0, 0, 0),
        if Sampled(e) then EMPTY_HIST[Bin(latency) := 1] else EMPTY_HIST,
        DimOf(model, e), DimOf(account, e), DimOf(endpoint, e))
    case Cached(_, read, write) =>
      Tally(Figures(0, 0, 0, 0.0, 0, 0, read, write), EMPTY_HIST, map[], map[], map[])
  }

  predicate Within(e: Entry, lo: int, hi: int) {
    lo <= e.minute < hi
  }

  /** All entries of the log in minutes lo up to but not including hi, added up. */
  function Logged(log: seq<Entry>, lo: int, hi: int): Tally {
    if log == [] then ZERO
    else
      Grown(Logged(log[..|log| - 1], lo, hi), log[|log| - 1], lo, hi)
  }

  function Grown(t: Tally, e: Entry, lo: int, hi: int): Tally {
    if Within(e, lo, hi) then Plus(t, Contribution(e)) else t
  }

  lemma GrownSplits(l: Tally, r: Tally, e: Entry, lo: int, mid: int, hi: int)
    requires lo <= mid <= hi
    ensures Grown(Plus(l, r), e, lo, hi) == Plus(Grown(l, e, lo, mid), Grown(r, e, mid, hi))
  {
    PlusOnto(l, r, Contribution(e));
  }

  /** Adjacent spans add up. */
  lemma {:induction false} LoggedSplits(log: seq<Entry>, lo: int, mid: int, hi: int)
    requires lo <= mid <= hi
    ensures Logged(log, lo, hi) == Plus(Logged(log, lo, mid), Logged(log, mid, hi))
  {
    if log == [] {
      PlusZero(ZERO);
    } else {
      var front, e := log[..|log| - 1], log[|log| - 1];
      LoggedSplits(front, lo, mid, hi);
      GrownSplits(Logged(front, lo, mid), Logged(front, mid, hi), e, lo, mid, hi);
    }
  }

  lemma {:induction false} NothingLogged(log: seq<Entry>, lo: int, hi: int)
    requires forall e :: e in log ==> !Within(e, lo, hi)
    ensures Logged(log, lo, hi) == ZERO
  {
    if log != [] {
      assert log[|log| - 1] in log;
      NothingLogged(log[..|log| - 1], lo, hi);
    }
  }

  /** Samples in the first k slots. */
  function Cumulative(h: Hist, k: nat): nat
    requires k <= 10
  {
    if k == 0 then 0 else Cumulative(h, k - 1) + h[k - 1]
  }

  /** Sampled latencies of the span that are at most `bound`. */
  function SamplesUpTo(log: seq<Entry>, lo: int, hi: int, bound: int): nat {
    if log == [] then 0
    else
      var e := log[|log| - 1];
      SamplesUpTo(log[..|log| - 1], lo, hi, bound) + (if Within(e, lo, hi) && Sampled(e) && e.latency <= bound then 1 else 0)
  }

  function Samples(log: seq<Entry>, lo: int, hi: int): nat {
    if log == [] then 0
    else
      var e := log[|log| - 1];
      Samples(log[..|log| - 1], lo, hi) + (if Within(e, lo, hi) && Sampled(e) then 1 else 0)
  }

  lemma {:induction false} CumulativePlus(a: Hist, b: Hist, k: nat)
    requires k <= 10
    ensures Cumulative(PlusHist(a, b), k) == Cumulative(a, k) + Cumulative(b, k)
  {
    if k > 0 {
      CumulativePlus(a, b, k - 1);
    }
  }

  lemma {:induction false} CumulativeOfOne(bin: nat, k: nat)
    requires bin < 10 && k <= 10
    ensures Cumulative(EMPTY_HIST[bin := 1], k) == if bin < k then 1 else 0
    ensures Cumulative(EMPTY_HIST, k) == 0
  {
    if k > 0 {
      CumulativeOfOne(bin, k - 1);
    }
  }

  lemma {:induction false} BinIsLeast(latency: int, from: nat, k: nat)
    requires from <= 9 && from <= k < 9
    ensures Bin(latency, from) <= k <==> latency <= EDGES[k]
    decreases 9 - from
  {
    if from < k && latency > EDGES[from] {
      BinIsLeast(latency, from + 1, k);
    }
  }

  /** The histogram of a span counts, up to each edge, the sampled latencies that do not exceed it. */
  lemma {:induction false} HistogramCounts(log: seq<Entry>, lo: int, hi: int, k: nat)
    requires k < 9
    ensures Cumulative(Logged(log, lo, hi).hist, k + 1) == SamplesUpTo(log, lo, hi, EDGES[k])
  {
    CumulativeOfOne(0, k + 1);
    if log != [] {
      var front, e := log[..|log| - 1], log[|log| - 1];
      HistogramCounts(front, lo, hi, k);
      CumulativePlus(Logged(front, lo, hi).hist, Contribution(e).hist, k + 1);
      if Sampled(e) {
        CumulativeOfOne(Bin(e.latency), k + 1);
        BinIsLeast(e.latency, 0, k);
      }
    }
  }

  lemma {:induction false} HistogramCountsAll(log: seq<Entry>, lo: int, hi: int)
    ensures Cumulative(Logged(log, lo, hi).hist, 10) == Samples(log, lo, hi) == Logged(log, lo, hi).fig.latencyN
  {
    CumulativeOfOne(0, 10);
    if log != [] {
      var front, e := log[..|log| - 1], log[|log| - 1];
      HistogramCountsAll(front, lo, hi);
      CumulativePlus(Logged(front, lo, hi).hist, Contribution(e).hist, 10);
      if Sampled(e) {
        CumulativeOfOne(Bin(e.latency), 10);
      }
    }
  }

  /** The rank looked for: the percent of n rounded half up, at least one. */
  function Target(n: nat, percent: nat): nat {
    var t := (n * percent + 50) / 100;
    if t < 1 then 1 else t
  }

  const OVERFLOW := 128000

  /** The slot at which the count first reaches the target. */
  ghost predicate Reaches(h: Hist, target: nat, i: nat)
    requires i < 10
  {
    Cumulative(h, i) < target <= Cumulative(h, i + 1)
  }

  lemma {:induction false} SlotExists(h: Hist, target: nat, k: nat)
    requires k <= 10 && 0 < target <= Cumulative(h, k)
    ensures exists i :: 0 <= i < 10 && Reaches(h, target, i)
    decreases k
  {
    if Cumulative(h, k - 1) < target {
      assert Reaches(h, target, k - 1);
    } else {
      SlotExists(h, target, k - 1);
    }
  }

  lemma {:induction false} CumulativeGrows(h: Hist, j: nat, k: nat)
    requires j <= k <= 10
    ensures Cumulative(h, j) <= Cumulative(h, k)
    decreases k
  {
    if j < k {
      CumulativeGrows(h, j, k - 1);
    }
  }

  lemma SlotIsUnique(h: Hist, target: nat, i: nat, j: nat)
    requires i < 10 && j < 10 && Reaches(h, target, i) && Reaches(h, target, j)
    ensures i == j
  {
    if i < j {
      CumulativeGrows(h, i + 1, j);
    } else if j < i {
      CumulativeGrows(h, j + 1, i);
    }
  }

  ghost function Slot(h: Hist, target: nat): (i: nat)
    requires 0 < target <= Cumulative(h, |h|)
    ensures i < 10 && Reaches(h, target, i)
  {
    SlotExists(h, target, |h|);
    var i: nat :| i < 10 && Reaches(h, target, i);
    i
  }

  /** The edge of the slot in which the sample of the wanted rank lies; twice the last edge above them all. */
  ghost function Percentile(h: Hist, n: nat, percent: nat): int {
    var target := Target(n, percent);
    if n == 0 || Cumulative(h, |h|) < target then 0
    else if Slot(h, target) < 9 then EDGES[Slot(h, target)]
    else OVERFLOW
  }

  method PercentileFromHist(h: Hist, n: nat, percent: nat) returns (r: int)
    ensures r == Percentile(h, n, percent)
  {
    if n == 0 {
      return 0;
    }
    var target := (n * percent + 50) / 100;
    if target < 1 {
      target := 1;
    }
    var acc := 0;
    for i := 0 to 10
      invariant acc == Cumulative(h, i) < target
    {
      acc := acc + h[i];
      if acc >= target {
        CumulativeGrows(h, i + 1, 10);
        SlotIsUnique(h, target, i, Slot(h, target));
        if i < |EDGES| {
          return EDGES[i];
        }
        return EDGES[|EDGES| - 1] * 2;
      }
    }
    return 0;
  }

  /** `r` is the least edge that at least `target` of the span's sampled latencies do not exceed. */
  ghost predicate LeastEdge(log: seq<Entry>, lo: int, hi: int, target: nat, r: int) {
    exists i :: 0 <= i < 9 && r == EDGES[i] && SamplesUpTo(log, lo, hi, EDGES[i]) >= target
                && (i > 0 ==> SamplesUpTo(log, lo, hi, EDGES[i - 1]) < target)
  }

  lemma TargetIsReached(n: nat, percent: nat)
    requires n > 0 && percent <= 100
    ensures 1 <= Target(n, percent) <= n
  {
    assert n * percent <= n * 100 by {
      assert n * (100 - percent) >= 0;
    }
  }

  /**
   `r` is what a percentile of the span has to be: the least bucket edge that enough of its samples do not
   exceed; only when the edges do not reach that far, the overflow value.
   */
  ghost predicate IsPercentile(log: seq<Entry>, lo: int, hi: int, percent: nat, r: int) {
    var target := Target(Samples(log, lo, hi), percent);
    if Samples(log, lo, hi) == 0 then r == 0
    else if SamplesUpTo(log, lo, hi, 64000) < target then r == OVERFLOW
    else LeastEdge(log, lo, hi, target, r)
  }

  /** What is read off the histogram of a span is the percentile of its samples. */
  lemma PercentileIsLeastEdge(log: seq<Entry>, lo: int, hi: int, percent: nat)
    requires percent <= 100
    ensures IsPercentile(log, lo, hi, percent, Percentile(Logged(log, lo, hi).hist, Logged(log, lo, hi).fig.latencyN, percent))
  {
    var h, n := Logged(log, lo, hi).hist, Samples(log, lo, hi);
    HistogramCountsAll(log, lo, hi);
    if n > 0 {
      var target := Target(n, percent);
      TargetIsReached(n, percent);
      var i := Slot(h, target);
      HistogramCounts(log, lo, hi, 8);
      if i < 9 {
        HistogramCounts(log, lo, hi, i);
        if i > 0 {
          HistogramCounts(log, lo, hi, i - 1);
        }
        CumulativeGrows(h, i + 1, 9);
      }
    }
  }
}
