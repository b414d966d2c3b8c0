/** What a log of requests counts, entry by entry: the reference the metrics figures are held against. */
module LogCounts {
  import opened Tallies

  /** Which requests are counted: all, or those of one model, account or endpoint. */
  datatype Choice = Any | OfModel(key: string) | OfAccount(key: string) | OfEndpoint(key: string)

  /** Requests without a name go under a dash. */
  function Named(name: string): string {
    if name == "" then "-" else name
  }

  /** A request recorded in the span that is one of those counted. */
  predicate Counts(e: Entry, lo: int, hi: int, c: Choice) {
    && e.Served? && lo <= e.minute < hi
    && match c
       case Any => true
       case OfModel(key) => Named(e.model) == key
       case OfAccount(key) => Named(e.account) == key
       case OfEndpoint(key) => Named(e.endpoint) == key
  }

  function Requests(log: seq<Entry>, lo: int, hi: int, c: Choice): nat {
    if log == [] then 0
    else
      var e := log[|log| - 1];
      Requests(log[..|log| - 1], lo, hi, c) + (if Counts(e, lo, hi, c) then 1 else 0)
  }

  /** Those of them that failed. */
  function Errors(log: seq<Entry>, lo: int, hi: int, c: Choice): nat {
    if log == [] then 0
    else
      var e := log[|log| - 1];
      Errors(log[..|log| - 1], lo, hi, c) + (if Counts(e, lo, hi, c) && !e.ok then 1 else 0)
  }

  function TokensUsed(log: seq<Entry>, lo: int, hi: int, c: Choice): int {
    if log == [] then 0
    else
      var e := log[|log| - 1];
      TokensUsed(log[..|log| - 1], lo, hi, c) + (if Counts(e, lo, hi, c) then e.tokens else 0)
  }

  function CreditsUsed(log: seq<Entry>, lo: int, hi: int, c: Choice): real {
    if log == [] then 0.0
    else
      var e := log[|log| - 1];
      CreditsUsed(log[..|log| - 1], lo, hi, c) + (if Counts(e, lo, hi, c) then e.credits else 0.0)
  }

  /** The latencies of all of them, failed ones included. */
  function TimeTaken(log: seq<Entry>, lo: int, hi: int, c: Choice): int {
    if log == [] then 0
    else
      var e := log[|log| - 1];
      TimeTaken(log[..|log| - 1], lo, hi, c) + (if Counts(e, lo, hi, c) then e.latency else 0)
  }

  /** The latencies of those that succeeded in measurable time. */
  function TimeSampled(log: seq<Entry>, lo: int, hi: int): nat {
    if log == [] then 0
    else
      var e := log[|log| - 1];
      TimeSampled(log[..|log| - 1], lo, hi) + (if Counts(e, lo, hi, Any) && e.ok && e.latency > 0 then e.latency else 0)
  }

  /** How many those were. */
  function SampledIn(log: seq<Entry>, lo: int, hi: int): nat {
    if log == [] then 0
    else
      var e := log[|log| - 1];
      SampledIn(log[..|log| - 1], lo, hi) + (if Counts(e, lo, hi, Any) && e.ok && e.latency > 0 then 1 else 0)
  }

  function CacheRead(log: seq<Entry>, lo: int, hi: int): int {
    if log == [] then 0
    else
      var e := log[|log| - 1];
      CacheRead(log[..|log| - 1], lo, hi) + (if e.Cached? && lo <= e.minute < hi then e.read else 0)
  }

  function CacheWritten(log: seq<Entry>, lo: int, hi: int): int {
    if log == [] then 0
    else
      var e := log[|log| - 1];
      CacheWritten(log[..|log| - 1], lo, hi) + (if e.Cached? && lo <= e.minute < hi then e.write else 0)
  }

  /** The figures of a span are these counts. */
  lemma {:induction false} FiguresAreCounts(log: seq<Entry>, lo: int, hi: int)
    ensures Logged(log, lo, hi).fig
         == Figures(Requests(log, lo, hi, Any), Errors(log, lo, hi, Any), TokensUsed(log, lo, hi, Any), CreditsUsed(log, lo, hi, Any),
                    TimeSampled(log, lo, hi), SampledIn(log, lo, hi), CacheRead(log, lo, hi), CacheWritten(log, lo, hi))
  {
    if log != [] {
      FiguresAreCounts(log[..|log| - 1], lo, hi);
    }
  }

  function CountsOf(log: seq<Entry>, lo: int, hi: int, c: Choice): Counter {
    Counter(Requests(log, lo, hi, c), Errors(log, lo, hi, c), TokensUsed(log, lo, hi, c), CreditsUsed(log, lo, hi, c), TimeTaken(log, lo, hi, c))
  }

  /** The breakdown that a choice is a key of. */
  function Breakdown(t: Tally, c: Choice): Dim
    requires !c.Any?
  {
    match c
    case OfModel(_) => t.byModel
    case OfAccount(_) => t.byAccount
    case OfEndpoint(_) => t.byEndpoint
  }

  /** A row of a breakdown: there is one exactly for the keys that requests came under, with their counts. */
  ghost predicate RowCounts(d: Dim, log: seq<Entry>, lo: int, hi: int, c: Choice)
    requires !c.Any?
  {
    && (c.key in d <==> Requests(log, lo, hi, c) > 0)
    && Count(d, c.key) == CountsOf(log, lo, hi, c)
  }

  /** A row's part in one entry: a request under this key is one more, anything else changes nothing. */
  lemma RowGrows(d: Dim, name: string, e: Entry, key: string)
    requires e.Served?
    ensures var grown := PlusDim(d, DimOf(name, e));
            && (key in grown <==> key in d || Named(name) == key)
            && Count(grown, key)
               == if Named(name) == key then PlusCounter(Count(d, key), Counter(1, if e.ok then 0 else 1, e.tokens, e.credits, e.latency))
                  else Count(d, key)
  {
    CountPlus(d, DimOf(name, e), key);
  }

  lemma NothingGrows(d: Dim, key: string)
    ensures (key in PlusDim(d, map[]) <==> key in d) && Count(PlusDim(d, map[]), key) == Count(d, key)
  {
    PlusDimNone(d);
  }

  function NameFor(e: Entry, c: Choice): string
    requires e.Served? && !c.Any?
  {
    match c
    case OfModel(_) => e.model
    case OfAccount(_) => e.account
    case OfEndpoint(_) => e.endpoint
  }

  lemma PartOf(t: Tally, e: Entry, c: Choice)
    requires !c.Any?
    ensures Breakdown(Plus(t, Contribution(e)), c) == PlusDim(Breakdown(t, c), if e.Served? then DimOf(NameFor(e, c), e) else map[])
  {
  }

  lemma OneMoreEntry(t: Tally, e: Entry, lo: int, hi: int, c: Choice)
    requires !c.Any?
    ensures var d, grown := Breakdown(t, c), Breakdown(Grown(t, e, lo, hi), c);
            && (c.key in grown <==> c.key in d || Counts(e, lo, hi, c))
            && Count(grown, c.key)
               == if Counts(e, lo, hi, c) then PlusCounter(Count(d, c.key), Counter(1, if e.ok then 0 else 1, e.tokens, e.credits, e.latency))
                  else Count(d, c.key)
  {
    PartOf(t, e, c);
    if e.Served? {
      RowGrows(Breakdown(t, c), NameFor(e, c), e, c.key);
    } else {
      NothingGrows(Breakdown(t, c), c.key);
    }
  }

  lemma {:induction false} BreakdownsAreCounts(log: seq<Entry>, lo: int, hi: int, c: Choice)
    requires !c.Any?
    ensures RowCounts(Breakdown(Logged(log, lo, hi), c), log, lo, hi, c)
  {
    if log != [] {
      var front, e := log[..|log| - 1], log[|log| - 1];
      BreakdownsAreCounts(front, lo, hi, c);
      OneMoreEntry(Logged(front, lo, hi), e, lo, hi, c);
      OneMoreCounts(log, front, e, lo, hi, c);
      RowFollows(Breakdown(Logged(front, lo, hi), c), Breakdown(Logged(log, lo, hi), c), log, front, e, lo, hi, c);
    }
  }

  lemma OneMoreCounts(log: seq<Entry>, front: seq<Entry>, e: Entry, lo: int, hi: int, c: Choice)
    requires log != [] && front == log[..|log| - 1] && e == log[|log| - 1]
    ensures Requests(log, lo, hi, c) == Requests(front, lo, hi, c) + (if Counts(e, lo, hi, c) then 1 else 0)
    ensures CountsOf(log, lo, hi, c)
         == if Counts(e, lo, hi, c) then PlusCounter(CountsOf(front, lo, hi, c), Counter(1, if e.ok then 0 else 1, e.tokens, e.credits, e.latency))
            else CountsOf(front, lo, hi, c)
  {
  }

  lemma RowFollows(d: Dim, grown: Dim, log: seq<Entry>, front: seq<Entry>, e: Entry, lo: int, hi: int, c: Choice)
    requires !c.Any? && RowCounts(d, front, lo, hi, c)
    requires c.key in grown <==> c.key in d || Counts(e, lo, hi, c)
    requires Requests(log, lo, hi, c) == Requests(front, lo, hi, c) + (if Counts(e, lo, hi, c) then 1 else 0)
    requires Counts(e, lo, hi, c) ==>
               var one := Counter(1, if e.ok then 0 else 1, e.tokens, e.credits, e.latency);
               && Count(grown, c.key) == PlusCounter(Count(d, c.key), one)
               && CountsOf(log, lo, hi, c) == PlusCounter(CountsOf(front, lo, hi, c), one)
    requires !Counts(e, lo, hi, c) ==> Count(grown, c.key) == Count(d, c.key) && CountsOf(log, lo, hi, c) == CountsOf(front, lo, hi, c)
    ensures RowCounts(grown, log, lo, hi, c)
  {
  }

  /** `r` is the mean of `n` whole numbers that sum to `sum`, rounded down; 0 if there are none. */
  predicate IsMean(sum: nat, n: nat, r: int) {
    if n == 0 then r == 0 else r * n <= sum < r * n + n
  }

  lemma {:induction false} NoSampleNoTime(log: seq<Entry>, lo: int, hi: int)
    ensures SampledIn(log, lo, hi) == 0 ==> TimeSampled(log, lo, hi) == 0
  {
    if log != [] {
      NoSampleNoTime(log[..|log| - 1], lo, hi);
    }
  }
}
