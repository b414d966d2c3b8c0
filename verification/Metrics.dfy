/** What the seven-day ring of minute buckets, its dirty minutes and its stored rows have to agree on. */
module Metrics {
  import opened Basics
  import opened Tallies
  import opened LogCounts

  const RING := 10080

  datatype Bucket = Bucket(minute: int, tally: Tally)

  type Slots = s: seq<Option<Bucket>> | |s| == RING witness seq(RING, i => None)

  /**
   A stored row, as far as it matters: the JSON of some bucket's record, or text that is not one. Marshalling
   and unmarshalling undo each other.
   */
  datatype Row = Written(tally: Tally) | Garbled(text: string)

  function Marshal(t: Tally): (r: Row)
    ensures Unmarshal(r) == Some(t)
  {
    Written(t)
  }

  function Unmarshal(r: Row): Option<Tally> {
    match r
    case Written(t) => Some(t)
    case Garbled(_) => None
  }

  /**
   `slots`, `dirty` and `rows` are the collector's buckets, its unsaved minutes and the store. `saving` are
   the rows a flusher holds between taking them and learning the outcome. `base` is what was restored when
   the process started, and `log` everything recorded since.
   */
  datatype State = State(slots: Slots, dirty: set<int>, saving: map<int, Row>, rows: map<int, Row>, clock: int, base: map<int, Tally>, log: seq<Entry>)

  function Held(slots: Slots, m: int): Option<Tally> {
    var b := slots[m % RING];
    if b.None? || b.value.minute != m then None else Some(b.value.tally)
  }

  function OrZero(t: Option<Tally>): Tally {
    if t.Some? then t.value else ZERO
  }

  function Kept(slots: Slots, m: int): Tally {
    OrZero(Held(slots, m))
  }

  function Stored(rows: map<int, Row>, m: int): Option<Tally> {
    if m in rows then Unmarshal(rows[m]) else None
  }

  function Restored(base: map<int, Tally>, m: int): Tally {
    if m in base then base[m] else ZERO
  }

  /** `kept` is `t` and what the log has recorded for the minute from some point on. */
  ghost predicate Behind(log: seq<Entry>, kept: Tally, t: Tally, m: int) {
    exists k :: BehindFrom(log, kept, t, m, k)
  }

  ghost predicate BehindFrom(log: seq<Entry>, kept: Tally, t: Tally, m: int, k: int) {
    0 <= k <= |log| && kept == Plus(t, Logged(log[k..], m, m + 1))
  }

  /** The ring holds what was restored and everything recorded since. */
  ghost predicate Complete(st: State, m: int) {
    Kept(st.slots, m) == Plus(Restored(st.base, m), Logged(st.log, m, m + 1))
  }

  /** A minute is waiting to be saved, or being saved, or stored as it is held. */
  ghost predicate Durable(st: State, m: int) {
    && (m in st.dirty ==> Held(st.slots, m).Some?)
    && (m in st.saving ==> Held(st.slots, m).Some? && Unmarshal(st.saving[m]).Some?)
    && (m in st.saving && m !in st.dirty ==> Unmarshal(st.saving[m]) == Held(st.slots, m))
    && (m !in st.saving && m !in st.dirty ==> Stored(st.rows, m) == Held(st.slots, m))
  }

  /** What is stored, and what is being saved, lacks only what was recorded late. */
  ghost predicate NothingInvented(st: State, m: int) {
    && Behind(st.log, Kept(st.slots, m), OrZero(Stored(st.rows, m)), m)
    && (m in st.saving ==> Behind(st.log, Kept(st.slots, m), OrZero(Unmarshal(st.saving[m])), m))
  }

  ghost predicate MinuteSound(st: State, m: int) {
    Complete(st, m) && Durable(st, m) && NothingInvented(st, m)
  }

  ghost predicate SlotsSound(slots: Slots, clock: int) {
    forall i :: 0 <= i < RING && slots[i].Some? ==> slots[i].value.minute % RING == i && slots[i].value.minute <= clock
  }

  /** All of the above, for every minute of the retained window and those still to come. */
  ghost predicate Sound(st: State) {
    SlotsSound(st.slots, st.clock) && forall m :: m > st.clock - RING ==> MinuteSound(st, m)
  }

  function Recorded(st: State, e: Entry): State {
    var now := e.minute;
    var bucket := Bucket(now, Plus(Kept(st.slots, now), Contribution(e)));
    st.(slots := st.slots[now % RING := Some(bucket)], dirty := st.dirty + {now}, clock := now, log := st.log + [e])
  }

  lemma HeldAfter(st: State, e: Entry, m: int)
    requires SlotsSound(st.slots, st.clock) && e.minute >= st.clock && m > e.minute - RING
    ensures Held(Recorded(st, e).slots, m) ==
            if m == e.minute then Some(Plus(Kept(st.slots, m), Contribution(e))) else Held(st.slots, m)
  {
    if m != e.minute && m % RING == e.minute % RING {
      assert m >= e.minute + RING;
    }
  }

  lemma LoggedSnoc(log: seq<Entry>, e: Entry, lo: int, hi: int)
    ensures Logged(log + [e], lo, hi) == Grown(Logged(log, lo, hi), e, lo, hi)
  {
    assert (log + [e])[..|log|] == log;
  }

  lemma BehindGrows(log: seq<Entry>, kept: Tally, t: Tally, e: Entry, m: int)
    requires Behind(log, kept, t, m)
    ensures Behind(log + [e], Grown(kept, e, m, m + 1), t, m)
  {
    var k :| BehindFrom(log, kept, t, m, k);
    assert (log + [e])[k..] == log[k..] + [e];
    LoggedSnoc(log[k..], e, m, m + 1);
    PlusAssoc(t, Logged(log[k..], m, m + 1), Contribution(e));
    assert BehindFrom(log + [e], Grown(kept, e, m, m + 1), t, m, k);
  }

  lemma KeptAfter(st: State, e: Entry, m: int)
    requires SlotsSound(st.slots, st.clock) && e.minute >= st.clock && m > e.minute - RING
    ensures Kept(Recorded(st, e).slots, m) == Grown(Kept(st.slots, m), e, m, m + 1)
  {
    HeldAfter(st, e, m);
  }

  lemma GrownOnto(a: Tally, b: Tally, e: Entry, m: int)
    ensures Grown(Plus(a, b), e, m, m + 1) == Plus(a, Grown(b, e, m, m + 1))
  {
    PlusAssoc(a, b, Contribution(e));
  }

  lemma RecordedIsComplete(st: State, e: Entry, m: int)
    requires SlotsSound(st.slots, st.clock) && e.minute >= st.clock && m > e.minute - RING
    requires Complete(st, m)
    ensures Complete(Recorded(st, e), m)
  {
    KeptAfter(st, e, m);
    LoggedSnoc(st.log, e, m, m + 1);
    GrownOnto(Restored(st.base, m), Logged(st.log, m, m + 1), e, m);
  }

  lemma RecordedInventsNothing(st: State, e: Entry, m: int)
    requires SlotsSound(st.slots, st.clock) && e.minute >= st.clock && m > e.minute - RING
    requires NothingInvented(st, m)
    ensures NothingInvented(Recorded(st, e), m)
  {
    KeptAfter(st, e, m);
    BehindGrows(st.log, Kept(st.slots, m), OrZero(Stored(st.rows, m)), e, m);
    if m in st.saving {
      BehindGrows(st.log, Kept(st.slots, m), OrZero(Unmarshal(st.saving[m])), e, m);
    }
  }

  lemma RecordedIsDurable(st: State, e: Entry, m: int)
    requires SlotsSound(st.slots, st.clock) && e.minute >= st.clock && m > e.minute - RING
    requires Durable(st, m)
    ensures Durable(Recorded(st, e), m)
  {
    HeldAfter(st, e, m);
  }

  lemma RecordedIsSound(st: State, e: Entry)
    requires Sound(st) && e.minute >= st.clock
    ensures Sound(Recorded(st, e))
  {
    forall m | m > e.minute - RING
      ensures MinuteSound(Recorded(st, e), m)
    {
      assert MinuteSound(st, m);
      RecordedIsComplete(st, e, m);
      RecordedInventsNothing(st, e, m);
      RecordedIsDurable(st, e, m);
    }
  }

  /** The rows of the dirty minutes that the ring still holds. */
  function DirtyRows(slots: Slots, dirty: set<int>): map<int, Row> {
    map m | m in dirty && Held(slots, m).Some? :: Marshal(Held(slots, m).value)
  }

  function Taken(st: State): State {
    st.(saving := DirtyRows(st.slots, st.dirty), dirty := {})
  }

  lemma BehindNow(log: seq<Entry>, kept: Tally, m: int)
    ensures Behind(log, kept, kept, m)
  {
    PlusZero(kept);
    assert BehindFrom(log, kept, kept, m, |log|);
  }

  lemma TakenIsSound(st: State)
    requires Sound(st) && st.saving == map[]
    ensures Sound(Taken(st))
  {
    forall m | m > st.clock - RING
      ensures MinuteSound(Taken(st), m)
    {
      assert MinuteSound(st, m);
      BehindNow(st.log, Kept(st.slots, m), m);
    }
  }

  function Saved(st: State): State {
    st.(rows := st.rows + st.saving, saving := map[])
  }

  lemma SavedIsSound(st: State)
    requires Sound(st)
    ensures Sound(Saved(st))
  {
    forall m | m > st.clock - RING
      ensures MinuteSound(Saved(st), m)
    {
      assert MinuteSound(st, m);
    }
  }

  /** A failed save may have written some of the rows. */
  function Unsaved(st: State, written: set<int>): State {
    st.(rows := st.rows + (map m | m in st.saving && m in written :: st.saving[m]), dirty := st.dirty + st.saving.Keys, saving := map[])
  }

  lemma UnsavedIsSound(st: State, written: set<int>)
    requires Sound(st)
    ensures Sound(Unsaved(st, written))
  {
    forall m | m > st.clock - RING
      ensures MinuteSound(Unsaved(st, written), m)
    {
      UnsavedMinute(st, written, m);
    }
  }

  lemma UnsavedMinute(st: State, written: set<int>, m: int)
    requires Sound(st) && m > st.clock - RING
    ensures MinuteSound(Unsaved(st, written), m)
  {
    assert MinuteSound(st, m);
    var rows := Unsaved(st, written).rows;
    assert Stored(rows, m) == if m in st.saving && m in written then Unmarshal(st.saving[m]) else Stored(st.rows, m);
  }

  function Since(rows: map<int, Row>, since: int): map<int, Row> {
    map m | m in rows && m >= since :: rows[m]
  }

  /** Old rows are deleted; `now` may be later than anything recorded. */
  function Pruned(st: State, now: int): State {
    st.(rows := Since(st.rows, now - RING), clock := now)
  }

  lemma PrunedIsSound(st: State, now: int)
    requires Sound(st) && now >= st.clock
    ensures Sound(Pruned(st, now))
  {
    forall m | m > now - RING
      ensures MinuteSound(Pruned(st, now), m)
    {
      assert MinuteSound(st, m);
    }
  }

  lemma LaterIsSound(st: State, now: int)
    requires Sound(st) && now >= st.clock
    ensures Sound(st.(clock := now))
  {
    forall m | m > now - RING
      ensures MinuteSound(st.(clock := now), m)
    {
      assert MinuteSound(st, m);
    }
  }

  /** `slots` hold exactly what the rows from `since` on say. */
  ghost predicate Loaded(slots: Slots, rows: map<int, Row>, since: int) {
    forall m :: m >= since ==> Held(slots, m) == Stored(rows, m)
  }

  ghost function Base(rows: map<int, Row>, since: int): map<int, Tally> {
    map m | m in rows && m >= since && Unmarshal(rows[m]).Some? :: Unmarshal(rows[m]).value
  }

  lemma LoadedIsComplete(st: State, m: int, since: int)
    requires m >= since && Held(st.slots, m) == Stored(st.rows, m)
    requires st.log == [] && st.base == Base(st.rows, since)
    ensures Complete(st, m)
  {
    PlusZero(Restored(st.base, m));
    assert Restored(st.base, m) == Kept(st.slots, m);
  }

  lemma LoadedMinute(st: State, m: int, since: int)
    requires m >= since && Held(st.slots, m) == Stored(st.rows, m)
    requires st.dirty == {} && st.saving == map[] && st.log == [] && st.base == Base(st.rows, since)
    ensures MinuteSound(st, m)
  {
    LoadedIsComplete(st, m, since);
    BehindNow(st.log, Kept(st.slots, m), m);
  }

  lemma LoadedIsSound(st: State, now: int)
    requires SlotsSound(st.slots, now) && st.clock == now
    requires Loaded(st.slots, st.rows, now - RING + 1)
    requires st.dirty == {} && st.saving == map[] && st.log == [] && st.base == Base(st.rows, now - RING + 1)
    ensures Sound(st)
  {
    forall m | m > now - RING
      ensures MinuteSound(st, m)
    {
      LoadedMinute(st, m, now - RING + 1);
    }
  }

  /** What the ring answers for the minutes lo up to but not including hi, minute by minute. */
  function Sum(slots: Slots, lo: int, hi: int): Tally
    decreases hi - lo
  {
    if hi <= lo then ZERO
    else if Held(slots, hi - 1).None? then Sum(slots, lo, hi - 1)
    else Plus(Sum(slots, lo, hi - 1), Held(slots, hi - 1).value)
  }

  function SumRestored(base: map<int, Tally>, lo: int, hi: int): Tally
    decreases hi - lo
  {
    if hi <= lo then ZERO else Plus(SumRestored(base, lo, hi - 1), Restored(base, hi - 1))
  }

  lemma PlusNothing(t: Tally, slots: Slots, m: int)
    ensures Held(slots, m).None? ==> Plus(t, Kept(slots, m)) == t
  {
    PlusZero(t);
  }

  lemma SumGrows(slots: Slots, lo: int, hi: int)
    requires lo < hi
    ensures Sum(slots, lo, hi) == Plus(Sum(slots, lo, hi - 1), Kept(slots, hi - 1))
  {
    PlusNothing(Sum(slots, lo, hi - 1), slots, hi - 1);
  }

  lemma {:induction false} SumSplits(slots: Slots, lo: int, mid: int, hi: int)
    requires lo <= mid <= hi
    ensures Sum(slots, lo, hi) == Plus(Sum(slots, lo, mid), Sum(slots, mid, hi))
    decreases hi - mid
  {
    if mid == hi {
      PlusZero(Sum(slots, lo, mid));
    } else {
      SumSplits(slots, lo, mid, hi - 1);
      SumGrows(slots, lo, hi);
      SumGrows(slots, mid, hi);
      PlusAssoc(Sum(slots, lo, mid), Sum(slots, mid, hi - 1), Kept(slots, hi - 1));
    }
  }

  /** What was restored and what was recorded for a span. */
  function History(st: State, lo: int, hi: int): Tally {
    Plus(SumRestored(st.base, lo, hi), Logged(st.log, lo, hi))
  }

  /** Over any span of the retained window the ring answers what the unbounded log would. */
  lemma {:induction false} RingRefinesLog(st: State, lo: int, hi: int)
    requires Sound(st) && lo > st.clock - RING
    ensures Sum(st.slots, lo, hi) == History(st, lo, hi)
    decreases hi - lo
  {
    if hi <= lo {
      NothingLogged(st.log, lo, hi);
      PlusZero(ZERO);
    } else {
      RingRefinesLog(st, lo, hi - 1);
      SumGrows(st.slots, lo, hi);
      LoggedSplits(st.log, lo, hi - 1, hi);
      assert MinuteSound(st, hi - 1);
      PlusSwap(SumRestored(st.base, lo, hi - 1), Logged(st.log, lo, hi - 1), Restored(st.base, hi - 1), Logged(st.log, hi - 1, hi));
    }
  }

  lemma {:induction false} NothingRestored(lo: int, hi: int)
    ensures SumRestored(map[], lo, hi) == ZERO
    decreases hi - lo
  {
    if lo < hi {
      NothingRestored(lo, hi - 1);
      PlusZero(ZERO);
    }
  }

  lemma HistoryIsLog(st: State, lo: int, hi: int)
    requires st.base == map[]
    ensures History(st, lo, hi) == Logged(st.log, lo, hi)
  {
    NothingRestored(lo, hi);
    PlusZero(Logged(st.log, lo, hi));
  }

  /** Where nothing was restored the ring answers exactly what the log recorded. */
  lemma RingIsLog(st: State, lo: int, hi: int)
    requires Sound(st) && lo > st.clock - RING && st.base == map[]
    ensures Sum(st.slots, lo, hi) == Logged(st.log, lo, hi)
  {
    RingRefinesLog(st, lo, hi);
    HistoryIsLog(st, lo, hi);
  }

  /** A sum of `latencySum` over `latencyN` requests, truncated toward zero as Go divides. */
  function Average(sum: int, n: nat): int {
    if n == 0 then sum else if sum >= 0 then sum / n else -(-sum / n)
  }

  datatype Point = Point(time: int, fig: Figures, average: int, p50: int, p95: int)

  ghost function PointOf(time: int, t: Tally): Point {
    Point(time, t.fig, Average(t.fig.latencySum, t.fig.latencyN), Percentile(t.hist, t.fig.latencyN, 50), Percentile(t.hist, t.fig.latencyN, 95))
  }

  function Min(a: int, b: int): int {
    if a < b then a else b
  }

  /** One point for every `step` minutes; the last may cover fewer. */
  ghost function Points(slots: Slots, from: int, now: int, step: nat): seq<Point>
    requires step > 0
    decreases now - from
  {
    if from > now then []
    else [PointOf(from * 60, Sum(slots, from, Min(from + step, now + 1)))] + Points(slots, from + step, now, step)
  }

  /** Minutes lo up to but not including hi. */
  datatype Span = Span(lo: int, hi: int)

  /** The minutes from `from` to `now` cut into spans of `step`; the last may be shorter. */
  function Spans(from: int, now: int, step: nat): (r: seq<Span>)
    requires step > 0
    ensures forall i :: 0 <= i < |r| ==> from <= r[i].lo < r[i].hi <= now + 1
    decreases now - from
  {
    if from > now then [] else [Span(from, Min(from + step, now + 1))] + Spans(from + step, now, step)
  }

  /** Every minute is in exactly one span: they follow each other without a gap. */
  lemma {:induction false} SpansCover(from: int, now: int, step: nat)
    requires step > 0 && from <= now
    ensures var r := Spans(from, now, step);
            && r != [] && r[0].lo == from && r[|r| - 1].hi == now + 1
            && forall i :: 0 < i < |r| ==> r[i - 1].hi == r[i].lo
    decreases now - from
  {
    if from + step <= now {
      SpansCover(from + step, now, step);
    } else {
      assert Spans(from + step, now, step) == [];
    }
  }

  ghost function PointFor(slots: Slots, span: Span): Point {
    PointOf(span.lo * 60, Sum(slots, span.lo, span.hi))
  }

  lemma PointsUnfold(slots: Slots, from: int, now: int, step: nat)
    requires step > 0 && from <= now
    ensures Points(slots, from, now, step) == [PointFor(slots, Span(from, Min(from + step, now + 1)))] + Points(slots, from + step, now, step)
  {
  }

  ghost predicate PointsMatch(slots: Slots, points: seq<Point>, spans: seq<Span>) {
    |points| == |spans| && forall i :: 0 <= i < |points| ==> points[i] == PointFor(slots, spans[i])
  }

  lemma OneMoreMatches(slots: Slots, span: Span, spans: seq<Span>, rest: seq<Point>)
    requires PointsMatch(slots, rest, spans)
    ensures PointsMatch(slots, [PointFor(slots, span)] + rest, [span] + spans)
  {
  }

  /** The points are those of the spans. */
  lemma {:induction false} PointsAreSpans(slots: Slots, from: int, now: int, step: nat)
    requires step > 0
    ensures PointsMatch(slots, Points(slots, from, now, step), Spans(from, now, step))
    decreases now - from
  {
    if from <= now {
      PointsAreSpans(slots, from + step, now, step);
      MatchesFrom(slots, from, now, step);
    }
  }

  lemma MatchesFrom(slots: Slots, from: int, now: int, step: nat)
    requires step > 0 && from <= now
    requires PointsMatch(slots, Points(slots, from + step, now, step), Spans(from + step, now, step))
    ensures PointsMatch(slots, Points(slots, from, now, step), Spans(from, now, step))
  {
    PointsUnfold(slots, from, now, step);
    OneMoreMatches(slots, Span(from, Min(from + step, now + 1)), Spans(from + step, now, step), Points(slots, from + step, now, step));
  }

  /** Each point tells what was restored and recorded in its span. */
  ghost predicate PointsTell(st: State, points: seq<Point>, spans: seq<Span>) {
    |points| == |spans| && forall i :: 0 <= i < |points| ==> Tells(st, points[i], spans[i])
  }

  ghost predicate Tells(st: State, p: Point, span: Span) {
    p == PointOf(span.lo * 60, History(st, span.lo, span.hi))
  }

  lemma PointTells(st: State, span: Span)
    requires Sound(st) && span.lo > st.clock - RING
    ensures Tells(st, PointFor(st.slots, span), span)
  {
    RingRefinesLog(st, span.lo, span.hi);
  }

  /** The answer to a query: totals and breakdowns of everything in the window, and a point for every `step` minutes of it. */
  ghost predicate Answers(st: State, minutes: int, step: int, now: int, points: seq<Point>, totals: Point, byModel: Dim, byAccount: Dim, byEndpoint: Dim) {
    var start := now - Min(minutes, RING) + 1;
    var all := History(st, start, now + 1);
    && totals == PointOf(0, all)
    && byModel == all.byModel && byAccount == all.byAccount && byEndpoint == all.byEndpoint
    && PointsTell(st, points, Spans(start, now, if step < 1 then 1 else step))
  }

  lemma HistoryAnswers(st: State, minutes: int, step: int, now: int, start: int, width: nat, points: seq<Point>, totals: Point, all: Tally)
    requires start == now - Min(minutes, RING) + 1 && width == if step < 1 then 1 else step
    requires all == History(st, start, now + 1)
    requires totals == PointOf(0, all) && PointsTell(st, points, Spans(start, now, width))
    ensures Answers(st, minutes, step, now, points, totals, all.byModel, all.byAccount, all.byEndpoint)
  {
    assert Spans(start, now, width) == Spans(now - Min(minutes, RING) + 1, now, if step < 1 then 1 else step);
  }

  lemma WindowTells(st: State, now: int, start: int, width: nat)
    requires Sound(st) && now >= st.clock && start > now - RING && width > 0
    ensures PointsTell(st, Points(st.slots, start, now, width), Spans(start, now, width))
  {
    var points, spans := Points(st.slots, start, now, width), Spans(start, now, width);
    PointsAreSpans(st.slots, start, now, width);
    forall i | 0 <= i < |points|
      ensures Tells(st, points[i], spans[i])
    {
      PointTells(st, spans[i]);
    }
  }

  lemma WindowAnswers(st: State, minutes: int, step: int, now: int, start: int, width: nat, points: seq<Point>, totals: Point, all: Tally)
    requires Sound(st) && now >= st.clock
    requires start == now - Min(minutes, RING) + 1 && width == if step < 1 then 1 else step
    requires all == Sum(st.slots, start, now + 1)
    requires totals == PointOf(0, all) && points == Points(st.slots, start, now, width)
    ensures Answers(st, minutes, step, now, points, totals, all.byModel, all.byAccount, all.byEndpoint)
  {
    RingRefinesLog(st, start, now + 1);
    WindowTells(st, now, start, width);
    HistoryAnswers(st, minutes, step, now, start, width, points, totals, all);
  }

  /**
   A point is read off the log, entry by entry: its figures count the span's requests and errors and add up their
   tokens, credits and cache tokens; its average is the mean of the latencies sampled, and its percentiles are theirs.
   */
  ghost predicate ReadOff(log: seq<Entry>, lo: int, hi: int, p: Point) {
    && p.fig.requests == Requests(log, lo, hi, Any) && p.fig.errors == Errors(log, lo, hi, Any)
    && p.fig.tokens == TokensUsed(log, lo, hi, Any) && p.fig.credits == CreditsUsed(log, lo, hi, Any)
    && p.fig.cacheRead == CacheRead(log, lo, hi) && p.fig.cacheWrite == CacheWritten(log, lo, hi)
    && IsMean(TimeSampled(log, lo, hi), SampledIn(log, lo, hi), p.average)
    && IsPercentile(log, lo, hi, 50, p.p50) && IsPercentile(log, lo, hi, 95, p.p95)
  }

  /** Every row of a breakdown counts the requests under its key. */
  ghost predicate RowsReadOff(log: seq<Entry>, lo: int, hi: int, byModel: Dim, byAccount: Dim, byEndpoint: Dim) {
    && (forall key :: RowCounts(byModel, log, lo, hi, OfModel(key)))
    && (forall key :: RowCounts(byAccount, log, lo, hi, OfAccount(key)))
    && (forall key :: RowCounts(byEndpoint, log, lo, hi, OfEndpoint(key)))
  }

  lemma RowsAreReadOff(log: seq<Entry>, lo: int, hi: int, t: Tally)
    requires t == Logged(log, lo, hi)
    ensures RowsReadOff(log, lo, hi, t.byModel, t.byAccount, t.byEndpoint)
  {
    forall key
      ensures RowCounts(t.byModel, log, lo, hi, OfModel(key))
      ensures RowCounts(t.byAccount, log, lo, hi, OfAccount(key))
      ensures RowCounts(t.byEndpoint, log, lo, hi, OfEndpoint(key))
    {
      BreakdownsAreCounts(log, lo, hi, OfModel(key));
      BreakdownsAreCounts(log, lo, hi, OfAccount(key));
      BreakdownsAreCounts(log, lo, hi, OfEndpoint(key));
    }
  }

  /** What Go divides is the mean: latencies are sampled only when positive. */
  lemma AverageIsMean(sum: nat, n: nat)
    requires n == 0 ==> sum == 0
    ensures IsMean(sum, n, Average(sum, n))
  {
  }

  lemma SpanIsReadOff(st: State, lo: int, hi: int, p: Point)
    requires st.base == map[] && p == PointOf(p.time, History(st, lo, hi))
    ensures ReadOff(st.log, lo, hi, p)
  {
    HistoryIsLog(st, lo, hi);
    FiguresAreCounts(st.log, lo, hi);
    NoSampleNoTime(st.log, lo, hi);
    AverageIsMean(TimeSampled(st.log, lo, hi), SampledIn(st.log, lo, hi));
    PercentileIsLeastEdge(st.log, lo, hi, 50);
    PercentileIsLeastEdge(st.log, lo, hi, 95);
  }

  /** Where nothing was restored, everything a query answers is read off the unbounded log. */
  lemma QueryIsReadOff(st: State, minutes: int, step: int, now: int, points: seq<Point>, totals: Point, byModel: Dim, byAccount: Dim, byEndpoint: Dim)
    requires st.base == map[] && Answers(st, minutes, step, now, points, totals, byModel, byAccount, byEndpoint)
    ensures var start := now - Min(minutes, RING) + 1;
            var spans := Spans(start, now, if step < 1 then 1 else step);
            && ReadOff(st.log, start, now + 1, totals)
            && |points| == |spans|
            && (forall i :: 0 <= i < |points| ==> points[i].time == spans[i].lo * 60 && ReadOff(st.log, spans[i].lo, spans[i].hi, points[i]))
            && RowsReadOff(st.log, start, now + 1, byModel, byAccount, byEndpoint)
  {
    var start := now - Min(minutes, RING) + 1;
    var spans := Spans(start, now, if step < 1 then 1 else step);
    SpanIsReadOff(st, start, now + 1, totals);
    forall i | 0 <= i < |points|
      ensures points[i].time == spans[i].lo * 60 && ReadOff(st.log, spans[i].lo, spans[i].hi, points[i])
    {
      assert Tells(st, points[i], spans[i]);
      SpanIsReadOff(st, spans[i].lo, spans[i].hi, points[i]);
    }
    HistoryIsLog(st, start, now + 1);
    RowsAreReadOff(st.log, start, now + 1, Logged(st.log, start, now + 1));
  }
}
