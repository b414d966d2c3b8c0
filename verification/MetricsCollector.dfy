/** The metrics collector: a ring of minute buckets, flushed to a store. */
module MetricsCollector {
  import opened Basics
  import opened Text
  import opened Tallies
  import opened Metrics

  /** Adds one request to the counter of its key. */
  method Bump(mp: Dim, key: string, ok: bool, tokens: int, credits: real, latency: int, ghost e: Entry) returns (r: Dim)
    requires e.Served? && e.ok == ok && e.tokens == tokens && e.credits == credits && e.latency == latency
    ensures r == PlusDim(mp, DimOf(key, e))
  {
    var key := key;
    if key == "" {
      key := "-";
    }
    var c := if key in mp then mp[key] else NO_COUNT;
    c := c.(requests := c.requests + 1);
    if !ok {
      c := c.(errors := c.errors + 1);
    }
    c := c.(tokens := c.tokens + tokens, credits := c.credits + credits, latency := c.latency + latency);
    r := mp[key := c];
    forall k
      ensures Count(r, k) == Count(PlusDim(mp, map[key := Counter(1, if ok then 0 else 1, tokens, credits, latency)]), k)
    {
      CountPlus(mp, map[key := Counter(1, if ok then 0 else 1, tokens, credits, latency)], k);
    }
    SameDim(r, PlusDim(mp, map[key := Counter(1, if ok then 0 else 1, tokens, credits, latency)]));
  }

  /** Adds every counter of `from` to its namesake; the keys come in any order. */
  method BumpAggregate(mp: Dim, from: Dim) returns (r: Dim)
    ensures r == PlusDim(mp, from)
  {
    r := mp;
    var left := from.Keys;
    NoneAdded(mp, from);
    while left != {}
      invariant left <= from.Keys
      invariant AddedBut(r, mp, from, left)
    {
      var k :| k in left;
      var a, c := if k in r then r[k] else NO_COUNT, from[k];
      var more := r[k := Counter(a.requests + c.requests, a.errors + c.errors, a.tokens + c.tokens, a.credits + c.credits, a.latency + c.latency)];
      OneMoreAdded(r, more, mp, from, left, k);
      r := more;
      left := left - {k};
    }
    AllAdded(r, mp, from);
  }

  /** The counter of a key, when all of `from` have been added but those of the keys left. */
  ghost predicate AddedAt(r: Dim, mp: Dim, from: Dim, left: set<string>, key: string) {
    && (key in r <==> key in mp || (key in from && key !in left))
    && Count(r, key) == if key in left then Count(mp, key) else PlusCounter(Count(mp, key), Count(from, key))
  }

  ghost predicate AddedBut(r: Dim, mp: Dim, from: Dim, left: set<string>) {
    forall key :: AddedAt(r, mp, from, left, key)
  }

  lemma OneMoreAdded(r: Dim, more: Dim, mp: Dim, from: Dim, left: set<string>, key: string)
    requires AddedBut(r, mp, from, left) && key in left && left <= from.Keys
    requires more == r[key := PlusCounter(Count(r, key), from[key])]
    ensures AddedBut(more, mp, from, left - {key})
  {
    forall k
      ensures AddedAt(more, mp, from, left - {key}, k)
    {
      assert AddedAt(r, mp, from, left, k);
    }
  }

  lemma AllAdded(r: Dim, mp: Dim, from: Dim)
    requires AddedBut(r, mp, from, {})
    ensures r == PlusDim(mp, from)
  {
    forall k
      ensures Count(r, k) == Count(PlusDim(mp, from), k) && (k in r <==> k in PlusDim(mp, from))
    {
      assert AddedAt(r, mp, from, {}, k);
      CountPlus(mp, from, k);
    }
    assert r.Keys == PlusDim(mp, from).Keys;
    SameDim(r, PlusDim(mp, from));
  }

  lemma NoneAdded(mp: Dim, from: Dim)
    ensures AddedBut(mp, mp, from, from.Keys)
  {
    forall k
      ensures AddedAt(mp, mp, from, from.Keys, k)
    {
      assert k !in from ==> Count(from, k) == NO_COUNT;
    }
  }

  method AddFigures(fig: Figures, more: Figures) returns (r: Figures)
    ensures r == PlusFigures(fig, more)
  {
    r := fig.(requests := fig.requests + more.requests, errors := fig.errors + more.errors);
    r := r.(tokens := r.tokens + more.tokens, credits := r.credits + more.credits);
    r := r.(cacheRead := r.cacheRead + more.cacheRead, cacheWrite := r.cacheWrite + more.cacheWrite);
    r := r.(latencySum := r.latencySum + more.latencySum, latencyN := r.latencyN + more.latencyN);
  }

  method AddHist(hist: Hist, more: Hist) returns (r: Hist)
    ensures r == PlusHist(hist, more)
  {
    r := hist;
    for i := 0 to 10
      invariant forall k :: 0 <= k < 10 ==> r[k] == if k < i then hist[k] + more[k] else hist[k]
    {
      r := r[i := r[i] + more[i]];
    }
  }

  /** Adds a point's figures to the totals that already have its histogram and breakdowns. */
  method AddPoint(fig: Figures, ghost hist: Hist, ghost before: Tally, totals: Tally, ghost sum: Tally) returns (totals': Tally)
    requires Added(fig, hist, totals, before, sum)
    ensures totals' == Plus(before, sum)
  {
    var figures := AddFigures(totals.fig, fig);
    totals' := totals.(fig := figures);
  }

  method PointFrom(time: int, fig: Figures, hist: Hist, ghost sum: Tally) returns (p: Point)
    requires fig == sum.fig && hist == sum.hist
    ensures p == PointOf(time, sum)
  {
    var p50 := PercentileFromHist(hist, fig.latencyN, 50);
    var p95 := PercentileFromHist(hist, fig.latencyN, 95);
    p := Point(time, fig, Average(fig.latencySum, fig.latencyN), p50, p95);
  }

  lemma SomeIn(s: set<int>)
    ensures s == {} || exists m :: m in s
  {
    if forall m :: m !in s {
      assert s == {};
    }
  }

  /** The totals with a tally's histogram and breakdowns added, their figures still to come. */
  ghost function Beside(totals: Tally, t: Tally): Tally {
    Plus(totals, t).(fig := totals.fig)
  }

  lemma BesideStep(totals: Tally, sum: Tally, t: Tally)
    ensures Beside(Beside(totals, sum), t) == Beside(totals, Plus(sum, t))
  {
    PlusAssoc(totals, sum, t);
  }

  lemma BesideZero(totals: Tally)
    ensures Beside(totals, ZERO) == totals
  {
    PlusZero(totals);
  }

  /** A point's figures and histogram are those of `sum`, and the totals have been brought from `before` to include it. */
  ghost predicate Added(fig: Figures, hist: Hist, totals: Tally, before: Tally, sum: Tally) {
    fig == sum.fig && hist == sum.hist && totals == Beside(before, sum)
  }

  /** Adds one bucket to a point's figures and histogram, and its histogram and breakdowns to the totals. */
  method AddTally(fig: Figures, hist: Hist, totals: Tally, t: Tally, ghost before: Tally, ghost sum: Tally)
      returns (fig': Figures, hist': Hist, totals': Tally)
    requires Added(fig, hist, totals, before, sum)
    ensures Added(fig', hist', totals', before, Plus(sum, t))
  {
    BesideStep(before, sum, t);
    fig' := AddFigures(fig, t.fig);
    hist' := AddHist(hist, t.hist);
    var totalHist := AddHist(totals.hist, t.hist);
    var byModel := BumpAggregate(totals.byModel, t.byModel);
    var byAccount := BumpAggregate(totals.byAccount, t.byAccount);
    var byEndpoint := BumpAggregate(totals.byEndpoint, t.byEndpoint);
    totals' := Tally(totals.fig, totalHist, byModel, byAccount, byEndpoint);
  }

  lemma OneMoreSample(h: Hist, i: nat)
    requires i < 10
    ensures h[i := h[i] + 1] == PlusHist(h, EMPTY_HIST[i := 1])
  {
  }

  /** Adds one request to a minute's tally. */
  method AddServed(t: Tally, endpoint: string, model: string, account: string, ok: bool, tokens: int, credits: real, latency: int, ghost e: Entry)
      returns (tally: Tally)
    requires e.Served? && e == Served(e.minute, endpoint, model, account, ok, tokens, credits, latency)
    ensures tally == Plus(t, Contribution(e))
  {
    var fig, hist := t.fig, t.hist;
    fig := fig.(requests := fig.requests + 1);
    if !ok {
      fig := fig.(errors := fig.errors + 1);
    }
    fig := fig.(tokens := fig.tokens + tokens, credits := fig.credits + credits);
    if ok && latency > 0 {
      fig := fig.(latencySum := fig.latencySum + latency, latencyN := fig.latencyN + 1);
      var i := 0;
      while i < |EDGES| && latency > EDGES[i]
        invariant i <= |EDGES| && Bin(latency) == Bin(latency, i)
      {
        i := i + 1;
      }
      OneMoreSample(hist, i);
      hist := hist[i := hist[i] + 1];
    }
    PlusHistLaws(t.hist, t.hist, t.hist);
    var byModel := Bump(t.byModel, model, ok, tokens, credits, latency, e);
    var byAccount := Bump(t.byAccount, account, ok, tokens, credits, latency, e);
    var byEndpoint := Bump(t.byEndpoint, endpoint, ok, tokens, credits, latency, e);
    tally := Tally(fig, hist, byModel, byAccount, byEndpoint);
  }

  /** A table of rows by minute. Whether a write succeeds, and what a failed one left behind, is not its choice. */
  class Store {
    var rows: map<int, Row>

    method LoadMetrics(since: int) returns (r: map<int, Row>)
      ensures r == Since(rows, since)
    {
      r := Since(rows, since);
    }

    method SaveMetrics(more: map<int, Row>, saved: bool, written: set<int>)
      modifies this
      ensures rows == old(rows) + if saved then more else map m | m in more && m in written :: more[m]
    {
      rows := rows + if saved then more else map m | m in more && m in written :: more[m];
    }

    method PruneMetrics(before: int)
      modifies this
      ensures rows == Since(old(rows), before)
    {
      rows := Since(rows, before);
    }
  }

  class Collector {
    const buckets: array<Option<Bucket>>
    var dirty: set<int>
    var store: Store?
    ghost var saving: map<int, Row>
    ghost var clock: int
    ghost var base: map<int, Tally>
    ghost var log: seq<Entry>

    ghost predicate Valid()
      reads this, buckets, store
    {
      && buckets.Length == RING
      && (store == null ==> saving == map[])
      && Sound(Abs())
    }

    ghost function Abs(): State
      requires buckets.Length == RING
      reads this, buckets, store
    {
      State(buckets[..], dirty, saving, if store == null then map[] else store.rows, clock, base, log)
    }

    /** Nothing has happened since the collector was made. */
    ghost predicate Blank()
      reads this, buckets
    {
      && (forall i :: 0 <= i < buckets.Length ==> buckets[i] == None)
      && dirty == {} && store == null && log == [] && base == map[]
    }

    constructor (ghost now: int)
      ensures Valid() && Blank() && fresh(buckets) && clock == now
    {
      buckets := new Option<Bucket>[RING](_ => None);
      dirty, store := {}, null;
      saving, clock, base, log := map[], now, map[], [];
      new;
      assert Base(map[], now - RING + 1) == map[];
      LoadedIsSound(Abs(), now);
    }

    /** Attaches the store and restores the retained window; a store that cannot be read is not attached. */
    method Load(from: Store, now: int, readable: bool)
      requires Valid() && Blank() && clock <= now
      requires NoneLater(from.rows, now)
      modifies this, buckets
      ensures Valid() && clock == now && log == []
      ensures store == if readable then from else null
      ensures readable ==> Loaded(buckets[..], from.rows, now - RING + 1)
      ensures from.rows == old(from.rows)
    {
      var since := now - RING + 1;
      if !readable {
        LaterIsSound(Abs(), now);
        clock := now;
        return;
      }
      var rows := from.LoadMetrics(since);
      store := from;
      var left := rows.Keys;
      while left != {}
        invariant left <= rows.Keys
        invariant store == from && from.rows == old(from.rows) && dirty == {} && saving == map[] && log == []
        invariant SlotsSound(buckets[..], now)
        invariant LoadedSoFar(buckets[..], rows, rows.Keys - left)
      {
        var minute :| minute in left;
        left := left - {minute};
        ghost var before := buckets[..];
        if minute >= since {
          var rec := Unmarshal(rows[minute]);
          if rec.Some? {
            buckets[minute % RING] := Some(Bucket(minute, rec.value));
            assert buckets[..] == before[minute % RING := Some(Bucket(minute, rec.value))];
          }
          OneLoaded(before, rows, since, now, rows.Keys - left - {minute}, minute);
          assert rows.Keys - left == (rows.Keys - left - {minute}) + {minute};
        }
      }
      clock, base := now, Base(from.rows, since);
      AllLoaded(buckets[..], from.rows, rows, since);
      LoadedIsSound(Abs(), now);
    }

    /** The minute's bucket; whatever older minute held its slot is forgotten. */
    method BucketFor(minute: int) returns (b: Bucket)
      requires buckets.Length == RING
      modifies buckets
      ensures b == Bucket(minute, Kept(old(buckets[..]), minute))
      ensures buckets[..] == old(buckets[..])[minute % RING := Some(b)]
    {
      var idx := minute % RING;
      var held := buckets[idx];
      if held.None? || held.value.minute != minute {
        held := Some(Bucket(minute, ZERO));
        buckets[idx] := held;
      }
      b := held.value;
    }

    method Record(endpoint: string, model: string, account: string, ok: bool, tokens: int, credits: real, latency: int, now: int)
      requires Valid() && now >= clock
      modifies this, buckets
      ensures Valid() && store == old(store)
      ensures Abs() == Recorded(old(Abs()), Served(now, endpoint, model, account, ok, tokens, credits, latency))
    {
      ghost var e := Served(now, endpoint, model, account, ok, tokens, credits, latency);
      ghost var before := Abs();
      RecordedIsSound(before, e);
      var b := BucketFor(now);
      dirty := dirty + {now};
      var tally := AddServed(b.tally, endpoint, model, account, ok, tokens, credits, latency, e);
      buckets[now % RING] := Some(Bucket(now, tally));
      clock, log := now, log + [e];
      assert buckets[..] == before.slots[now % RING := Some(Bucket(now, tally))];
      assert Abs() == Recorded(before, e);
    }

    method RecordCache(read: int, write: int, now: int)
      requires Valid() && now >= clock
      modifies this, buckets
      ensures Valid() && store == old(store)
      ensures Abs() == if read <= 0 && write <= 0 then old(Abs()) else Recorded(old(Abs()), Cached(now, read, write))
    {
      if read <= 0 && write <= 0 {
        return;
      }
      ghost var e := Cached(now, read, write);
      ghost var before := Abs();
      RecordedIsSound(before, e);
      var b := BucketFor(now);
      dirty := dirty + {now};
      var fig := b.tally.fig.(cacheRead := b.tally.fig.cacheRead + read, cacheWrite := b.tally.fig.cacheWrite + write);
      PlusHistLaws(b.tally.hist, b.tally.hist, b.tally.hist);
      PlusDimNone(b.tally.byModel);
      PlusDimNone(b.tally.byAccount);
      PlusDimNone(b.tally.byEndpoint);
      var tally := b.tally.(fig := fig);
      assert tally == Plus(b.tally, Contribution(e));
      buckets[now % RING] := Some(Bucket(now, tally));
      clock, log := now, log + [e];
      assert buckets[..] == before.slots[now % RING := Some(Bucket(now, tally))];
      assert Abs() == Recorded(before, e);
    }

    /** The first half of a flush: takes the dirty rows; nothing when there is no store or nothing dirty. */
    method TakeDirty() returns (rows: Option<map<int, Row>>)
      requires Valid() && saving == map[]
      modifies this
      ensures Valid() && store == old(store)
      ensures rows.None? <==> store == null || old(dirty) == {}
      ensures rows.None? ==> Abs() == old(Abs())
      ensures rows.Some? ==> Abs() == Taken(old(Abs())) && rows.value == saving
    {
      if store == null || dirty == {} {
        return None;
      }
      ghost var before := Abs();
      TakenIsSound(before);
      var taken := map[];
      var left := dirty;
      while left != {}
        invariant left <= dirty && Abs() == before && store == old(store)
        invariant taken == DirtyRows(before.slots, dirty - left)
      {
        SomeIn(left);
        var minute :| minute in left;
        left := left - {minute};
        var b := buckets[minute % RING];
        assert b == before.slots[minute % RING];
        assert dirty - left == (dirty - left - {minute}) + {minute};
        if b.None? || b.value.minute != minute {
          continue;
        }
        taken := taken[minute := Marshal(b.value.tally)];
      }
      assert dirty - {} == dirty;
      dirty, saving := {}, taken;
      assert Abs() == Taken(before);
      rows := Some(taken);
    }

    /** The second half of a flush, after any number of records: saves the rows, and prunes or marks them dirty again. */
    method SaveTaken(rows: map<int, Row>, now: int, saved: bool, written: set<int>, prunable: bool)
      requires Valid() && store != null && rows == saving && now >= clock
      modifies this, store
      ensures Valid() && store == old(store) && saving == map[]
      ensures Abs() == if !saved then Unsaved(old(Abs()), written)
                       else if prunable then Pruned(Saved(old(Abs())), now)
                       else Saved(old(Abs()))
    {
      ghost var before := Abs();
      SavedIsSound(before);
      UnsavedIsSound(before, written);
      store.SaveMetrics(rows, saved, written);
      saving := map[];
      if !saved {
        dirty := dirty + rows.Keys;
        assert Abs() == Unsaved(before, written);
        return;
      }
      assert Abs() == Saved(before);
      if prunable {
        PrunedIsSound(Saved(before), now);
        store.PruneMetrics(now - RING);
        clock := now;
        assert Abs() == Pruned(Saved(before), now);
      }
    }

    /** Adds up the minutes from `from` up to but not including `to`, and adds them to the totals so far. */
    method AddMinutes(ghost slots: Slots, from: int, to: int, totals: Tally) returns (fig: Figures, hist: Hist, totals': Tally)
      requires buckets[..] == slots && from <= to
      ensures Added(fig, hist, totals', totals, Sum(slots, from, to))
    {
      ghost var sum := ZERO;
      fig, hist, totals' := ZERO.fig, EMPTY_HIST, totals;
      BesideZero(totals);
      var minute := from;
      while minute < to
        invariant from <= minute <= to
        invariant sum == Sum(slots, from, minute)
        invariant Added(fig, hist, totals', totals, sum)
      {
        var b := buckets[minute % RING];
        assert b == slots[minute % RING];
        minute := minute + 1;
        if b.None? || b.value.minute != minute - 1 {
          continue;
        }
        fig, hist, totals' := AddTally(fig, hist, totals', b.value.tally, totals, sum);
        sum := Plus(sum, b.value.tally);
      }
    }

    /** One point of a query; the totals go from the minutes before it to those before its end. */
    method AddSpan(ghost slots: Slots, ghost start: int, from: int, to: int, totals: Tally) returns (point: Point, totals': Tally)
      requires buckets[..] == slots && start <= from <= to
      requires totals == Sum(slots, start, from)
      ensures point == PointOf(from * 60, Sum(slots, from, to))
      ensures totals' == Sum(slots, start, to)
    {
      var fig, hist, added := AddMinutes(slots, from, to, totals);
      totals' := AddPoint(fig, hist, totals, added, Sum(slots, from, to));
      SumSplits(slots, start, from, to);
      point := PointFrom(from * 60, fig, hist, Sum(slots, from, to));
    }

    /** Appends the point of the next `step` minutes. */
    method Extend(ghost slots: Slots, ghost start: int, from: int, now: int, step: nat, points: seq<Point>, totals: Tally)
        returns (points': seq<Point>, totals': Tally)
      requires buckets[..] == slots && step > 0 && start <= from <= now
      requires Swept(slots, start, from, now, step, points, totals)
      ensures Swept(slots, start, from + step, now, step, points', totals')
    {
      SweptBefore(slots, start, from, now, step, points, totals);
      var point;
      point, totals' := AddSpan(slots, start, from, Min(from + step, now + 1), totals);
      SweptStep(slots, start, from, now, step, points, point, totals');
      points' := points + [point];
    }

    method Sweep(ghost slots: Slots, start: int, now: int, step: nat) returns (points: seq<Point>, totals: Tally)
      requires buckets[..] == slots && step > 0
      ensures points == Points(slots, start, now, step)
      ensures totals == Sum(slots, start, now + 1)
    {
      points, totals := [], ZERO;
      var from := start;
      SweptNone(slots, start, now, step);
      while from <= now
        invariant start <= from
        invariant Swept(slots, start, from, now, step, points, totals)
        decreases now - from
      {
        points, totals := Extend(slots, start, from, now, step, points, totals);
        from := from + step;
      }
      SweptAll(slots, start, from, now, step, points, totals);
    }

    /** The last `minutes` minutes: a point for every `step` of them, and all of them together. */
    method Query(minutes: int, step: int, now: int)
        returns (points: seq<Point>, totals: Point, byModel: Dim, byAccount: Dim, byEndpoint: Dim)
      requires Valid() && now >= clock && now >= RING
      ensures Answers(Abs(), minutes, step, now, points, totals, byModel, byAccount, byEndpoint)
    {
      var window, width := minutes, step;
      if window > RING {
        window := RING;
      }
      if width < 1 {
        width := 1;
      }
      var start := now - window + 1;
      ghost var st := Abs();
      var all;
      points, all := Sweep(st.slots, start, now, width);
      totals := PointFrom(0, all.fig, all.hist, all);
      byModel, byAccount, byEndpoint := all.byModel, all.byAccount, all.byEndpoint;
      WindowAnswers(st, minutes, step, now, start, width, points, totals, all);
      assert Abs() == st;
    }
  }

  ghost predicate Swept(slots: Slots, start: int, from: int, now: int, step: nat, points: seq<Point>, totals: Tally)
    requires step > 0
  {
    && points + Points(slots, from, now, step) == Points(slots, start, now, step)
    && totals == Sum(slots, start, Min(from, now + 1))
  }

  lemma SweptNone(slots: Slots, start: int, now: int, step: nat)
    requires step > 0
    ensures Swept(slots, start, start, now, step, [], ZERO)
  {
    assert [] + Points(slots, start, now, step) == Points(slots, start, now, step);
  }

  lemma SweptBefore(slots: Slots, start: int, from: int, now: int, step: nat, points: seq<Point>, totals: Tally)
    requires step > 0 && from <= now && Swept(slots, start, from, now, step, points, totals)
    ensures totals == Sum(slots, start, from)
  {
  }

  lemma SweptStep(slots: Slots, start: int, from: int, now: int, step: nat, points: seq<Point>, point: Point, totals: Tally)
    requires step > 0 && from <= now
    requires points + Points(slots, from, now, step) == Points(slots, start, now, step)
    requires point == PointOf(from * 60, Sum(slots, from, Min(from + step, now + 1)))
    requires totals == Sum(slots, start, Min(from + step, now + 1))
    ensures Swept(slots, start, from + step, now, step, points + [point], totals)
  {
    Assoc(points, [point], Points(slots, from + step, now, step));
  }

  lemma SweptAll(slots: Slots, start: int, from: int, now: int, step: nat, points: seq<Point>, totals: Tally)
    requires step > 0 && from > now && Swept(slots, start, from, now, step, points, totals)
    ensures points == Points(slots, start, now, step) && totals == Sum(slots, start, now + 1)
  {
    assert points + [] == points;
  }

  /** The clock never having gone back, no readable row is for a minute still to come. */
  ghost predicate NoneLater(rows: map<int, Row>, now: int) {
    forall m :: m in rows && m > now ==> Stored(rows, m).None?
  }

  lemma NothingFromTheFuture(st: State, now: int)
    requires Sound(st) && now >= st.clock
    ensures NoneLater(st.rows, now)
  {
    forall m | m in st.rows && m > now
      ensures Stored(st.rows, m).None?
    {
      assert MinuteSound(st, m);
      assert Held(st.slots, m).None?;
    }
  }

  ghost predicate LoadedSoFar(slots: Slots, rows: map<int, Row>, done: set<int>) {
    forall m :: Held(slots, m) == if m in done then Stored(rows, m) else None
  }

  lemma OneLoaded(slots: Slots, rows: map<int, Row>, since: int, now: int, done: set<int>, minute: int)
    requires since == now - RING + 1
    requires minute in rows && minute !in done && done <= rows.Keys
    requires NoneLater(rows, now) && forall m :: m in rows ==> since <= m
    requires LoadedSoFar(slots, rows, done)
    ensures var rec := Unmarshal(rows[minute]);
            LoadedSoFar(if rec.Some? then slots[minute % RING := Some(Bucket(minute, rec.value))] else slots, rows, done + {minute})
  {
    var rec := Unmarshal(rows[minute]);
    if rec.Some? {
      var slots' := slots[minute % RING := Some(Bucket(minute, rec.value))];
      forall m
        ensures Held(slots', m) == if m in done + {minute} then Stored(rows, m) else None
      {
        if m % RING == minute % RING && m != minute && m in done {
          assert m > now;
        }
      }
    }
  }

  lemma AllLoaded(slots: Slots, all: map<int, Row>, rows: map<int, Row>, since: int)
    requires rows == Since(all, since)
    requires LoadedSoFar(slots, rows, rows.Keys)
    ensures Loaded(slots, all, since)
  {
    forall m | m >= since
      ensures Held(slots, m) == Stored(all, m)
    {
    }
  }

  /** A process starts on the store another left behind. */
  method Restart(previous: Collector, now: int) returns (c: Collector)
    requires previous.Valid() && previous.store != null && now >= previous.clock
    ensures fresh(c) && c.Valid() && c.store == previous.store && c.log == []
    ensures forall m :: m > now - RING ==> Survives(previous.Abs(), c.Abs(), m)
    ensures previous.Abs() == old(previous.Abs())
  {
    NothingFromTheFuture(previous.Abs(), now);
    c := new Collector(now);
    c.Load(previous.store, now, true);
    RestartRestores(previous.Abs(), c.Abs(), now);
  }

  /**
   After a restart a minute is held as before unless it was pending; if it was, only the end of what was
   recorded for it can be missing.
   */
  ghost predicate Survives(before: State, after: State, m: int) {
    && (m !in before.dirty && m !in before.saving ==> Held(after.slots, m) == Held(before.slots, m))
    && Behind(before.log, Kept(before.slots, m), Kept(after.slots, m), m)
  }

  lemma RestartRestores(before: State, after: State, now: int)
    requires Sound(before) && now >= before.clock
    requires Loaded(after.slots, before.rows, now - RING + 1)
    ensures forall m :: m > now - RING ==> Survives(before, after, m)
  {
    forall m | m > now - RING
      ensures Survives(before, after, m)
    {
      assert MinuteSound(before, m);
      assert Held(after.slots, m) == Stored(before.rows, m);
    }
  }
}
