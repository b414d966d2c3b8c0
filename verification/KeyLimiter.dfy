/** Per-key limits: a sliding one-minute window of admissions, and a bound on requests in flight. */
module KeyLimiter {
  import opened Basics

  datatype Refusal = ConcurrencyExceeded | RateExceeded

  /** A key's limits; zero or less means unlimited. */
  datatype Limits = Limits(rpm: int, concurrency: int)

  const MINUTE := 60_000_000_000

  /** The admissions of the minute up to and including `now`. */
  function Recent(admissions: seq<int>, now: int): (r: seq<int>)
    ensures forall a :: a in r <==> a in admissions && now - MINUTE < a <= now
  {
    if admissions == [] then []
    else
      var last := admissions[|admissions| - 1];
      Recent(admissions[..|admissions| - 1], now) + (if now - MINUTE < last <= now then [last] else [])
  }

  ghost predicate Sorted(s: seq<int>) {
    forall i, j :: 0 <= i < j < |s| ==> s[i] <= s[j]
  }

  ghost predicate AtMost(s: seq<int>, t: int) {
    forall i :: 0 <= i < |s| ==> s[i] <= t
  }

  /** Every admission found fewer than `limit` others in the minute before it. */
  ghost predicate Spaced(admissions: seq<int>, limit: int) {
    forall i :: 0 <= i < |admissions| ==> |Recent(admissions[..i], admissions[i])| < limit
  }

  /** The later of two moments sees no more of what lies before the earlier one. */
  lemma {:induction false} RecentShrinks(admissions: seq<int>, t: int, now: int)
    requires t <= now && AtMost(admissions, t)
    ensures |Recent(admissions, now)| <= |Recent(admissions, t)|
  {
    if admissions != [] {
      RecentShrinks(admissions[..|admissions| - 1], t, now);
    }
  }

  /**
   No half-open minute of any run holds more admissions than the limit: not only those that end with an
   admission, but every one.
   */
  lemma {:induction false} NoWindowExceeds(admissions: seq<int>, limit: int, t: int)
    requires limit > 0 && Sorted(admissions) && Spaced(admissions, limit)
    ensures |Recent(admissions, t)| <= limit
    decreases |admissions|
  {
    if admissions != [] {
      var n := |admissions| - 1;
      var front, last := admissions[..n], admissions[n];
      forall i | 0 <= i < n
        ensures |Recent(front[..i], front[i])| < limit
      {
        assert front[..i] == admissions[..i];
      }
      if t - MINUTE < last <= t {
        RecentShrinks(front, last, t);
      } else {
        NoWindowExceeds(front, limit, t);
      }
    }
  }

  /** Dropping old admissions off the front leaves exactly the recent ones, when all are in order and past. */
  lemma {:induction false} RecentIsSuffix(admissions: seq<int>, now: int, k: nat)
    requires Sorted(admissions) && k <= |admissions|
    requires AtMost(admissions, now)
    requires forall i :: 0 <= i < k ==> admissions[i] <= now - MINUTE
    requires k < |admissions| ==> admissions[k] > now - MINUTE
    ensures Recent(admissions, now) == admissions[k..]
    decreases |admissions|
  {
    if admissions != [] {
      var n := |admissions| - 1;
      var front, last := admissions[..n], admissions[n];
      assert last <= now && (k <= n ==> last > now - MINUTE);
      if k <= n {
        assert k < n ==> front[k] == admissions[k];
        RecentIsSuffix(front, now, k);
        assert admissions[k..] == front[k..] + [last];
      } else {
        RecentIsSuffix(front, now, n);
        assert front[n..] == [] && admissions[k..] == [];
      }
    }
  }

  function Get<T>(m: map<string, T>, key: string, default: T): T {
    if key in m then m[key] else default
  }

  /** The window holds the end of the history, and everything that may still count is in it. */
  ghost predicate Kept(all: seq<int>, window: seq<int>, limit: int, clock: int) {
    && Sorted(all) && Spaced(all, limit) && AtMost(all, clock)
    && |window| <= |all| && window == all[|all| - |window|..]
    && AtMost(all[..|all| - |window|], clock - MINUTE)
  }

  ghost predicate Bounded(inFlight: int, limit: int) {
    0 <= inFlight && (if limit > 0 then inFlight <= limit else inFlight == 0)
  }

  ghost predicate KeyKept(windows: map<string, seq<int>>, history: map<string, seq<int>>, limits: string -> Limits, clock: int, id: string) {
    Kept(Get(history, id, []), Get(windows, id, []), limits(id).rpm, clock)
  }

  ghost predicate AllKept(windows: map<string, seq<int>>, history: map<string, seq<int>>, limits: string -> Limits, clock: int) {
    forall id :: KeyKept(windows, history, limits, clock, id)
  }

  lemma AllKeptLater(windows: map<string, seq<int>>, history: map<string, seq<int>>, limits: string -> Limits, clock: int, now: int)
    requires AllKept(windows, history, limits, clock) && clock <= now
    ensures AllKept(windows, history, limits, now)
  {
    forall id
      ensures KeyKept(windows, history, limits, now, id)
    {
      assert KeyKept(windows, history, limits, clock, id);
      KeptLater(Get(history, id, []), Get(windows, id, []), limits(id).rpm, clock, now);
    }
  }

  lemma OneKept(windows: map<string, seq<int>>, history: map<string, seq<int>>, limits: string -> Limits, clock: int,
                id: string, window: seq<int>, all: seq<int>)
    requires AllKept(windows, history, limits, clock) && Kept(all, window, limits(id).rpm, clock)
    ensures AllKept(windows[id := window], history[id := all], limits, clock)
    ensures Get(history, id, []) == all ==> AllKept(windows[id := window], history, limits, clock)
  {
    var windows', history' := windows[id := window], history[id := all];
    forall k
      ensures KeyKept(windows', history', limits, clock, k)
    {
      assert KeyKept(windows, history, limits, clock, k);
    }
    if Get(history, id, []) == all {
      forall k
        ensures KeyKept(windows', history, limits, clock, k)
      {
        assert KeyKept(windows, history, limits, clock, k);
      }
    }
  }

  lemma KeptLater(all: seq<int>, window: seq<int>, limit: int, clock: int, now: int)
    requires Kept(all, window, limit, clock) && clock <= now
    ensures Kept(all, window, limit, now)
  {
  }

  lemma AddedUnlessFull(history: map<string, seq<int>>, id: string, now: int, full: bool)
    ensures forall k :: Get(if full then history else history[id := Get(history, id, []) + [now]], k, [])
                     == Get(history, k, []) + (if k == id && !full then [now] else [])
  {
  }

  /** All admissions before the window, or trimmed off it, are past. */
  lemma TrimmedArePast(all: seq<int>, window: seq<int>, now: int, i: nat)
    requires |window| <= |all| && window == all[|all| - |window|..] && i <= |window|
    requires AtMost(all[..|all| - |window|], now - MINUTE)
    requires forall j :: 0 <= j < i ==> window[j] <= now - MINUTE
    ensures forall j :: 0 <= j < |all| - |window| + i ==> all[j] <= now - MINUTE
  {
    var k := |all| - |window|;
    forall j | 0 <= j < k + i
      ensures all[j] <= now - MINUTE
    {
      if j < k {
        assert all[..k][j] == all[j];
      } else {
        assert all[j] == window[j - k];
      }
    }
  }

  /** What trimming leaves is the end of the history. */
  lemma TrimmedIsRest(all: seq<int>, window: seq<int>, now: int, i: nat)
    requires |window| <= |all| && window == all[|all| - |window|..] && i <= |window|
    ensures window[i..] == all[|all| - |window| + i..]
    ensures i < |window| ==> all[|all| - |window| + i] == window[i]
  {
  }

  /** Trimming a window leaves exactly the recent admissions. */
  lemma Trimmed(all: seq<int>, window: seq<int>, limit: int, now: int, i: nat)
    requires Kept(all, window, limit, now) && i <= |window|
    requires forall j :: 0 <= j < i ==> window[j] <= now - MINUTE
    requires i < |window| ==> window[i] > now - MINUTE
    ensures window[i..] == Recent(all, now) && Kept(all, window[i..], limit, now)
  {
    TrimmedArePast(all, window, now, i);
    TrimmedIsRest(all, window, now, i);
    RecentIsSuffix(all, now, |all| - |window| + i);
  }

  lemma SpacedSnoc(all: seq<int>, limit: int, now: int)
    requires Spaced(all, limit) && |Recent(all, now)| < limit
    ensures Spaced(all + [now], limit)
  {
    var all' := all + [now];
    forall i | 0 <= i < |all'|
      ensures |Recent(all'[..i], all'[i])| < limit
    {
      if i < |all| {
        assert all'[..i] == all[..i];
      } else {
        assert all'[..i] == all;
      }
    }
  }

  /** Entering an admission that finds room. */
  lemma Entered(all: seq<int>, window: seq<int>, limit: int, now: int)
    requires Kept(all, window, limit, now) && window == Recent(all, now) && |window| < limit
    ensures Kept(all + [now], window + [now], limit, now)
  {
    var all', window' := all + [now], window + [now];
    SpacedSnoc(all, limit, now);
    assert all'[..|all'| - |window'|] == all[..|all| - |window|];
    assert window' == all'[|all'| - |window'|..];
  }

  // ---- Matched acquisitions and releases ----

  /** One key's admissions, whatever its limits, and its releases, in order. */
  datatype Use = Acquired | Released

  /** The in-flight count as the limiter keeps it: a release at zero does nothing. */
  function Flight(uses: seq<Use>): nat {
    if uses == [] then 0
    else
      var before := Flight(uses[..|uses| - 1]);
      match uses[|uses| - 1]
      case Acquired => before + 1
      case Released => if before > 0 then before - 1 else 0
  }

  /** Admitted less released. */
  function Tally(uses: seq<Use>): int {
    if uses == [] then 0
    else Tally(uses[..|uses| - 1]) + (if uses[|uses| - 1] == Acquired then 1 else -1)
  }

  /** At no time had more been released than admitted. */
  ghost predicate NeverOverdrawn(uses: seq<Use>) {
    forall n :: 0 <= n <= |uses| ==> Tally(uses[..n]) >= 0
  }

  /** The count is the balance exactly as long as nobody has released more than was admitted; else it is more. */
  lemma {:induction false} FlightIsBalanceIff(uses: seq<Use>)
    ensures Flight(uses) >= Tally(uses)
    ensures Flight(uses) == Tally(uses) <==> NeverOverdrawn(uses)
    decreases |uses|
  {
    assert uses[..|uses|] == uses;
    if uses != [] {
      var n := |uses| - 1;
      var front := uses[..n];
      FlightIsBalanceIff(front);
      assert forall k :: 0 <= k <= n ==> front[..k] == uses[..k];
    }
  }

  function Admitted(uses: seq<Use>): nat {
    if uses == [] then 0 else Admitted(uses[..|uses| - 1]) + (if uses[|uses| - 1] == Acquired then 1 else 0)
  }

  /** Nothing was ever released. */
  predicate NeverReleased(uses: seq<Use>) {
    Released !in uses
  }

  lemma {:induction false} AdmittedIsBalanceIff(uses: seq<Use>)
    ensures Admitted(uses) >= Tally(uses)
    ensures Admitted(uses) == Tally(uses) <==> NeverReleased(uses)
  {
    if uses != [] {
      var front, last := uses[..|uses| - 1], uses[|uses| - 1];
      assert uses == front + [last];
      AdmittedIsBalanceIff(front);
    }
  }

  /**
   The count as the limiter keeps it: none for a key without a concurrency limit, and no releases for the
   empty id.
   */
  function Counted(id: string, limit: int, uses: seq<Use>): nat {
    if limit <= 0 then 0 else if id == "" then Admitted(uses) else Flight(uses)
  }

  function After(id: string, limit: int, count: int, use: Use): int {
    if limit <= 0 then 0
    else match use
      case Acquired => count + 1
      case Released => if id != "" && count > 0 then count - 1 else count
  }

  lemma CountedSnoc(id: string, limit: int, uses: seq<Use>, use: Use)
    ensures Counted(id, limit, uses + [use]) == After(id, limit, Counted(id, limit, uses), use)
  {
    assert (uses + [use])[..|uses|] == uses;
  }

  /** A key's count is what its uses come to. */
  ghost predicate Tied(limits: string -> Limits, inflight: map<string, int>, uses: map<string, seq<Use>>, id: string) {
    Get(inflight, id, 0) == Counted(id, limits(id).concurrency, Get(uses, id, []))
  }

  ghost predicate AllTied(limits: string -> Limits, inflight: map<string, int>, uses: map<string, seq<Use>>) {
    forall id :: Tied(limits, inflight, uses, id)
  }

  lemma OneTied(limits: string -> Limits, inflight: map<string, int>, inflight': map<string, int>, uses: map<string, seq<Use>>, id: string, use: Use)
    requires AllTied(limits, inflight, uses)
    requires forall k :: Get(inflight', k, 0) == if k == id then After(id, limits(id).concurrency, Get(inflight, id, 0), use) else Get(inflight, k, 0)
    ensures AllTied(limits, inflight', uses[id := Get(uses, id, []) + [use]])
  {
    var all := Get(uses, id, []);
    CountedSnoc(id, limits(id).concurrency, all, use);
    var uses' := uses[id := all + [use]];
    forall k
      ensures Tied(limits, inflight', uses', k)
    {
      assert Tied(limits, inflight, uses, k);
    }
  }

  class Limiter {
    /** The limits of every key, fixed for the run. */
    ghost const limits: string -> Limits
    var windows: map<string, seq<int>>
    var inflight: map<string, int>
    /** All admissions ever counted against a key's rate, and the latest clock reading. */
    ghost var history: map<string, seq<int>>
    ghost var clock: int
    /** All admissions and releases ever made. */
    ghost var uses: map<string, seq<Use>>

    ghost function Admissions(id: string): seq<int>
      reads this`history
    {
      Get(history, id, [])
    }

    ghost function InFlight(id: string): int
      reads this`inflight
    {
      Get(inflight, id, 0)
    }

    ghost function Uses(id: string): seq<Use>
      reads this`uses
    {
      Get(uses, id, [])
    }

    ghost predicate Valid()
      reads this
    {
      && AllKept(windows, history, limits, clock)
      && (forall id :: Bounded(InFlight(id), limits(id).concurrency))
      && AllTied(limits, inflight, uses)
    }

    constructor (ghost limits: string -> Limits, ghost clock: int)
      ensures Valid() && this.limits == limits && this.clock == clock
      ensures forall id :: Admissions(id) == [] && InFlight(id) == 0 && Uses(id) == []
    {
      this.limits := limits;
      windows, inflight := map[], map[];
      history, uses := map[], map[];
      this.clock := clock;
    }

    /** Why a request of this key is refused at `now`, if it is. */
    ghost function Verdict(id: string, now: int): Option<Refusal>
      reads this
    {
      if limits(id).concurrency > 0 && InFlight(id) >= limits(id).concurrency then Some(ConcurrencyExceeded)
      else if limits(id).rpm > 0 && |Recent(Admissions(id), now)| >= limits(id).rpm then Some(RateExceeded)
      else None
    }

    method Acquire(id: string, limit: Limits, now: int) returns (refusal: Option<Refusal>)
      requires Valid() && limit == limits(id) && clock <= now
      modifies this
      ensures Valid() && clock == now
      ensures refusal == old(Verdict(id, now))
      ensures forall k :: Admissions(k) == old(Admissions(k)) + (if k == id && refusal.None? && limit.rpm > 0 then [now] else [])
      ensures forall k :: InFlight(k) == old(InFlight(k)) + (if k == id && refusal.None? && limit.concurrency > 0 then 1 else 0)
      ensures forall k :: Uses(k) == old(Uses(k)) + (if k == id && refusal.None? then [Acquired] else [])
    {
      AllKeptLater(windows, history, limits, clock, now);
      clock := now;
      var current := Get(inflight, id, 0);
      assert Bounded(InFlight(id), limit.concurrency);
      if limit.rpm <= 0 && limit.concurrency <= 0 {
        OneTied(limits, inflight, inflight, uses, id, Acquired);
        uses := uses[id := Uses(id) + [Acquired]];
        return None;
      }
      if limit.concurrency > 0 && current >= limit.concurrency {
        return Some(ConcurrencyExceeded);
      }
      if limit.rpm > 0 {
        var full := CountInWindow(id, limit, now);
        if full {
          return Some(RateExceeded);
        }
      }
      ghost var before := inflight;
      if limit.concurrency > 0 {
        inflight := inflight[id := current + 1];
      }
      OneTied(limits, before, inflight, uses, id, Acquired);
      uses := uses[id := Uses(id) + [Acquired]];
      return None;
    }

    /** Trims the key's window; unless it is full, the request is entered. */
    method CountInWindow(id: string, limit: Limits, now: int) returns (full: bool)
      requires Valid() && limit == limits(id) && limit.rpm > 0 && clock == now
      modifies this`windows, this`history
      ensures Valid()
      ensures full <==> |Recent(old(Admissions(id)), now)| >= limit.rpm
      ensures forall k :: Admissions(k) == old(Admissions(k)) + (if k == id && !full then [now] else [])
    {
      ghost var all := Admissions(id);
      var window := Get(windows, id, []);
      assert KeyKept(windows, history, limits, clock, id);
      window := Trim(window, all, limit.rpm, now);
      full := |window| >= limit.rpm;
      if full {
        OneKept(windows, history, limits, clock, id, window, all);
        windows := windows[id := window];
      } else {
        Entered(all, window, limit.rpm, now);
        OneKept(windows, history, limits, clock, id, window + [now], all + [now]);
        windows := windows[id := window + [now]];
        history := history[id := all + [now]];
      }
      AddedUnlessFull(old(history), id, now, full);
    }

    /** Drops the timestamps at or before the cutoff. */
    method Trim(window: seq<int>, ghost all: seq<int>, ghost limit: int, now: int) returns (kept: seq<int>)
      requires Kept(all, window, limit, now)
      ensures kept == Recent(all, now) && Kept(all, kept, limit, now)
    {
      var cutoff := now - MINUTE;
      var i := 0;
      while i < |window| && window[i] <= cutoff
        invariant 0 <= i <= |window|
        invariant forall j :: 0 <= j < i ==> window[j] <= cutoff
      {
        i := i + 1;
      }
      Trimmed(all, window, limit, now, i);
      kept := window[i..];
    }

    method Release(id: string)
      requires Valid()
      modifies this`inflight, this`uses
      ensures Valid()
      ensures forall k :: Uses(k) == old(Uses(k)) + (if k == id then [Released] else [])
      ensures forall k :: InFlight(k) == old(InFlight(k)) - (if k == id && id != "" && old(InFlight(id)) > 0 then 1 else 0)
    {
      assert Bounded(InFlight(id), limits(id).concurrency);
      if id == "" {
        OneTied(limits, inflight, inflight, uses, id, Released);
        uses := uses[id := Uses(id) + [Released]];
        return;
      }
      ghost var before := inflight;
      if Get(inflight, id, 0) > 0 {
        inflight := inflight[id := inflight[id] - 1];
      }
      if Get(inflight, id, 0) == 0 {
        inflight := inflight - {id};
      }
      OneTied(limits, before, inflight, uses, id, Released);
      uses := uses[id := Uses(id) + [Released]];
    }

    /** What validity means for a key: no minute of its run holds more admissions than its limit. */
    lemma RateIsKept(id: string, t: int)
      requires Valid() && limits(id).rpm > 0
      ensures |Recent(Admissions(id), t)| <= limits(id).rpm
    {
      assert KeyKept(windows, history, limits, clock, id);
      NoWindowExceeds(Admissions(id), limits(id).rpm, t);
    }

    /**
     When in flight is admitted minus released. For a key with a concurrency limit: exactly as long as nobody has
     released more than was admitted, and it is more after that. Two kinds of keys are counted otherwise: one
     without such a limit is not counted at all, and the empty id is never released.
     */
    lemma InFlightIsBalanceIff(id: string)
      requires Valid()
      ensures limits(id).concurrency > 0 ==> InFlight(id) >= Tally(Uses(id))
      ensures limits(id).concurrency > 0 && id != "" ==> (InFlight(id) == Tally(Uses(id)) <==> NeverOverdrawn(Uses(id)))
      ensures limits(id).concurrency > 0 && id == "" ==> (InFlight(id) == Tally(Uses(id)) <==> NeverReleased(Uses(id)))
      ensures limits(id).concurrency <= 0 ==> InFlight(id) == 0
    {
      assert Tied(limits, inflight, uses, id);
      FlightIsBalanceIff(Uses(id));
      AdmittedIsBalanceIff(Uses(id));
    }

    /** What is in flight never exceeds the key's limit. */
    lemma LimitIsKept(id: string)
      requires Valid() && limits(id).concurrency > 0
      ensures 0 <= InFlight(id) <= limits(id).concurrency
    {
      assert Bounded(InFlight(id), limits(id).concurrency);
    }
  }

  // ---- Where the count is not the balance ----

  lemma TalliesOf()
    ensures Tally([Acquired]) == 1 && Tally([Acquired, Released]) == 0 && Tally([Acquired, Released, Released]) == -1
  {
    assert [Acquired][..0] == [] && [Acquired, Released][..1] == [Acquired];
    assert [Acquired, Released, Released][..2] == [Acquired, Released];
  }

  /** A key with a rate limit only: admitted and not released, but not counted. */
  method RateOnlyKey() returns (limiter: Limiter)
    ensures limiter.Valid() && limiter.limits("key") == Limits(5, 0)
    ensures limiter.Admissions("key") == [0] && limiter.Uses("key") == [Acquired]
    ensures limiter.InFlight("key") == 0 && Tally(limiter.Uses("key")) == 1
  {
    limiter := new Limiter(_ => Limits(5, 0), 0);
    var refusal := limiter.Acquire("key", Limits(5, 0), 0);
    TalliesOf();
  }

  /** One release too many: the count stays at 0, and the next admission counts fully. */
  method ReleasedTwice() returns (limiter: Limiter)
    ensures limiter.Valid() && limiter.limits("key") == Limits(0, 2)
    ensures limiter.Uses("key") == [Acquired, Released, Released]
    ensures limiter.InFlight("key") == 0 && Tally(limiter.Uses("key")) == -1
  {
    limiter := new Limiter(_ => Limits(0, 2), 0);
    var refusal := limiter.Acquire("key", Limits(0, 2), 0);
    limiter.Release("key");
    limiter.Release("key");
    TalliesOf();
  }

  /** A key without an id: its slot is not given back. */
  method ReleasedWithoutId() returns (limiter: Limiter)
    ensures limiter.Valid() && limiter.limits("") == Limits(0, 2)
    ensures limiter.Uses("") == [Acquired, Released]
    ensures limiter.InFlight("") == 1 && Tally(limiter.Uses("")) == 0
  {
    limiter := new Limiter(_ => Limits(0, 2), 0);
    var refusal := limiter.Acquire("", Limits(0, 2), 0);
    limiter.Release("");
    TalliesOf();
  }
}
