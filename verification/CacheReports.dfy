/** What the cache usage of a request has to say, told from the history and the request's blocks alone. */
module CacheReports {
  import opened Basics
  import opened Text
  import opened HashFraming
  import opened CacheProfile
  import opened CacheTracker
  import opened CacheLaws

  /** The tokens up to breakpoint j, and for how long it is to be stored. */
  function Size(blocks: seq<CacheBlock>, j: nat): nat
    requires j < |Ends(blocks)|
  {
    Tokens(blocks[..Ends(blocks)[j]])
  }

  function TTL(blocks: seq<CacheBlock>, j: nat): nat
    requires j < |Ends(blocks)|
  {
    PointTTL(blocks[..Ends(blocks)[j]])
  }

  /** The size of the request: what the client says, but at least what its blocks hold. */
  function Total(call: Call): int {
    MaxInt(call.total, Tokens(call.blocks))
  }

  /** The tokens up to the last breakpoint. */
  function Cacheable(blocks: seq<CacheBlock>): nat
    requires Ends(blocks) != []
  {
    Size(blocks, |Ends(blocks)| - 1)
  }

  /** 85% of the request, rounded down. */
  function Cap(call: Call): int {
    Total(call) * 85 / 100
  }

  /** What a prefix has to hold to be cached, model by model. */
  function Threshold(call: Call): nat {
    if Contains(call.lowerModel, "opus") then 4096 else 1024
  }

  /** Breakpoint j can be read: it reaches the threshold, and was stored or hit less than its TTL ago. */
  predicate Readable(log: seq<Touch>, call: Call, j: nat)
    requires j < |Ends(call.blocks)|
  {
    Size(call.blocks, j) >= Threshold(call) && Live(log, call.account, PrefixAt(call.blocks, j), call.now)
  }

  ghost predicate LongestReadable(log: seq<Touch>, call: Call, j: nat) {
    && j < |Ends(call.blocks)| && Readable(log, call, j)
    && forall i :: j < i < |Ends(call.blocks)| ==> !Readable(log, call, i)
  }

  ghost predicate NothingReadable(log: seq<Touch>, call: Call) {
    forall i :: 0 <= i < |Ends(call.blocks)| ==> !Readable(log, call, i)
  }

  // ---- The two parts ----

  /** The breakpoint that token p counts for: the first that reaches beyond it. */
  ghost predicate CountsFor(blocks: seq<CacheBlock>, p: int, j: nat) {
    j < |Ends(blocks)| && p < Size(blocks, j) && forall i :: 0 <= i < j ==> Size(blocks, i) <= p
  }

  /** Token p is stored for an hour. */
  ghost predicate ForAnHour(blocks: seq<CacheBlock>, p: int) {
    exists j :: CountsFor(blocks, p, j) && TTL(blocks, j) >= 3_600_000_000_000
  }

  /** How many of the tokens from `lo` up to but not including `hi` are stored for an hour. */
  ghost function HourTokens(blocks: seq<CacheBlock>, lo: int, hi: int): nat
    decreases hi - lo
  {
    if hi <= lo then 0 else HourTokens(blocks, lo, hi - 1) + (if ForAnHour(blocks, hi - 1) then 1 else 0)
  }

  lemma {:induction false} HourTokensSplit(blocks: seq<CacheBlock>, lo: int, mid: int, hi: int)
    requires lo <= mid <= hi
    ensures HourTokens(blocks, lo, hi) == HourTokens(blocks, lo, mid) + HourTokens(blocks, mid, hi)
    decreases hi - mid
  {
    if mid < hi {
      HourTokensSplit(blocks, lo, mid, hi - 1);
    }
  }

  lemma CountsOnce(blocks: seq<CacheBlock>, p: int, i: nat, j: nat)
    requires CountsFor(blocks, p, i) && CountsFor(blocks, p, j)
    ensures i == j
  {
  }

  /** Tokens between the breakpoints before j and breakpoint j all count for j. */
  lemma {:induction false} HourTokensOf(blocks: seq<CacheBlock>, lo: int, hi: int, j: nat)
    requires j < |Ends(blocks)| && lo <= hi <= Size(blocks, j) && forall i :: 0 <= i < j ==> Size(blocks, i) <= lo
    ensures HourTokens(blocks, lo, hi) == (if TTL(blocks, j) >= 3_600_000_000_000 then hi - lo else 0)
    decreases hi - lo
  {
    if lo < hi {
      var p := hi - 1;
      HourTokensOf(blocks, lo, p, j);
      assert CountsFor(blocks, p, j);
      forall i: nat | CountsFor(blocks, p, i)
        ensures i == j
      {
        CountsOnce(blocks, p, i, j);
      }
    }
  }

  /** The profile built for these blocks. */
  ghost predicate Built(profile: Profile, blocks: seq<CacheBlock>) {
    && |profile.breakpoints| == |Ends(blocks)| > 0
    && WellBuilt(profile)
    && forall j :: 0 <= j < |Ends(blocks)| ==> Reach(profile, j) == Size(blocks, j) && profile.breakpoints[j].ttl == TTL(blocks, j)
  }

  lemma BuiltFor(hash: Bytes -> Fingerprint, call: Call, profile: Profile)
    requires BuildProfile(hash, call.blocks, call.total, call.lowerModel) == Some(profile)
    ensures Built(profile, call.blocks) && profile.total == Total(call) && profile.lowerModel == call.lowerModel
  {
    BuiltIsWellBuilt(hash, call.blocks, call.total, call.lowerModel);
    forall j | 0 <= j < |Ends(call.blocks)|
      ensures Reach(profile, j) == Size(call.blocks, j) && profile.breakpoints[j].ttl == TTL(call.blocks, j)
    {
      PointsDescribe(hash, call.blocks, j);
    }
  }

  lemma HitReaches(profile: Profile, blocks: seq<CacheBlock>, k: nat)
    requires Built(profile, blocks) && k < |Ends(blocks)|
    ensures Reach(profile, k) == Size(blocks, k) <= Cacheable(blocks)
  {
    assert Reach(profile, k) <= Reach(profile, |profile.breakpoints| - 1);
  }

  /** Breakpoint j takes the tokens up to it that none before it reaches. */
  lemma PartOf(blocks: seq<CacheBlock>, previous: int, current: int, last: int, j: nat)
    requires j < |Ends(blocks)| && current == Size(blocks, j) && previous < current <= last
    requires forall i :: 0 <= i < j ==> Size(blocks, i) <= previous
    ensures HourTokens(blocks, previous, last)
         == HourTokens(blocks, current, last) + (if TTL(blocks, j) >= 3_600_000_000_000 then current - previous else 0)
  {
    HourTokensOf(blocks, previous, current, j);
    HourTokensSplit(blocks, previous, current, last);
  }

  /** The breakpoints before j reach no further than this. */
  ghost predicate ReachedBy(blocks: seq<CacheBlock>, previous: int, j: nat) {
    j <= |Ends(blocks)| && forall i :: 0 <= i < j ==> Size(blocks, i) <= previous
  }

  lemma ReachedNext(blocks: seq<CacheBlock>, previous: int, current: int, j: nat, next: nat)
    requires ReachedBy(blocks, previous, j) && next == j + 1 <= |Ends(blocks)| && Size(blocks, j) <= current && previous <= current
    ensures ReachedBy(blocks, current, next)
  {
  }

  lemma {:induction false} PartsByToken(profile: Profile, blocks: seq<CacheBlock>, previous: int, j: nat)
    requires Built(profile, blocks) && ReachedBy(blocks, previous, j) && previous <= Cacheable(blocks)
    ensures Breakdown(profile, previous, j).cache1h == HourTokens(blocks, previous, Cacheable(blocks))
    decreases |Ends(blocks)| - j
  {
    if j < |Ends(blocks)| {
      var current, next: nat := Reach(profile, j), j + 1;
      HitReaches(profile, blocks, j);
      if current > previous {
        PartOf(blocks, previous, current, Cacheable(blocks), j);
        ReachedNext(blocks, previous, current, j, next);
        PartsByToken(profile, blocks, current, next);
      } else {
        ReachedNext(blocks, previous, previous, j, next);
        PartsByToken(profile, blocks, previous, next);
      }
    }
  }

  // ---- Reports ----

  /**
   What a request is told. With something live for the account: it reads its longest breakpoint that can be read,
   capped at 85% of the request, or nothing if there is none, and creates the rest of what is cacheable under
   that cap. With nothing live: it reads nothing, and creates all that is cacheable, if that reaches the
   threshold. In both cases the tokens not read are counted, each by the first breakpoint that reaches beyond
   it, as stored for an hour or for five minutes.
   */
  ghost predicate Reported(log: seq<Touch>, call: Call, u: CacheUsage)
    requires Ends(call.blocks) != []
  {
    var last := Cacheable(call.blocks);
    var capped := MinInt(last, Cap(call));
    && (AnyLive(log, call.account, call.now) ==>
          && (forall j: nat :: LongestReadable(log, call, j) ==> u.read == MinInt(Size(call.blocks, j), capped))
          && (NothingReadable(log, call) ==> u.read == 0)
          && u.creation == capped - u.read)
    && (!AnyLive(log, call.account, call.now) ==> u.read == 0 && u.creation == if last < Threshold(call) then 0 else last)
    && u.creation1h == HourTokens(call.blocks, u.read, last)
    && u.creation5m == last - u.read - u.creation1h
  }

  lemma LongestIs(log: seq<Touch>, call: Call, k: int)
    requires call.MinTokens() == Threshold(call)
    requires k == Longest(log, call.account, call.blocks, Threshold(call), call.now, |Ends(call.blocks)|)
    ensures forall j: nat :: LongestReadable(log, call, j) ==> k == j
    ensures NothingReadable(log, call) ==> k == -1
  {
    assert k >= 0 ==> Readable(log, call, k);
    forall j: nat | LongestReadable(log, call, j)
      ensures k == j
    {
      assert Readable(log, call, j);
    }
  }

  /** The usage computed from a hit that reaches `hit` tokens. */
  lemma UsageIs(profile: Profile, call: Call, hasEntries: bool, hit: nat, u: CacheUsage)
    requires Built(profile, call.blocks) && profile.total == Total(call) && profile.lowerModel == call.lowerModel
    requires hit <= Cacheable(call.blocks) && u == UsageFor(profile, hasEntries, hit)
    ensures var last := Cacheable(call.blocks);
            var capped := MinInt(last, Cap(call));
            && u.read == (if hasEntries then MinInt(hit, capped) else 0)
            && u.creation == (if hasEntries then capped - u.read else if last < Threshold(call) then 0 else last)
            && u.creation1h == HourTokens(call.blocks, u.read, last)
            && u.creation5m == last - u.read - u.creation1h
  {
    BreakdownTelescopes(profile, u.read, 0);
    PartsByToken(profile, call.blocks, u.read, 0);
  }

  lemma ReportIs(hash: Bytes -> Fingerprint, log: seq<Touch>, call: Call)
    requires call.Computed? && call.account != "" && Ends(call.blocks) != []
    ensures Reported(log, call, ReportOf(hash, log, call))
  {
    var profile := BuildProfile(hash, call.blocks, call.total, call.lowerModel).value;
    BuiltFor(hash, call, profile);
    var k := Longest(log, call.account, call.blocks, call.MinTokens(), call.now, |Ends(call.blocks)|);
    LongestIs(log, call, k);
    if k >= 0 {
      HitReaches(profile, call.blocks, k);
    }
    var hit: nat := if k < 0 then 0 else Size(call.blocks, k);
    UsageIs(profile, call, AnyLive(log, call.account, call.now), hit, ReportOf(hash, log, call));
  }

  /** On every run, each computation reports that of the calls before it; everything else reports nothing. */
  lemma {:induction false} EveryReportIs(hash: Bytes -> Fingerprint, calls: seq<Call>, i: nat)
    requires i < |calls|
    ensures |ReportAll(hash, calls)| == |calls|
    ensures var u := ReportAll(hash, calls)[i];
            if calls[i].Updated? || calls[i].account == "" || Ends(calls[i].blocks) == [] then u == CacheUsage(0, 0, 0, 0)
            else Reported(History(calls[..i]), calls[i], u)
    decreases |calls|
  {
    var front := Front(calls);
    ReportLength(hash, front);
    if i < |front| {
      EveryReportIs(hash, front, i);
      assert front[..i] == calls[..i];
    } else {
      assert calls[..i] == front;
      LastReportIs(hash, History(front), calls[i]);
    }
  }

  lemma LastReportIs(hash: Bytes -> Fingerprint, log: seq<Touch>, call: Call)
    ensures var u := ReportOf(hash, log, call);
            if call.Updated? || call.account == "" || Ends(call.blocks) == [] then u == CacheUsage(0, 0, 0, 0)
            else Reported(log, call, u)
  {
    if call.Computed? && call.account != "" && Ends(call.blocks) != [] {
      ReportIs(hash, log, call);
    }
  }

  /** Stored at the start and asked for a second later: 85% of the request is read, and nothing is left to create. */
  const REPEATED := [Updated("a", FOR_AN_HOUR, 4096, "", 0), Computed("a", FOR_AN_HOUR, 4096, "", SECOND)]

  lemma RepeatIsRead(hash: Bytes -> Fingerprint)
    ensures |ReportAll(hash, REPEATED)| == 2
    ensures var u := ReportAll(hash, REPEATED)[1]; u.read == 3481 && u.creation == 0
  {
    OneBlock(HOUR);
    EveryReportIs(hash, REPEATED, 1);
    var log := History(REPEATED[..1]);
    assert REPEATED[..1] == [REPEATED[0]];
    assert StoresAt(REPEATED[0], "a", [[]], 0) && LastStore([REPEATED[0]], "a", [[]], 0);
    LiveIff([REPEATED[0]], "a", [[]], 0, 0, SECOND);
    assert Live(log, "a", [[]], SECOND);
    assert LongestReadable(log, REPEATED[1], 0);
  }
}
