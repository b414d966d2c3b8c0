/** What the prompt cache promises over whole runs of Compute and Update. */
module CacheLaws {
  import opened Basics
  import opened HashFraming
  import opened CacheProfile
  import opened CacheTracker

  /** One call of the tracker, with the request its profile is built from. */
  datatype Call =
    | Computed(account: string, blocks: seq<CacheBlock>, total: int, lowerModel: string, now: nat)
    | Updated(account: string, blocks: seq<CacheBlock>, total: int, lowerModel: string, now: nat)
  {
    function MinTokens(): nat {
      MinCacheableTokens(lowerModel)
    }
  }

  /** What a call adds to the history. */
  function Adds(log: seq<Touch>, call: Call): seq<Touch> {
    if call.account == "" || Ends(call.blocks) == [] then []
    else match call
      case Computed(account, blocks, _, _, now) =>
        var j := Longest(log, account, blocks, call.MinTokens(), now, |Ends(blocks)|);
        if j < 0 then [] else [Hit(log, account, PrefixAt(blocks, j), now)]
      case Updated(account, blocks, _, _, now) =>
        Stores(account, blocks, call.MinTokens(), now, |Ends(blocks)|)
  }

  function History(calls: seq<Call>): seq<Touch> {
    if calls == [] then [] else History(Front(calls)) + Adds(History(Front(calls)), Last(calls))
  }

  /** What a computation reports, in terms of the history alone: pruning is unobservable. */
  function Reports(hash: Bytes -> Fingerprint, log: seq<Touch>, hasEntries: bool, call: Call): CacheUsage {
    var profile := BuildProfile(hash, call.blocks, call.total, call.lowerModel);
    if call.account == "" || profile.None? then NO_USAGE
    else
      var j := Longest(log, call.account, call.blocks, call.MinTokens(), call.now, |Ends(call.blocks)|);
      UsageFor(profile.value, hasEntries, if j < 0 then 0 else Reach(profile.value, j))
  }

  /** Clocks do not run backwards. */
  ghost predicate Ordered(calls: seq<Call>) {
    forall i, j :: 0 <= i < j < |calls| ==> calls[i].now <= calls[j].now
  }

  /** What the computations of a run report, each from the history before it. */
  ghost function ReportAll(hash: Bytes -> Fingerprint, calls: seq<Call>): seq<CacheUsage> {
    if calls == [] then []
    else ReportAll(hash, Front(calls)) + [ReportOf(hash, History(Front(calls)), Last(calls))]
  }

  ghost function ReportOf(hash: Bytes -> Fingerprint, log: seq<Touch>, call: Call): CacheUsage {
    if call.Computed? then Reports(hash, log, AnyLive(log, call.account, call.now), call) else NO_USAGE
  }

  /**
   The tracker on a whole run: whatever it has pruned along the way, each computation reports what the
   history says.
   */
  method Replay(hash: Bytes -> Fingerprint, calls: seq<Call>) returns (usages: seq<CacheUsage>)
    requires Collisionless(hash) && Ordered(calls)
    ensures usages == ReportAll(hash, calls)
  {
    var tracker := new PromptCacheTracker(hash);
    usages := [];
    for i := 0 to |calls|
      invariant tracker.hash == hash && fresh(tracker)
      invariant tracker.Valid() && tracker.log == History(calls[..i])
      invariant i < |calls| ==> tracker.pruned <= calls[i].now
      invariant usages == ReportAll(hash, calls[..i])
    {
      assert Front(calls[..i + 1]) == calls[..i] && Last(calls[..i + 1]) == calls[i];
      var usage := Perform(tracker, calls[i]);
      usages := usages + [usage];
    }
    assert calls[..|calls|] == calls;
  }

  /** One call against the tracker. */
  method Perform(tracker: PromptCacheTracker, call: Call) returns (usage: CacheUsage)
    requires tracker.Valid() && tracker.pruned <= call.now
    modifies tracker
    ensures tracker.Valid() && tracker.log == old(tracker.log) + Adds(old(tracker.log), call) && tracker.pruned <= call.now
    ensures usage == ReportOf(tracker.hash, old(tracker.log), call)
  {
    var profile := BuildClaudeProfile(tracker.hash, call.blocks, call.total, call.lowerModel);
    BuiltDescribes(tracker.hash, call.blocks, call.total, call.lowerModel);
    usage := NO_USAGE;
    match call {
      case Computed(account, blocks, _, _, now) => usage := tracker.Compute(account, profile, now, blocks);
      case Updated(account, blocks, _, _, now) => tracker.Update(account, profile, now, blocks);
    }
  }

  /** Every usage a run reports is accounted for, as `Accounted` says; updates and requests without breakpoints report none. */
  lemma {:induction false} ReportsAreAccounted(hash: Bytes -> Fingerprint, calls: seq<Call>, i: nat)
    requires i < |calls|
    ensures |ReportAll(hash, calls)| == |calls|
    ensures var profile := BuildProfile(hash, calls[i].blocks, calls[i].total, calls[i].lowerModel);
            var usage := ReportAll(hash, calls)[i];
            if calls[i].Updated? || calls[i].account == "" || profile.None? then usage == NO_USAGE
            else Accounted(profile.value, AnyLive(History(calls[..i]), calls[i].account, calls[i].now), usage)
    decreases |calls|
  {
    var front := Front(calls);
    ReportLength(hash, front);
    if i < |front| {
      ReportsAreAccounted(hash, front, i);
      assert front[..i] == calls[..i];
    } else {
      assert calls[..i] == front;
      if calls[i].Computed? {
        ReportIsAccounted(hash, History(front), AnyLive(History(front), calls[i].account, calls[i].now), calls[i]);
      }
    }
  }

  lemma {:induction false} ReportLength(hash: Bytes -> Fingerprint, calls: seq<Call>)
    ensures |ReportAll(hash, calls)| == |calls|
    decreases |calls|
  {
    if calls != [] {
      ReportLength(hash, Front(calls));
    }
  }

  lemma ReportIsAccounted(hash: Bytes -> Fingerprint, log: seq<Touch>, hasEntries: bool, call: Call)
    ensures var profile := BuildProfile(hash, call.blocks, call.total, call.lowerModel);
            call.account != "" && profile.Some? ==> Accounted(profile.value, hasEntries, Reports(hash, log, hasEntries, call))
  {
    var profile := BuildProfile(hash, call.blocks, call.total, call.lowerModel);
    if profile.Some? {
      var p := profile.value;
      BuiltIsWellBuilt(hash, call.blocks, call.total, call.lowerModel);
      var j := Longest(log, call.account, call.blocks, call.MinTokens(), call.now, |Ends(call.blocks)|);
      assert j >= 0 ==> p.breakpoints[j].cumulative <= p.breakpoints[|p.breakpoints| - 1].cumulative;
      Accounting(p, hasEntries, if j < 0 then 0 else Reach(p, j));
    }
  }

  /** Breakpoint j of the call stores this block sequence for this account. */
  predicate StoresAt(call: Call, account: string, prefix: seq<Bytes>, j: int) {
    && call.Updated? && call.account == account
    && 0 <= j < |Ends(call.blocks)| && PrefixAt(call.blocks, j) == prefix
    && Tokens(call.blocks[..Ends(call.blocks)[j]]) >= call.MinTokens()
  }

  /** A call that stored this block sequence for this account. */
  ghost predicate Stored(call: Call, account: string, prefix: seq<Bytes>) {
    exists j :: StoresAt(call, account, prefix, j)
  }

  /** For how long breakpoint j is stored. */
  function TTLAt(call: Call, j: nat): nat
    requires j < |Ends(call.blocks)|
  {
    PointTTL(call.blocks[..Ends(call.blocks)[j]])
  }

  lemma {:induction false} LastTouchAppend(log: seq<Touch>, more: seq<Touch>, account: string, prefix: seq<Bytes>)
    ensures var t := LastTouch(more, account, prefix);
            LastTouch(log + more, account, prefix) == if t.Some? then t else LastTouch(log, account, prefix)
    decreases |more|
  {
    if more == [] {
      assert log + more == log;
    } else {
      assert Last(log + more) == Last(more) && Front(log + more) == log + Front(more);
      LastTouchAppend(log, Front(more), account, prefix);
    }
  }

  lemma LastTouchSnoc(log: seq<Touch>, t: Touch, account: string, prefix: seq<Bytes>)
    ensures LastTouch(log + [t], account, prefix) == if t.account == account && t.prefix == prefix then Some(t) else LastTouch(log, account, prefix)
  {
    assert Front(log + [t]) == log;
  }

  /** The touch that storing breakpoint j leaves. */
  function StoreAt(account: string, blocks: seq<CacheBlock>, now: nat, j: nat): Touch
    requires j < |Ends(blocks)|
  {
    Touch(account, PrefixAt(blocks, j), now, PointTTL(blocks[..Ends(blocks)[j]]))
  }

  lemma StoresUnfold(account: string, blocks: seq<CacheBlock>, minTokens: nat, now: nat, n: nat)
    requires n < |Ends(blocks)|
    ensures var before := Stores(account, blocks, minTokens, now, n);
            Stores(account, blocks, minTokens, now, n + 1)
            == if Tokens(blocks[..Ends(blocks)[n]]) >= minTokens then before + [StoreAt(account, blocks, now, n)] else before
  {
    var before := Stores(account, blocks, minTokens, now, n);
    assert before + [] == before;
  }

  /** The block sequence was last touched at this time, with this TTL. */
  predicate TouchedAt(log: seq<Touch>, account: string, prefix: seq<Bytes>, time: nat, ttl: nat) {
    var t := LastTouch(log, account, prefix);
    t.Some? && t.value.time == time && t.value.ttl == ttl
  }

  /** One more breakpoint does not touch the block sequence of an earlier one. */
  lemma OtherStore(account: string, blocks: seq<CacheBlock>, minTokens: nat, now: nat, m: nat, n: nat, j: nat, ttl: nat)
    requires j < m < |Ends(blocks)| && n == m + 1
    requires TouchedAt(Stores(account, blocks, minTokens, now, m), account, PrefixAt(blocks, j), now, ttl)
    ensures TouchedAt(Stores(account, blocks, minTokens, now, n), account, PrefixAt(blocks, j), now, ttl)
  {
    StoresUnfold(account, blocks, minTokens, now, m);
    LongerIsOther(blocks, j, m);
    LastTouchSnoc(Stores(account, blocks, minTokens, now, m), StoreAt(account, blocks, now, m), account, PrefixAt(blocks, j));
  }

  lemma OwnStore(account: string, blocks: seq<CacheBlock>, minTokens: nat, now: nat, j: nat, n: nat, ttl: nat)
    requires j < |Ends(blocks)| && n == j + 1
    requires Tokens(blocks[..Ends(blocks)[j]]) >= minTokens && StoreAt(account, blocks, now, j).ttl == ttl
    ensures TouchedAt(Stores(account, blocks, minTokens, now, n), account, PrefixAt(blocks, j), now, ttl)
  {
    StoresUnfold(account, blocks, minTokens, now, j);
    LastTouchSnoc(Stores(account, blocks, minTokens, now, j), StoreAt(account, blocks, now, j), account, PrefixAt(blocks, j));
  }

  /** The touch a stored breakpoint leaves. */
  lemma {:induction false} StoresTouch(account: string, blocks: seq<CacheBlock>, minTokens: nat, now: nat, n: nat, j: nat, ttl: nat)
    requires j < n <= |Ends(blocks)| && Tokens(blocks[..Ends(blocks)[j]]) >= minTokens
    requires StoreAt(account, blocks, now, j).ttl == ttl
    ensures TouchedAt(Stores(account, blocks, minTokens, now, n), account, PrefixAt(blocks, j), now, ttl)
    decreases n
  {
    if n == j + 1 {
      OwnStore(account, blocks, minTokens, now, j, n, ttl);
    } else {
      var m: nat := n - 1;
      StoresTouch(account, blocks, minTokens, now, m, j, ttl);
      OtherStore(account, blocks, minTokens, now, m, n, j, ttl);
    }
  }

  lemma LongerIsOther(blocks: seq<CacheBlock>, i: nat, j: nat)
    requires i < j < |Ends(blocks)|
    ensures PrefixAt(blocks, i) != PrefixAt(blocks, j)
  {
    EndsIncrease(blocks, i, j);
    assert |PrefixAt(blocks, i)| < |PrefixAt(blocks, j)|;
  }

  lemma {:induction false} EndsIncrease(blocks: seq<CacheBlock>, i: nat, j: nat)
    requires i < j < |Ends(blocks)|
    ensures Ends(blocks)[i] < Ends(blocks)[j]
    decreases |blocks|
  {
    if j < |Ends(Front(blocks))| {
      EndsIncrease(Front(blocks), i, j);
    }
  }

  lemma {:induction false} StoresOnly(account: string, blocks: seq<CacheBlock>, minTokens: nat, now: nat, n: nat, t: Touch) returns (j: nat)
    requires n <= |Ends(blocks)| && t in Stores(account, blocks, minTokens, now, n)
    ensures j < n && t == Touch(account, PrefixAt(blocks, j), now, PointTTL(blocks[..Ends(blocks)[j]]))
    ensures Tokens(blocks[..Ends(blocks)[j]]) >= minTokens
    decreases n
  {
    if t in Stores(account, blocks, minTokens, now, n - 1) {
      j := StoresOnly(account, blocks, minTokens, now, n - 1, t);
    } else {
      j := n - 1;
    }
  }

  /** An update's touch of a block sequence is that of a breakpoint which stores it. */
  lemma TouchIsStore(call: Call, log: seq<Touch>, account: string, prefix: seq<Bytes>) returns (j: nat)
    requires call.Updated? && LastTouch(Adds(log, call), account, prefix).Some?
    ensures StoresAt(call, account, prefix, j)
    ensures LastTouch(Adds(log, call), account, prefix) == Some(Touch(account, prefix, call.now, TTLAt(call, j)))
  {
    j := StoresOnly(call.account, call.blocks, call.MinTokens(), call.now, |Ends(call.blocks)|, LastTouch(Adds(log, call), account, prefix).value);
  }

  /** And a breakpoint that stores it leaves such a touch. */
  lemma StoreIsTouch(call: Call, log: seq<Touch>, account: string, prefix: seq<Bytes>, j: nat)
    requires account != "" && StoresAt(call, account, prefix, j)
    ensures LastTouch(Adds(log, call), account, prefix) == Some(Touch(account, prefix, call.now, TTLAt(call, j)))
  {
    StoresTouch(account, call.blocks, call.MinTokens(), call.now, |Ends(call.blocks)|, j, TTLAt(call, j));
  }

  /** Nothing is ever live for an account that was not stored, block for block, for that account. */
  lemma {:induction false} LiveWasStored(calls: seq<Call>, account: string, prefix: seq<Bytes>)
    requires LastTouch(History(calls), account, prefix).Some?
    ensures exists i :: 0 <= i < |calls| && Stored(calls[i], account, prefix)
    decreases |calls|
  {
    var before, call := History(Front(calls)), Last(calls);
    var adds := Adds(before, call);
    LastTouchAppend(before, adds, account, prefix);
    var t := LastTouch(adds, account, prefix);
    if t.Some? && call.Updated? {
      var j := TouchIsStore(call, before, account, prefix);
      assert Stored(calls[|calls| - 1], account, prefix);
    } else {
      if t.Some? {
        assert t.value == adds[0];
        assert Live(before, account, prefix, call.now);
      }
      LiveWasStored(Front(calls), account, prefix);
      var i :| 0 <= i < |Front(calls)| && Stored(Front(calls)[i], account, prefix);
      assert Stored(calls[i], account, prefix);
    }
  }

  /** A reported read always comes from a breakpoint whose exact block sequence was stored for the account. */
  lemma ReadWasStored(calls: seq<Call>, account: string, blocks: seq<CacheBlock>, minTokens: nat, now: nat)
    ensures var j := Longest(History(calls), account, blocks, minTokens, now, |Ends(blocks)|);
            j >= 0 ==> exists i :: 0 <= i < |calls| && Stored(calls[i], account, PrefixAt(blocks, j))
  {
    var j := Longest(History(calls), account, blocks, minTokens, now, |Ends(blocks)|);
    if j >= 0 {
      LiveWasStored(calls, account, PrefixAt(blocks, j));
    }
  }

  /** The i-th call stores the block sequence, and no later one does. */
  ghost predicate LastStore(calls: seq<Call>, account: string, prefix: seq<Bytes>, i: nat) {
    i < |calls| && Stored(calls[i], account, prefix) && forall k :: i < k < |calls| ==> !Stored(calls[k], account, prefix)
  }

  /** A computation that reads this block sequence for this account. */
  predicate HitBy(log: seq<Touch>, call: Call, account: string, prefix: seq<Bytes>) {
    && call.Computed? && call.account == account && account != ""
    && var j := Longest(log, account, call.blocks, call.MinTokens(), call.now, |Ends(call.blocks)|);
       j >= 0 && PrefixAt(call.blocks, j) == prefix
  }

  /** When the block sequence was last used from the i-th call on: at the last hit since, or at that call. */
  function LastUse(calls: seq<Call>, account: string, prefix: seq<Bytes>, i: nat): nat
    requires i < |calls|
    decreases |calls|
  {
    if i == |calls| - 1 then calls[i].now
    else if HitBy(History(Front(calls)), Last(calls), account, prefix) then Last(calls).now
    else LastUse(Front(calls), account, prefix, i)
  }

  /**
   Whatever happens in between, a block sequence lives for exactly the TTL it was last stored with, counted from
   that store or from the last hit since.
   */
  lemma {:induction false} LastStoreRules(calls: seq<Call>, account: string, prefix: seq<Bytes>, i: nat, j: nat)
    requires account != "" && LastStore(calls, account, prefix, i) && StoresAt(calls[i], account, prefix, j)
    ensures TouchedAt(History(calls), account, prefix, LastUse(calls, account, prefix, i), TTLAt(calls[i], j))
    decreases |calls|
  {
    var front, call := Front(calls), Last(calls);
    var before := History(front);
    LastTouchAppend(before, Adds(before, call), account, prefix);
    if i == |calls| - 1 {
      StoreIsTouch(call, before, account, prefix, j);
    } else {
      assert front[i] == calls[i];
      assert LastStore(front, account, prefix, i) by {
        assert forall k :: i < k < |front| ==> front[k] == calls[k];
      }
      LastStoreRules(front, account, prefix, i, j);
      AddsWithoutStore(before, call, account, prefix);
    }
  }

  /** A call that does not store the block sequence adds a touch of it exactly if it is a hit, with the TTL it had. */
  lemma AddsWithoutStore(log: seq<Touch>, call: Call, account: string, prefix: seq<Bytes>)
    requires account != "" && !Stored(call, account, prefix) && LastTouch(log, account, prefix).Some?
    ensures if HitBy(log, call, account, prefix)
            then TouchedAt(Adds(log, call), account, prefix, call.now, LastTouch(log, account, prefix).value.ttl)
            else LastTouch(Adds(log, call), account, prefix).None?
  {
    if call.Updated? && LastTouch(Adds(log, call), account, prefix).Some? {
      var j := TouchIsStore(call, log, account, prefix);
      assert false;
    }
  }

  /** A stored block sequence is live until, and no longer than, that: the exact condition. */
  lemma LiveIff(calls: seq<Call>, account: string, prefix: seq<Bytes>, i: nat, j: nat, now: nat)
    requires account != "" && LastStore(calls, account, prefix, i) && StoresAt(calls[i], account, prefix, j)
    ensures Live(History(calls), account, prefix, now) <==> now < LastUse(calls, account, prefix, i) + TTLAt(calls[i], j)
  {
    LastStoreRules(calls, account, prefix, i, j);
  }

  lemma {:induction false} UsedSinceStored(calls: seq<Call>, account: string, prefix: seq<Bytes>, i: nat)
    requires Ordered(calls) && i < |calls|
    ensures calls[i].now <= LastUse(calls, account, prefix, i)
    decreases |calls|
  {
    if i < |calls| - 1 {
      assert Front(calls)[i] == calls[i];
      UsedSinceStored(Front(calls), account, prefix, i);
    }
  }

  lemma {:induction false} LastStoreExists(calls: seq<Call>, account: string, prefix: seq<Bytes>, i: nat) returns (k: nat)
    requires i < |calls| && Stored(calls[i], account, prefix)
    ensures i <= k && LastStore(calls, account, prefix, k)
    decreases |calls| - i
  {
    if k' :| i < k' < |calls| && Stored(calls[k'], account, prefix) {
      k := LastStoreExists(calls, account, prefix, k');
    } else {
      k := i;
    }
  }

  /** The TTL of every store of the block sequence by this call reaches beyond `now`. */
  ghost predicate Outlasts(call: Call, account: string, prefix: seq<Bytes>, now: nat) {
    forall j :: StoresAt(call, account, prefix, j) ==> now < call.now + TTLAt(call, j)
  }

  /**
   A breakpoint that reaches the threshold, and whose block sequence was stored, is found by a later request
   exactly while that block sequence is live: with the last store's TTL, from that store or the last hit since.
   */
  lemma FoundIff(calls: seq<Call>, i: nat, j: nat, account: string, later: seq<CacheBlock>, minTokens: nat, now: nat, k: nat)
    requires account != "" && k < |Ends(later)| && Tokens(later[..Ends(later)[k]]) >= minTokens
    requires LastStore(calls, account, PrefixAt(later, k), i) && StoresAt(calls[i], account, PrefixAt(later, k), j)
    ensures var until := LastUse(calls, account, PrefixAt(later, k), i) + TTLAt(calls[i], j);
            && (Longest(History(calls), account, later, minTokens, now, k + 1) == k <==> now < until)
            && (now < until ==> Longest(History(calls), account, later, minTokens, now, |Ends(later)|) >= k)
            && (now >= until ==> Longest(History(calls), account, later, minTokens, now, |Ends(later)|) != k)
  {
    LiveIff(calls, account, PrefixAt(later, k), i, j, now);
  }

  /**
   In particular it is found by any later request of the account that has the same blocks up to some
   breakpoint, whatever was computed, updated and pruned in between, while neither the TTL of the store nor that
   of any later store of the same blocks is over.
   */
  lemma StoredIsFound(calls: seq<Call>, i: nat, account: string, later: seq<CacheBlock>, minTokens: nat, now: nat, k: nat)
    requires Ordered(calls) && account != "" && i < |calls| && k < |Ends(later)|
    requires Stored(calls[i], account, PrefixAt(later, k)) && Tokens(later[..Ends(later)[k]]) >= minTokens
    requires forall n :: i <= n < |calls| ==> Outlasts(calls[n], account, PrefixAt(later, k), now)
    ensures Longest(History(calls), account, later, minTokens, now, |Ends(later)|) >= k
  {
    var prefix := PrefixAt(later, k);
    var n := LastStoreExists(calls, account, prefix, i);
    var j :| StoresAt(calls[n], account, prefix, j);
    UsedSinceStored(calls, account, prefix, n);
    FoundIff(calls, n, j, account, later, minTokens, now, k);
  }

  /** One block, given an hour at first and five minutes a second later. */
  const FOR_AN_HOUR := [CacheBlock([], 4096, HOUR, true)]
  const FOR_FIVE_MINUTES := [CacheBlock([], 4096, FIVE_MINUTES, true)]
  const RESTORED := [Updated("a", FOR_AN_HOUR, 4096, "", 0), Updated("a", FOR_FIVE_MINUTES, 4096, "", SECOND)]

  lemma OneBlock(ttl: nat)
    requires ttl > 0
    ensures var blocks := [CacheBlock([], 4096, ttl, true)];
            && Ends(blocks) == [1] && PrefixAt(blocks, 0) == [[]] && blocks[..1] == blocks
            && Tokens(blocks) == 4096 && PointTTL(blocks) == ttl
  {
    var blocks := [CacheBlock([], 4096, ttl, true)];
    assert Front(blocks) == [] && blocks[..1] == blocks;
    assert Ends(blocks) == [] + [1];
    assert Chunks(blocks) == [] + [[]];
  }

  /** The second condition is needed: a store with a shorter TTL cuts the first one short. */
  lemma RestoreCutsShort()
    ensures Ordered(RESTORED)
    ensures Stored(RESTORED[0], "a", [[]]) && Outlasts(RESTORED[0], "a", [[]], 600 * SECOND)
    ensures !Live(History(RESTORED), "a", [[]], 600 * SECOND)
  {
    OneBlock(HOUR);
    OneBlock(FIVE_MINUTES);
    assert StoresAt(RESTORED[0], "a", [[]], 0) && StoresAt(RESTORED[1], "a", [[]], 0);
    assert LastStore(RESTORED, "a", [[]], 1);
    LastStoreRules(RESTORED, "a", [[]], 1, 0);
  }

  /** A hit slides the expiry: the matched prefix stays live for its TTL from the hit on. */
  lemma HitSlides(calls: seq<Call>, now: nat)
    requires calls != [] && Last(calls).Computed? && Last(calls).account != ""
    requires Longest(History(Front(calls)), Last(calls).account, Last(calls).blocks, Last(calls).MinTokens(), Last(calls).now, |Ends(Last(calls).blocks)|) >= 0
    ensures var call := Last(calls);
            var before := History(Front(calls));
            var prefix := PrefixAt(call.blocks, Longest(before, call.account, call.blocks, call.MinTokens(), call.now, |Ends(call.blocks)|));
            Live(History(calls), call.account, prefix, now) <==> now < call.now + LastTouch(before, call.account, prefix).value.ttl
  {
    var call := Last(calls);
    var before := History(Front(calls));
    var prefix := PrefixAt(call.blocks, Longest(before, call.account, call.blocks, call.MinTokens(), call.now, |Ends(call.blocks)|));
    LastTouchAppend(before, Adds(before, call), call.account, prefix);
  }
}
