/** Prompt-cache profiles: which prefixes of a request's blocks are breakpoints, and what they cost. */
module CacheProfile {
  import opened Basics
  import opened Text
  import opened HashFraming

  const SECOND := 1_000_000_000
  const FIVE_MINUTES := 300 * SECOND
  const HOUR := 3600 * SECOND

  /** A flattened request block: its canonical form, token estimate, and normalized TTL (0 for none). */
  datatype CacheBlock = CacheBlock(canonical: Bytes, tokens: nat, ttl: nat, isMessageEnd: bool)

  datatype Breakpoint = Breakpoint(fingerprint: Fingerprint, cumulative: nat, ttl: nat)

  datatype Profile = Profile(breakpoints: seq<Breakpoint>, total: int, lowerModel: string)

  /** Cache-control TTLs come in two sizes. */
  function NormalizeTTL(ttl: int): (r: nat)
    ensures r == 0 || r == FIVE_MINUTES || r == HOUR
    ensures r == 0 <==> ttl <= 0
    ensures ttl <= FIVE_MINUTES ==> r <= FIVE_MINUTES
  {
    if ttl <= 0 then 0
    else if ttl > HOUR then HOUR
    else if ttl > FIVE_MINUTES then HOUR
    else FIVE_MINUTES
  }

  function MinCacheableTokens(lowerModel: string): nat {
    if Contains(lowerModel, "opus") then 4096 else 1024
  }

  function Tokens(blocks: seq<CacheBlock>): nat {
    if blocks == [] then 0 else Tokens(Front(blocks)) + Last(blocks).tokens
  }

  function Chunks(blocks: seq<CacheBlock>): (c: seq<Bytes>)
    ensures |c| == |blocks|
  {
    if blocks == [] then [] else Chunks(Front(blocks)) + [Last(blocks).canonical]
  }

  /** The TTL of the last explicit breakpoint, or 0 before any. */
  function ActiveTTL(blocks: seq<CacheBlock>): nat {
    if blocks == [] then 0
    else if Last(blocks).ttl > 0 then Last(blocks).ttl
    else ActiveTTL(Front(blocks))
  }

  /** The TTL with which the last block is a breakpoint, or 0 if it is none. */
  function PointTTL(blocks: seq<CacheBlock>): nat
    requires blocks != []
  {
    if Last(blocks).ttl > 0 then Last(blocks).ttl
    else if Last(blocks).isMessageEnd then ActiveTTL(Front(blocks))
    else 0
  }

  /** The lengths of the prefixes that are breakpoints. */
  function Ends(blocks: seq<CacheBlock>): (e: seq<nat>)
    ensures forall j :: 0 <= j < |e| ==> 0 < e[j] <= |blocks|
  {
    if blocks == [] then []
    else Ends(Front(blocks)) + (if PointTTL(blocks) > 0 then [|blocks|] else [])
  }

  /** The fingerprint of a block sequence. */
  function Print(hash: Bytes -> Fingerprint, chunks: seq<Bytes>): Fingerprint {
    hash(Frames(chunks))
  }

  /** Fingerprints identify block sequences. */
  lemma PrintInjective(hash: Bytes -> Fingerprint, a: seq<Bytes>, b: seq<Bytes>)
    requires Collisionless(hash) && Print(hash, a) == Print(hash, b)
    ensures a == b
  {
    FramesInjective(a, b);
  }

  function PointOf(hash: Bytes -> Fingerprint, prefix: seq<CacheBlock>): Breakpoint
    requires prefix != []
  {
    Breakpoint(Print(hash, Chunks(prefix)), Tokens(prefix), PointTTL(prefix))
  }

  function Points(hash: Bytes -> Fingerprint, blocks: seq<CacheBlock>): (p: seq<Breakpoint>)
    ensures |p| == |Ends(blocks)|
  {
    if blocks == [] then []
    else Points(hash, Front(blocks)) + (if PointTTL(blocks) > 0 then [PointOf(hash, blocks)] else [])
  }

  /** Each breakpoint describes exactly one prefix of the blocks. */
  lemma {:induction false} PointsDescribe(hash: Bytes -> Fingerprint, blocks: seq<CacheBlock>, j: nat)
    requires j < |Ends(blocks)|
    ensures Points(hash, blocks)[j] == PointOf(hash, blocks[..Ends(blocks)[j]])
    decreases |blocks|
  {
    var front := Front(blocks);
    if j < |Ends(front)| {
      PointsDescribe(hash, front, j);
      assert blocks[..Ends(front)[j]] == front[..Ends(front)[j]];
    } else {
      assert blocks[..|blocks|] == blocks;
    }
  }

  /** A TTL was given to one of the first n blocks, for the last time to block i. */
  ghost predicate LastGiven(blocks: seq<CacheBlock>, n: nat, i: nat) {
    i < n <= |blocks| && blocks[i].ttl > 0 && forall k :: i < k < n ==> blocks[k].ttl == 0
  }

  lemma {:induction false} ActiveTTLIs(blocks: seq<CacheBlock>, n: nat)
    requires n <= |blocks|
    ensures ActiveTTL(blocks[..n]) > 0 ==> exists i: nat :: LastGiven(blocks, n, i) && ActiveTTL(blocks[..n]) == blocks[i].ttl
    ensures ActiveTTL(blocks[..n]) == 0 ==> forall i :: 0 <= i < n ==> blocks[i].ttl == 0
    decreases n
  {
    if n > 0 {
      var m: nat := n - 1;
      assert Front(blocks[..n]) == blocks[..m] && Last(blocks[..n]) == blocks[m];
      ActiveTTLIs(blocks, m);
      if blocks[m].ttl > 0 {
        assert LastGiven(blocks, n, m);
      } else if ActiveTTL(blocks[..m]) > 0 {
        var i: nat :| LastGiven(blocks, m, i) && ActiveTTL(blocks[..m]) == blocks[i].ttl;
        assert LastGiven(blocks, n, i);
      }
    }
  }

  lemma {:induction false} EndsIff(blocks: seq<CacheBlock>, n: nat)
    requires 0 < n <= |blocks|
    ensures n in Ends(blocks) <==> PointTTL(blocks[..n]) > 0
    decreases |blocks|
  {
    if n == |blocks| {
      assert blocks[..n] == blocks;
    } else {
      assert Front(blocks)[..n] == blocks[..n];
      EndsIff(Front(blocks), n);
    }
  }

  lemma PointTTLIs(blocks: seq<CacheBlock>, n: nat, m: nat)
    requires 0 < n <= |blocks| && m == n - 1
    ensures PointTTL(blocks[..n])
         == if blocks[m].ttl > 0 then blocks[m].ttl else if blocks[m].isMessageEnd then ActiveTTL(blocks[..m]) else 0
  {
    assert Front(blocks[..n]) == blocks[..m] && Last(blocks[..n]) == blocks[m];
  }

  /** One of the first m blocks was given a TTL. */
  ghost predicate Given(blocks: seq<CacheBlock>, m: nat)
    requires m <= |blocks|
  {
    exists i :: 0 <= i < m && blocks[i].ttl > 0
  }

  lemma GivenIff(blocks: seq<CacheBlock>, m: nat)
    requires m <= |blocks|
    ensures ActiveTTL(blocks[..m]) > 0 <==> Given(blocks, m)
  {
    ActiveTTLIs(blocks, m);
  }

  lemma StoredFor(blocks: seq<CacheBlock>, n: nat, m: nat)
    requires 0 < n <= |blocks| && m == n - 1 && PointTTL(blocks[..n]) > 0
    ensures exists i: nat :: LastGiven(blocks, n, i) && PointTTL(blocks[..n]) == blocks[i].ttl
  {
    PointTTLIs(blocks, n, m);
    if blocks[m].ttl > 0 {
      assert LastGiven(blocks, n, m);
    } else {
      ActiveTTLIs(blocks, m);
      var i: nat :| LastGiven(blocks, m, i) && ActiveTTL(blocks[..m]) == blocks[i].ttl;
      assert LastGiven(blocks, n, i);
    }
  }

  /**
   Which prefixes are breakpoints, and for how long: those that end in a block with a TTL of its own, and those that end a
   message behind one. The TTL is that of the last block of the prefix that was given one.
   */
  lemma BreakpointsAre(blocks: seq<CacheBlock>, m: nat, n: nat)
    requires m < |blocks| && n == m + 1
    ensures n in Ends(blocks) <==> blocks[m].ttl > 0 || (blocks[m].isMessageEnd && Given(blocks, m))
    ensures n in Ends(blocks) ==> exists i: nat :: LastGiven(blocks, n, i) && PointTTL(blocks[..n]) == blocks[i].ttl
  {
    EndsIff(blocks, n);
    PointTTLIs(blocks, n, m);
    GivenIff(blocks, m);
    if n in Ends(blocks) {
      StoredFor(blocks, n, m);
    }
  }

  /** Token counts never go down along the breakpoints, and never exceed `bound`. */
  ghost predicate Rising(points: seq<Breakpoint>, bound: int) {
    && (forall i, j :: 0 <= i < j < |points| ==> points[i].cumulative <= points[j].cumulative)
    && (forall i :: 0 <= i < |points| ==> points[i].cumulative <= bound)
  }

  /** Breakpoints are counted cumulatively. */
  lemma {:induction false} PointsRise(hash: Bytes -> Fingerprint, blocks: seq<CacheBlock>)
    ensures Rising(Points(hash, blocks), Tokens(blocks))
    decreases |blocks|
  {
    if blocks != [] {
      PointsRise(hash, Front(blocks));
      var front, points := Points(hash, Front(blocks)), Points(hash, blocks);
      assert points == front || points == front + [PointOf(hash, blocks)];
    }
  }

  /** One more block. */
  lemma PrefixStep(hash: Bytes -> Fingerprint, blocks: seq<CacheBlock>, i: nat)
    requires i < |blocks|
    ensures var before, after := blocks[..i], blocks[..i + 1];
            && Last(after) == blocks[i] && Front(after) == before
            && Frames(Chunks(after)) == Frames(Chunks(before)) + Frame(blocks[i].canonical)
            && Tokens(after) == Tokens(before) + blocks[i].tokens
            && ActiveTTL(after) == (if blocks[i].ttl > 0 then blocks[i].ttl else ActiveTTL(before))
            && Points(hash, after) == (if PointTTL(after) > 0 then Points(hash, before) + [PointOf(hash, after)] else Points(hash, before))
  {
    assert Points(hash, blocks[..i]) + [] == Points(hash, blocks[..i]);
    var before, after := blocks[..i], blocks[..i + 1];
    assert Front(after) == before;
    FramesAppend(Chunks(before), [blocks[i].canonical]);
    assert [blocks[i].canonical][1..] == [] && Frame(blocks[i].canonical) + [] == Frame(blocks[i].canonical);
  }

  function BuildProfile(hash: Bytes -> Fingerprint, blocks: seq<CacheBlock>, total: int, lowerModel: string): Option<Profile> {
    if Ends(blocks) == [] then None
    else Some(Profile(Points(hash, blocks), if total < Tokens(blocks) then Tokens(blocks) else total, lowerModel))
  }

  lemma WrittenStep(blocks: seq<CacheBlock>, i: nat)
    requires i < |blocks|
    ensures Frames(Chunks(blocks[..i + 1])) == Frames(Chunks(blocks[..i])) + Frame(blocks[i].canonical)
  {
    PrefixStep(_ => [], blocks, i);
  }

  ghost predicate BuiltSoFar(hash: Bytes -> Fingerprint, prefix: seq<CacheBlock>, breakpoints: seq<Breakpoint>, cumulative: nat, activeTTL: nat) {
    breakpoints == Points(hash, prefix) && cumulative == Tokens(prefix) && activeTTL == ActiveTTL(prefix)
  }

  lemma BuildStep(hash: Bytes -> Fingerprint, blocks: seq<CacheBlock>, i: nat, breakpoints: seq<Breakpoint>, cumulative: nat, activeTTL: nat)
    requires i < |blocks| && BuiltSoFar(hash, blocks[..i], breakpoints, cumulative, activeTTL)
    ensures var block, after := blocks[i], blocks[..i + 1];
            var ttl := if block.ttl > 0 then block.ttl else if block.isMessageEnd then activeTTL else 0;
            var point := Breakpoint(hash(Frames(Chunks(after))), cumulative + block.tokens, ttl);
            BuiltSoFar(hash, after, if ttl > 0 then breakpoints + [point] else breakpoints, cumulative + block.tokens,
                       if block.ttl > 0 then block.ttl else activeTTL)
  {
    PrefixStep(hash, blocks, i);
  }

  lemma BuiltAll(hash: Bytes -> Fingerprint, blocks: seq<CacheBlock>, breakpoints: seq<Breakpoint>, cumulative: nat, activeTTL: nat, total: int, lowerModel: string)
    requires BuiltSoFar(hash, blocks[..|blocks|], breakpoints, cumulative, activeTTL)
    ensures BuildProfile(hash, blocks, total, lowerModel)
         == if |breakpoints| == 0 then None else Some(Profile(breakpoints, if total < cumulative then cumulative else total, lowerModel))
  {
    assert blocks[..|blocks|] == blocks;
    assert |breakpoints| == |Ends(blocks)|;
  }

  /** The loop's body: one more block into the hash and the counts, and a breakpoint if it is one. */
  method AddBlock(hasher: Hasher, blocks: seq<CacheBlock>, i: nat, breakpoints: seq<Breakpoint>, cumulative: nat, activeTTL: nat)
    returns (breakpoints': seq<Breakpoint>, cumulative': nat, activeTTL': nat)
    requires i < |blocks| && hasher.written == Frames(Chunks(blocks[..i]))
    requires BuiltSoFar(hasher.hash, blocks[..i], breakpoints, cumulative, activeTTL)
    modifies hasher
    ensures hasher.written == Frames(Chunks(blocks[..i + 1]))
    ensures BuiltSoFar(hasher.hash, blocks[..i + 1], breakpoints', cumulative', activeTTL')
  {
    var block := blocks[i];
    WrittenStep(blocks, i);
    BuildStep(hasher.hash, blocks, i, breakpoints, cumulative, activeTTL);
    WriteHashChunk(hasher, block.canonical);
    cumulative' := cumulative + block.tokens;
    breakpoints', activeTTL' := breakpoints, activeTTL;
    var breakpointTTL: nat := 0;
    if block.ttl > 0 {
      breakpointTTL := block.ttl;
      activeTTL' := block.ttl;
    } else if block.isMessageEnd && activeTTL > 0 {
      breakpointTTL := activeTTL;
    }
    if breakpointTTL <= 0 {
      return;
    }
    var fingerprint := hasher.Sum();
    breakpoints' := breakpoints' + [Breakpoint(fingerprint, cumulative', breakpointTTL)];
  }

  /** The loop over the blocks, with one running hash. */
  method BuildClaudeProfile(hash: Bytes -> Fingerprint, blocks: seq<CacheBlock>, totalInputTokens: int, lowerModel: string)
    returns (profile: Option<Profile>)
    ensures profile == BuildProfile(hash, blocks, totalInputTokens, lowerModel)
  {
    if |blocks| == 0 {
      return None;
    }
    var hasher := new Hasher(hash);
    var breakpoints: seq<Breakpoint> := [];
    var cumulativeTokens: nat := 0;
    var activeTTL: nat := 0;
    for i := 0 to |blocks|
      invariant hasher.hash == hash && hasher.written == Frames(Chunks(blocks[..i]))
      invariant BuiltSoFar(hash, blocks[..i], breakpoints, cumulativeTokens, activeTTL)
    {
      breakpoints, cumulativeTokens, activeTTL := AddBlock(hasher, blocks, i, breakpoints, cumulativeTokens, activeTTL);
    }
    BuiltAll(hash, blocks, breakpoints, cumulativeTokens, activeTTL, totalInputTokens, lowerModel);
    if |breakpoints| == 0 {
      return None;
    }
    var total := totalInputTokens;
    if total < cumulativeTokens {
      total := cumulativeTokens;
    }
    return Some(Profile(breakpoints, total, lowerModel));
  }

  // ---- Accounting ----

  datatype CacheUsage = CacheUsage(creation: int, read: int, creation5m: int, creation1h: int)

  const NO_USAGE := CacheUsage(0, 0, 0, 0)

  function MinInt(a: int, b: int): int {
    if a < b then a else b
  }

  function MaxInt(a: int, b: int): int {
    if a > b then a else b
  }

  /** How far a breakpoint reaches into the request. */
  function Reach(profile: Profile, j: nat): int
    requires j < |profile.breakpoints|
  {
    MinInt(profile.breakpoints[j].cumulative, profile.total)
  }

  datatype Parts = Parts(cache5m: int, cache1h: int)

  /** The 5m and 1h parts of what lies beyond `previous`, breakpoints from `j` on. */
  function Breakdown(profile: Profile, previous: int, j: nat): Parts
    decreases |profile.breakpoints| - j
  {
    if j >= |profile.breakpoints| then Parts(0, 0)
    else
      var current := Reach(profile, j);
      if current <= previous then Breakdown(profile, previous, j + 1)
      else
        var rest := Breakdown(profile, current, j + 1);
        if profile.breakpoints[j].ttl >= HOUR then rest.(cache1h := rest.cache1h + current - previous)
        else rest.(cache5m := rest.cache5m + current - previous)
  }

  method ComputePromptCacheTTLBreakdown(profile: Profile, matchedTokens: int) returns (cache5m: int, cache1h: int)
    ensures Parts(cache5m, cache1h) == Breakdown(profile, matchedTokens, 0)
  {
    cache5m, cache1h := 0, 0;
    var previous := matchedTokens;
    for j := 0 to |profile.breakpoints|
      invariant Breakdown(profile, matchedTokens, 0).cache5m == cache5m + Breakdown(profile, previous, j).cache5m
      invariant Breakdown(profile, matchedTokens, 0).cache1h == cache1h + Breakdown(profile, previous, j).cache1h
    {
      var current := MinInt(profile.breakpoints[j].cumulative, profile.total);
      if current <= previous {
        continue;
      }
      var delta := current - previous;
      if profile.breakpoints[j].ttl >= HOUR {
        cache1h := cache1h + delta;
      } else {
        cache5m := cache5m + delta;
      }
      previous := current;
    }
  }

  /** The usage reported, given whether the account has live entries and how far the hit reaches (0 for no hit). */
  function UsageFor(profile: Profile, hasEntries: bool, hit: int): CacheUsage
    requires profile.breakpoints != []
  {
    var last := Reach(profile, |profile.breakpoints| - 1);
    if !hasEntries then
      var parts := Breakdown(profile, 0, 0);
      CacheUsage(if last < MinCacheableTokens(profile.lowerModel) then 0 else last, 0, parts.cache5m, parts.cache1h)
    else
      var cap := profile.total * 85 / 100;
      var capped := if last > cap then cap else last;
      var matched := if hit > capped then capped else hit;
      var parts := Breakdown(profile, matched, 0);
      CacheUsage(MaxInt(capped - matched, 0), matched, parts.cache5m, parts.cache1h)
  }

  function BilledClaudeInputTokens(input: int, usage: CacheUsage): int {
    MaxInt(input - usage.creation - usage.read, 0)
  }

  /** A profile as the builder makes it. */
  ghost predicate WellBuilt(profile: Profile) {
    profile.breakpoints != [] && Rising(profile.breakpoints, profile.total)
  }

  lemma BuiltIsWellBuilt(hash: Bytes -> Fingerprint, blocks: seq<CacheBlock>, total: int, lowerModel: string)
    ensures var p := BuildProfile(hash, blocks, total, lowerModel); p.Some? ==> WellBuilt(p.value)
  {
    PointsRise(hash, blocks);
  }

  /** The two parts telescope, and both count something up. */
  lemma {:induction false} BreakdownTelescopes(profile: Profile, previous: int, j: nat)
    requires WellBuilt(profile) && j <= |profile.breakpoints|
    ensures var parts := Breakdown(profile, previous, j);
            && parts.cache5m >= 0 && parts.cache1h >= 0
            && parts.cache5m + parts.cache1h == (if j == |profile.breakpoints| then 0 else MaxInt(Reach(profile, |profile.breakpoints| - 1) - previous, 0))
    decreases |profile.breakpoints| - j
  {
    if j < |profile.breakpoints| {
      var current := Reach(profile, j);
      assert current <= Reach(profile, |profile.breakpoints| - 1);
      BreakdownTelescopes(profile, previous, j + 1);
      BreakdownTelescopes(profile, current, j + 1);
    }
  }

  /**
   What a reported usage has to add up to. The 5m and 1h parts are exactly what lies between the match and
   the last breakpoint, and cover what is reported as creation. Once the account has entries, read and
   creation together stay within 85% of the request. What is billed completes the sum.
   */
  ghost predicate Accounted(profile: Profile, hasEntries: bool, u: CacheUsage)
    requires profile.breakpoints != []
  {
    var last := Reach(profile, |profile.breakpoints| - 1);
    && u.creation5m + u.creation1h == last - u.read
    && 0 <= u.creation <= u.creation5m + u.creation1h
    && 0 <= u.read <= last
    && (hasEntries ==> 100 * (u.read + u.creation) <= 85 * profile.total)
    && (hasEntries ==> u.read + u.creation == MinInt(last, profile.total * 85 / 100))
    && (!hasEntries ==> u.read == 0)
    && forall input :: BilledClaudeInputTokens(input, u) + u.creation + u.read == MaxInt(input, u.creation + u.read)
  }

  lemma Accounting(profile: Profile, hasEntries: bool, hit: int)
    requires WellBuilt(profile) && 0 <= hit <= Reach(profile, |profile.breakpoints| - 1)
    ensures Accounted(profile, hasEntries, UsageFor(profile, hasEntries, hit)) && UsageFor(profile, hasEntries, hit).read <= hit
  {
    BreakdownTelescopes(profile, UsageFor(profile, hasEntries, hit).read, 0);
  }
}
