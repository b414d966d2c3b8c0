/** The prompt-cache tracker: per account, the longest live stored prefix, with sliding expiry and pruning. */
module CacheTracker {
  import opened Basics
  import opened HashFraming
  import opened CacheProfile
  import T = Text

  datatype Entry = Entry(expiresAt: nat, ttl: nat)

  type Entries = map<Fingerprint, Entry>

  /** A stored prefix or a hit on one: the exact block sequence, when, and for how long it lives on. */
  datatype Touch = Touch(account: string, prefix: seq<Bytes>, time: nat, ttl: nat)

  /** The last time a block sequence was stored or hit for an account. */
  function LastTouch(log: seq<Touch>, account: string, prefix: seq<Bytes>): (t: Option<Touch>)
    ensures t.Some? ==> t.value in log && t.value.account == account && t.value.prefix == prefix
    ensures t.None? ==> forall x :: x in log ==> x.account != account || x.prefix != prefix
  {
    if log == [] then None
    else if Last(log).account == account && Last(log).prefix == prefix then Some(Last(log))
    else LastTouch(Front(log), account, prefix)
  }

  /** Last stored or hit less than its TTL ago. */
  predicate Live(log: seq<Touch>, account: string, prefix: seq<Bytes>, now: nat) {
    var t := LastTouch(log, account, prefix);
    t.Some? && now < t.value.time + t.value.ttl
  }

  ghost predicate AnyLive(log: seq<Touch>, account: string, now: nat) {
    exists prefix :: Live(log, account, prefix, now)
  }

  /** The block sequence of breakpoint `j`. */
  function PrefixAt(blocks: seq<CacheBlock>, j: nat): seq<Bytes>
    requires j < |Ends(blocks)|
  {
    Chunks(blocks[..Ends(blocks)[j]])
  }

  /** The longest breakpoint among the first `n` that reaches the threshold and is live for the account, or -1. */
  function Longest(log: seq<Touch>, account: string, blocks: seq<CacheBlock>, minTokens: nat, now: nat, n: nat): (j: int)
    requires n <= |Ends(blocks)|
    ensures -1 <= j < n
    ensures j >= 0 ==> Tokens(blocks[..Ends(blocks)[j]]) >= minTokens && Live(log, account, PrefixAt(blocks, j), now)
    ensures forall i :: j < i < n && Tokens(blocks[..Ends(blocks)[i]]) >= minTokens ==> !Live(log, account, PrefixAt(blocks, i), now)
  {
    if n == 0 then -1
    else if Tokens(blocks[..Ends(blocks)[n - 1]]) >= minTokens && Live(log, account, PrefixAt(blocks, n - 1), now) then n - 1
    else Longest(log, account, blocks, minTokens, now, n - 1)
  }

  /** What a request with this profile stores. */
  function Stores(account: string, blocks: seq<CacheBlock>, minTokens: nat, now: nat, n: nat): seq<Touch>
    requires n <= |Ends(blocks)|
  {
    if n == 0 then []
    else
      var prefix := blocks[..Ends(blocks)[n - 1]];
      Stores(account, blocks, minTokens, now, n - 1) +
        (if Tokens(prefix) >= minTokens then [Touch(account, Chunks(prefix), now, PointTTL(prefix))] else [])
  }

  lemma StoresStep(account: string, blocks: seq<CacheBlock>, minTokens: nat, now: nat, j: nat, log: seq<Touch>)
    requires j < |Ends(blocks)|
    ensures var prefix := blocks[..Ends(blocks)[j]];
            var before := log + Stores(account, blocks, minTokens, now, j);
            log + Stores(account, blocks, minTokens, now, j + 1)
            == if Tokens(prefix) >= minTokens then before + [Touch(account, PrefixAt(blocks, j), now, PointTTL(prefix))] else before
  {
    var prefix := blocks[..Ends(blocks)[j]];
    var stores := Stores(account, blocks, minTokens, now, j);
    T.Assoc(log, stores, [Touch(account, Chunks(prefix), now, PointTTL(prefix))]);
    assert stores + [] == stores;
  }

  function Lookup(all: map<string, Entries>, account: string, fp: Fingerprint): Option<Entry> {
    if account in all && fp in all[account] then Some(all[account][fp]) else None
  }

  function EntryOf(t: Touch): Entry {
    Entry(t.time + t.ttl, t.ttl)
  }

  /** The entries are the log, less what had expired when they were last pruned. */
  ghost predicate Represents(hash: Bytes -> Fingerprint, all: map<string, Entries>, log: seq<Touch>, pruned: nat) {
    && (forall account, prefix :: Tracked(hash, all, log, pruned, account, prefix))
    && (forall account, fp :: Lookup(all, account, fp).Some? ==> Known(hash, log, account, fp))
  }

  ghost predicate Tracked(hash: Bytes -> Fingerprint, all: map<string, Entries>, log: seq<Touch>, pruned: nat, account: string, prefix: seq<Bytes>) {
    var entry := Lookup(all, account, Print(hash, prefix));
    var touch := LastTouch(log, account, prefix);
    && (entry.Some? ==> touch.Some? && entry.value == EntryOf(touch.value))
    && (Live(log, account, prefix, pruned) ==> entry.Some?)
  }

  ghost predicate Known(hash: Bytes -> Fingerprint, log: seq<Touch>, account: string, fp: Fingerprint) {
    exists prefix :: Print(hash, prefix) == fp && LastTouch(log, account, prefix).Some?
  }

  /** Storing or hitting a prefix is one more touch. */
  lemma TouchRepresents(hash: Bytes -> Fingerprint, all: map<string, Entries>, all': map<string, Entries>, log: seq<Touch>, pruned: nat, t: Touch)
    requires Collisionless(hash) && Represents(hash, all, log, pruned)
    requires forall account, fp :: Lookup(all', account, fp)
               == if account == t.account && fp == Print(hash, t.prefix) then Some(EntryOf(t)) else Lookup(all, account, fp)
    ensures Represents(hash, all', log + [t], pruned)
  {
    assert Front(log + [t]) == log;
    forall account, prefix
      ensures Tracked(hash, all', log + [t], pruned, account, prefix)
    {
      assert Tracked(hash, all, log, pruned, account, prefix);
      if Print(hash, prefix) == Print(hash, t.prefix) {
        PrintInjective(hash, prefix, t.prefix);
      }
    }
    forall account, fp | Lookup(all', account, fp).Some?
      ensures Known(hash, log + [t], account, fp)
    {
      if account == t.account && fp == Print(hash, t.prefix) {
        assert LastTouch(log + [t], account, t.prefix).Some?;
      } else {
        assert Known(hash, log, account, fp);
        var prefix :| Print(hash, prefix) == fp && LastTouch(log, account, prefix).Some?;
        assert LastTouch(log + [t], account, prefix).Some?;
      }
    }
  }

  /** Dropping exactly what has expired loses nothing that is live. */
  lemma PruneRepresents(hash: Bytes -> Fingerprint, all: map<string, Entries>, all': map<string, Entries>, log: seq<Touch>, pruned: nat, now: nat)
    requires Represents(hash, all, log, pruned) && pruned <= now
    requires Filtered(all, all', {}, now)
    ensures Represents(hash, all', log, now)
  {
    forall account, prefix
      ensures Tracked(hash, all', log, now, account, prefix)
    {
      assert Tracked(hash, all, log, pruned, account, prefix);
    }
    forall account, fp | Lookup(all', account, fp).Some?
      ensures Known(hash, log, account, fp)
    {
      assert Lookup(all, account, fp).Some?;
    }
  }

  /** Right after pruning, a lookup tells exactly whether the prefix is live. */
  lemma LookupIsLive(hash: Bytes -> Fingerprint, all: map<string, Entries>, log: seq<Touch>, now: nat, account: string, prefix: seq<Bytes>)
    requires Represents(hash, all, log, now)
    requires NoneExpired(all, now)
    ensures var e := Lookup(all, account, Print(hash, prefix));
            && (e.Some? <==> Live(log, account, prefix, now))
            && (e.Some? ==> LastTouch(log, account, prefix).Some? && e.value == EntryOf(LastTouch(log, account, prefix).value))
  {
    assert Tracked(hash, all, log, now, account, prefix);
  }

  /** Right after pruning, an account has entries exactly if something is live for it. */
  lemma EntriesIffLive(hash: Bytes -> Fingerprint, all: map<string, Entries>, log: seq<Touch>, now: nat, account: string)
    requires Represents(hash, all, log, now)
    requires NoneExpired(all, now)
    ensures (account in all && |all[account]| > 0) <==> AnyLive(log, account, now)
  {
    if account in all && |all[account]| > 0 {
      var fp :| fp in all[account].Keys;
      assert Lookup(all, account, fp).Some?;
      assert Known(hash, log, account, fp);
      var prefix :| Print(hash, prefix) == fp && LastTouch(log, account, prefix).Some?;
      LookupIsLive(hash, all, log, now, account, prefix);
      assert Live(log, account, prefix, now);
    }
    if AnyLive(log, account, now) {
      var prefix :| Live(log, account, prefix, now);
      LookupIsLive(hash, all, log, now, account, prefix);
      assert Print(hash, prefix) in all[account].Keys;
      assert all[account] != map[];
    }
  }

  /** No entry has expired at time `now`. */
  ghost predicate NoneExpired(all: map<string, Entries>, now: nat) {
    forall a, fp :: Lookup(all, a, fp).Some? ==> Lookup(all, a, fp).value.expiresAt > now
  }

  /** What pruning leaves of one entry. */
  function Survivor(e: Option<Entry>, now: nat): Option<Entry> {
    if e.Some? && e.value.expiresAt > now then e else None
  }

  /** All accounts but those still to do are pruned. */
  ghost predicate Filtered(before: map<string, Entries>, after: map<string, Entries>, todo: set<string>, now: nat) {
    forall a, fp :: Lookup(after, a, fp) == if a in todo then Lookup(before, a, fp) else Survivor(Lookup(before, a, fp), now)
  }

  lemma FilteredStep(before: map<string, Entries>, was: map<string, Entries>, after: map<string, Entries>, todo: set<string>,
                     now: nat, account: string, entries: Entries)
    requires Filtered(before, was, todo, now) && account in todo && account in before
    requires forall fp :: fp in entries <==> fp in before[account] && before[account][fp].expiresAt > now
    requires forall fp :: fp in entries ==> entries[fp] == before[account][fp]
    requires after == if |entries| == 0 then was - {account} else was[account := entries]
    ensures Filtered(before, after, todo - {account}, now)
  {
    assert |entries| == 0 ==> entries == map[];
    assert forall fp :: Lookup(after, account, fp) == Survivor(Lookup(before, account, fp), now);
    assert forall a, fp :: a != account ==> Lookup(after, a, fp) == Lookup(was, a, fp);
  }

  lemma SameLookups(hash: Bytes -> Fingerprint, all: map<string, Entries>, all': map<string, Entries>, log: seq<Touch>, pruned: nat)
    requires Represents(hash, all, log, pruned)
    requires forall account, fp :: Lookup(all', account, fp) == Lookup(all, account, fp)
    ensures Represents(hash, all', log, pruned)
  {
    forall account, prefix
      ensures Tracked(hash, all', log, pruned, account, prefix)
    {
      assert Tracked(hash, all, log, pruned, account, prefix);
    }
    forall account, fp | Lookup(all', account, fp).Some?
      ensures Known(hash, log, account, fp)
    {
      assert Lookup(all, account, fp).Some?;
    }
  }

  /** The profile is the one built from these blocks. */
  ghost predicate Describes(hash: Bytes -> Fingerprint, profile: Profile, blocks: seq<CacheBlock>) {
    profile.breakpoints == Points(hash, blocks) && profile.breakpoints != [] && Tokens(blocks) <= profile.total
  }

  lemma BuiltDescribes(hash: Bytes -> Fingerprint, blocks: seq<CacheBlock>, total: int, lowerModel: string)
    ensures var p := BuildProfile(hash, blocks, total, lowerModel); p.Some? ==> Describes(hash, p.value, blocks)
  {
  }

  /** A hit lives on for as long as the prefix was last given. */
  function Hit(log: seq<Touch>, account: string, prefix: seq<Bytes>, now: nat): Touch {
    var t := LastTouch(log, account, prefix);
    Touch(account, prefix, now, if t.Some? then t.value.ttl else 0)
  }

  lemma {:induction false} NothingLive(log: seq<Touch>, account: string, blocks: seq<CacheBlock>, minTokens: nat, now: nat, n: nat)
    requires n <= |Ends(blocks)| && !AnyLive(log, account, now)
    ensures Longest(log, account, blocks, minTokens, now, n) == -1
  {
    if n > 0 {
      assert !Live(log, account, PrefixAt(blocks, n - 1), now);
      NothingLive(log, account, blocks, minTokens, now, n - 1);
    }
  }

  class PromptCacheTracker {
    const hash: Bytes -> Fingerprint
    var entriesByAccount: map<string, Entries>
    /** Everything ever stored or hit, and the time of the last pruning. */
    ghost var log: seq<Touch>
    ghost var pruned: nat

    ghost predicate Valid()
      reads this
    {
      Collisionless(hash) && Represents(hash, entriesByAccount, log, pruned)
    }

    constructor (hash: Bytes -> Fingerprint)
      requires Collisionless(hash)
      ensures Valid() && this.hash == hash && log == [] && pruned == 0
    {
      this.hash := hash;
      entriesByAccount := map[];
      log := [];
      pruned := 0;
    }

    /** Deletes the expired entries of one account. */
    method PruneEntries(entries: Entries, now: nat) returns (kept: Entries)
      ensures forall fp :: fp in kept <==> fp in entries && entries[fp].expiresAt > now
      ensures forall fp :: fp in kept ==> kept[fp] == entries[fp]
    {
      kept := entries;
      var todo := entries.Keys;
      while todo != {}
        invariant todo <= entries.Keys
        invariant forall fp :: fp in kept <==> fp in entries && (fp in todo || entries[fp].expiresAt > now)
        invariant forall fp :: fp in kept ==> kept[fp] == entries[fp]
        decreases todo
      {
        var fp :| fp in todo;
        todo := todo - {fp};
        if entries[fp].expiresAt <= now {
          kept := kept - {fp};
        }
      }
    }

    method PruneExpired(now: nat)
      requires Valid() && pruned <= now
      modifies this
      ensures Valid() && pruned == now && log == old(log)
      ensures NoneExpired(entriesByAccount, now)
    {
      var before := entriesByAccount;
      var todo := before.Keys;
      while todo != {}
        invariant todo <= before.Keys && log == old(log) && pruned == old(pruned)
        invariant Filtered(before, entriesByAccount, todo, now)
        decreases todo
      {
        var accountID :| accountID in todo;
        var entries := PruneEntries(before[accountID], now);
        ghost var was := entriesByAccount;
        if |entries| == 0 {
          entriesByAccount := entriesByAccount - {accountID};
        } else {
          entriesByAccount := entriesByAccount[accountID := entries];
        }
        FilteredStep(before, was, entriesByAccount, todo, now, accountID, entries);
        todo := todo - {accountID};
      }
      PruneRepresents(hash, before, entriesByAccount, log, pruned, now);
      pruned := now;
    }

    /** The request's cache usage, and the hit that keeps the matched prefix alive. */
    method Compute(account: string, profile: Option<Profile>, now: nat, ghost blocks: seq<CacheBlock>) returns (usage: CacheUsage)
      requires Valid() && pruned <= now
      requires profile.Some? ==> Describes(hash, profile.value, blocks)
      modifies this
      ensures Valid()
      ensures account == "" || profile.None? ==> usage == NO_USAGE && log == old(log) && pruned == old(pruned)
      ensures account != "" && profile.Some? ==> pruned == now
      ensures account != "" && profile.Some? ==>
                var j := Longest(old(log), account, blocks, MinCacheableTokens(profile.value.lowerModel), now, |Ends(blocks)|);
                && usage == UsageFor(profile.value, AnyLive(old(log), account, now), if j < 0 then 0 else Reach(profile.value, j))
                && log == old(log) + (if j < 0 then [] else [Hit(old(log), account, PrefixAt(blocks, j), now)])
    {
      if profile.None? || account == "" {
        return NO_USAGE;
      }
      PruneExpired(now);
      EntriesIffLive(hash, entriesByAccount, log, now, account);
      var p := profile.value;
      var minTokens := MinCacheableTokens(p.lowerModel);
      var lastTokens := Reach(p, |p.breakpoints| - 1);
      if account !in entriesByAccount || |entriesByAccount[account]| == 0 {
        NothingLive(log, account, blocks, minTokens, now, |Ends(blocks)|);
        var effectiveCreation := lastTokens;
        if effectiveCreation < minTokens {
          effectiveCreation := 0;
        }
        var cache5m, cache1h := ComputePromptCacheTTLBreakdown(p, 0);
        return CacheUsage(effectiveCreation, 0, cache5m, cache1h);
      }
      var maxCacheable := p.total * 85 / 100;
      if lastTokens > maxCacheable {
        lastTokens := maxCacheable;
      }
      var j := FindMatch(account, p, minTokens, now, blocks);
      var matchedTokens := 0;
      if j >= 0 {
        matchedTokens := MinInt(p.breakpoints[j].cumulative, p.total);
      }
      if matchedTokens > lastTokens {
        matchedTokens := lastTokens;
      }
      var creation := MaxInt(lastTokens - matchedTokens, 0);
      var cache5m, cache1h := ComputePromptCacheTTLBreakdown(p, matchedTokens);
      return CacheUsage(creation, matchedTokens, cache5m, cache1h);
    }

    /** Sets one entry: the touch `t` of its prefix. */
    method Put(account: string, fp: Fingerprint, entry: Entry, ghost t: Touch)
      requires Valid() && account in entriesByAccount
      requires t.account == account && Print(hash, t.prefix) == fp && entry == EntryOf(t)
      modifies this`entriesByAccount, this`log
      ensures Valid() && log == old(log) + [t] && account in entriesByAccount
    {
      ghost var was := entriesByAccount;
      entriesByAccount := entriesByAccount[account := entriesByAccount[account][fp := entry]];
      TouchRepresents(hash, was, entriesByAccount, log, pruned, t);
      log := log + [t];
    }

    /** The search from the longest breakpoint down; a hit slides the entry's expiry. */
    method FindMatch(account: string, profile: Profile, minTokens: nat, now: nat, ghost blocks: seq<CacheBlock>) returns (j: int)
      requires Valid() && pruned == now && NoneExpired(entriesByAccount, now)
      requires Describes(hash, profile, blocks) && account in entriesByAccount
      modifies this`entriesByAccount, this`log
      ensures Valid() && j == Longest(old(log), account, blocks, minTokens, now, |Ends(blocks)|)
      ensures log == old(log) + (if j < 0 then [] else [Hit(old(log), account, PrefixAt(blocks, j), now)])
    {
      ghost var goal := Longest(log, account, blocks, minTokens, now, |Ends(blocks)|);
      j := |profile.breakpoints| - 1;
      while j >= 0
        invariant -1 <= j < |Ends(blocks)| && goal == Longest(log, account, blocks, minTokens, now, j + 1)
        invariant log == old(log) && entriesByAccount == old(entriesByAccount)
      {
        var bp := profile.breakpoints[j];
        PointsDescribe(hash, blocks, j);
        LookupIsLive(hash, entriesByAccount, log, now, account, PrefixAt(blocks, j));
        if bp.cumulative >= minTokens && bp.fingerprint in entriesByAccount[account] && entriesByAccount[account][bp.fingerprint].expiresAt >= now {
          break;
        }
        j := j - 1;
      }
      if j >= 0 {
        var bp := profile.breakpoints[j];
        var ttl := entriesByAccount[account][bp.fingerprint].ttl;
        Put(account, bp.fingerprint, Entry(now + ttl, ttl), Hit(log, account, PrefixAt(blocks, j), now));
      }
    }

    /** After a successful answer, every breakpoint at or above the threshold is stored. */
    method Update(account: string, profile: Option<Profile>, now: nat, ghost blocks: seq<CacheBlock>)
      requires Valid() && pruned <= now
      requires profile.Some? ==> Describes(hash, profile.value, blocks)
      modifies this
      ensures Valid()
      ensures account == "" || profile.None? ==> log == old(log) && pruned == old(pruned)
      ensures account != "" && profile.Some? ==>
                && pruned == now
                && log == old(log) + Stores(account, blocks, MinCacheableTokens(profile.value.lowerModel), now, |Ends(blocks)|)
    {
      if profile.None? || account == "" {
        return;
      }
      var minTokens := MinCacheableTokens(profile.value.lowerModel);
      PruneExpired(now);
      if account !in entriesByAccount {
        ghost var was := entriesByAccount;
        entriesByAccount := entriesByAccount[account := map[]];
        SameLookups(hash, was, entriesByAccount, log, pruned);
      }
      StoreAll(account, profile.value, minTokens, now, blocks);
    }

    method StoreAll(account: string, profile: Profile, minTokens: nat, now: nat, ghost blocks: seq<CacheBlock>)
      requires Valid() && Describes(hash, profile, blocks) && account in entriesByAccount
      modifies this`entriesByAccount, this`log
      ensures Valid() && log == old(log) + Stores(account, blocks, minTokens, now, |Ends(blocks)|)
    {
      ghost var before := log;
      assert before + [] == before;
      for j := 0 to |profile.breakpoints|
        invariant Valid() && account in entriesByAccount
        invariant log == before + Stores(account, blocks, minTokens, now, j)
      {
        StoresStep(account, blocks, minTokens, now, j, before);
        StoreOne(account, profile, minTokens, now, j, blocks);
      }
    }

    /** Stores one breakpoint, unless it is below the threshold. */
    method StoreOne(account: string, profile: Profile, minTokens: nat, now: nat, j: nat, ghost blocks: seq<CacheBlock>)
      requires Valid() && Describes(hash, profile, blocks) && account in entriesByAccount && j < |profile.breakpoints|
      modifies this`entriesByAccount, this`log
      ensures Valid() && account in entriesByAccount
      ensures var prefix := blocks[..Ends(blocks)[j]];
              log == if Tokens(prefix) >= minTokens then old(log) + [Touch(account, PrefixAt(blocks, j), now, PointTTL(prefix))] else old(log)
    {
      var bp := profile.breakpoints[j];
      PointsDescribe(hash, blocks, j);
      if bp.cumulative < minTokens {
        return;
      }
      Put(account, bp.fingerprint, Entry(now + bp.ttl, bp.ttl), Touch(account, PrefixAt(blocks, j), now, bp.ttl));
    }
  }
}
