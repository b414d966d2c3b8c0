/** The account pool: the weighted list, and the picker with its cooldown fallback. */
module AccountPool {
  import opened Basics
  import opened RoundRobin
  import T = Text

  datatype Account = Account(
    id: string,
    weight: int,
    expiresAt: int,
    usageLimit: real,
    usageCurrent: real,
    usagePercent: real,
    overagesEnabled: bool)

  const TOKEN_REFRESH_SKEW_SECONDS := 120

  function EffectiveWeight(weight: int): (w: nat)
    ensures w >= 1 && (weight >= 1 ==> w == weight) && (weight < 1 ==> w == 1)
  {
    if weight < 1 then 1 else weight
  }

  predicate IsQuotaBlocked(acc: Account, allowOverUsage: bool) {
    acc.usageLimit > 0.0 && acc.usageCurrent >= acc.usageLimit && !acc.overagesEnabled && !allowOverUsage
  }

  // ---- The weighted list ----

  function Repeat(acc: Account, n: nat): (r: seq<Account>)
    ensures |r| == n && forall i :: 0 <= i < n ==> r[i] == acc
  {
    if n == 0 then [] else Repeat(acc, n - 1) + [acc]
  }

  /** Each account that is not over quota, as often as its weight says. */
  function Weighted(enabled: seq<Account>, allowOverUsage: bool): seq<Account> {
    if enabled == [] then []
    else
      var last := enabled[|enabled| - 1];
      Weighted(enabled[..|enabled| - 1], allowOverUsage) + Copies(last, allowOverUsage)
  }

  function Copies(acc: Account, allowOverUsage: bool): seq<Account> {
    if IsQuotaBlocked(acc, allowOverUsage) then [] else Repeat(acc, EffectiveWeight(acc.weight))
  }

  ghost predicate DistinctIds(accounts: seq<Account>) {
    forall i, j :: 0 <= i < j < |accounts| ==> accounts[i].id != accounts[j].id
  }

  /** Entries with the same id are copies of one account. */
  ghost predicate Uniform(accounts: seq<Account>) {
    forall a, b :: a in accounts && b in accounts && a.id == b.id ==> a == b
  }

  lemma {:induction false} WeightedIsUniform(enabled: seq<Account>, allowOverUsage: bool)
    requires DistinctIds(enabled)
    ensures Uniform(Weighted(enabled, allowOverUsage))
    ensures forall a :: a in Weighted(enabled, allowOverUsage) <==> a in enabled && !IsQuotaBlocked(a, allowOverUsage)
  {
    if enabled != [] {
      var front, last := enabled[..|enabled| - 1], enabled[|enabled| - 1];
      WeightedIsUniform(front, allowOverUsage);
      var copies := Repeat(last, EffectiveWeight(last.weight));
      assert copies[0] == last;
      assert enabled == front + [last];
    }
  }

  // ---- Eligibility ----

  /** What the pool knows about models; a list of allowed models that is present but empty permits nothing. */
  datatype Models = Models(
    lists: map<string, set<string>>,
    denies: map<string, set<string>>,
    enabled: map<string, set<string>>)
  {
    predicate KnownAnywhere(modelKey: string) {
      exists id :: id in lists && modelKey in lists[id]
    }

    predicate AccountHas(id: string, modelKey: string, modelKnown: bool) {
      if id in denies && modelKey in denies[id] then false
      else if id in enabled then modelKey in enabled[id]
      else if id !in lists || lists[id] == {} then !modelKnown
      else modelKey in lists[id]
    }
  }

  /** One call of the picker, everything it consults but the list and the counter held fixed. */
  datatype Request = Request(
    modelKey: string,
    excluded: set<string>,
    filter: Account -> bool,
    now: int,
    allowOverUsage: bool,
    models: Models,
    cooldowns: map<string, int>)
  {
    /** Fit to be returned at all: what the fallback asks for. */
    predicate Candidate(acc: Account) {
      && acc.id !in excluded
      && filter(acc)
      && models.AccountHas(acc.id, modelKey, models.KnownAnywhere(modelKey))
      && !IsQuotaBlocked(acc, allowOverUsage)
    }

    predicate Cooling(acc: Account) {
      acc.id in cooldowns && now < cooldowns[acc.id]
    }

    predicate Expiring(acc: Account) {
      acc.expiresAt > 0 && now > acc.expiresAt - TOKEN_REFRESH_SKEW_SECONDS
    }

    /** Fit to be returned right away. */
    predicate Ready(acc: Account) {
      Candidate(acc) && !Cooling(acc) && !Expiring(acc)
    }
  }

  /** Under its limit, or without one, or allowed to exceed it. */
  predicate HasQuota(acc: Account, allowOverUsage: bool) {
    acc.usageLimit <= 0.0 || acc.usageCurrent < acc.usageLimit || acc.overagesEnabled || allowOverUsage
  }

  /** Its cooldown, if any, is over, and its token, if it expires, is good for two more minutes. */
  predicate Rested(req: Request, acc: Account) {
    && (acc.id in req.cooldowns ==> req.cooldowns[acc.id] <= req.now)
    && (acc.expiresAt > 0 ==> req.now + 120 <= acc.expiresAt)
  }

  function Slots(accounts: seq<Account>, req: Request): (s: seq<Slot>)
    ensures |s| == |accounts|
    ensures forall i :: 0 <= i < |s| ==> s[i] == if req.Ready(accounts[i]) then Some(accounts[i].id) else None
  {
    if accounts == [] then []
    else
      var last := accounts[|accounts| - 1];
      Slots(accounts[..|accounts| - 1], req) + [if req.Ready(last) then Some(last.id) else None]
  }

  ghost predicate AnyReady(accounts: seq<Account>, req: Request) {
    exists i :: 0 <= i < |accounts| && req.Ready(accounts[i])
  }

  ghost predicate AnyCandidate(accounts: seq<Account>, req: Request) {
    exists i :: 0 <= i < |accounts| && req.Candidate(accounts[i])
  }

  /** What the fallback owes: a candidate that never cooled down, else one whose cooldown ends first. */
  ghost predicate SoonestOf(accounts: seq<Account>, req: Request, acc: Account) {
    && acc in accounts && req.Candidate(acc)
    && (acc.id in req.cooldowns ==>
          forall b :: b in accounts && req.Candidate(b) ==> b.id in req.cooldowns && req.cooldowns[acc.id] <= req.cooldowns[b.id])
  }

  /** No account that has been put aside is ready. */
  ghost predicate NoneReady(accounts: seq<Account>, req: Request, seen: set<string>) {
    Uniform(accounts) ==> forall a :: a in accounts && a.id in seen ==> !req.Ready(a)
  }

  lemma SeenNotReady(accounts: seq<Account>, req: Request, seen: set<string>, acc: Account)
    requires NoneReady(accounts, req, seen) && acc in accounts && !req.Ready(acc)
    ensures NoneReady(accounts, req, seen + {acc.id})
  {
  }

  /** No counter value from `lo` up to but not including `hi` stands for a ready account. */
  ghost predicate NoneReadyIn(accounts: seq<Account>, req: Request, lo: nat, hi: nat)
    requires accounts != []
  {
    forall k :: lo <= k < hi ==> !ReadyAt(accounts, req, k)
  }

  predicate ReadyAt(accounts: seq<Account>, req: Request, k: nat)
    requires accounts != []
  {
    req.Ready(accounts[k % |accounts|])
  }

  lemma NoneReadyYet(accounts: seq<Account>, req: Request, lo: nat, q: nat, solo: bool)
    requires accounts != [] && (solo ==> NoneReadyIn(accounts, req, lo, q))
    ensures solo && !ReadyAt(accounts, req, q) ==> NoneReadyIn(accounts, req, lo, q + 1)
  {
  }

  /** Nobody else moves the counter. */
  ghost predicate Unstolen(stolen: seq<nat>) {
    forall i :: 0 <= i < |stolen| ==> stolen[i] == 0
  }

  /** What a scan run alone comes to: the next ready entry, or a whole turn in vain. */
  ghost predicate ScanFinds(accounts: seq<Account>, req: Request, before: nat, after: nat, found: Option<Account>)
    requires accounts != []
  {
    if AnyReady(accounts, req) then
      && AnyEligible(Slots(accounts, req)) && after == First(Slots(accounts, req), before + 1)
      && found == Some(accounts[after % |accounts|])
    else
      after == before + |accounts| && found == None
  }

  class Pool {
    var accounts: seq<Account>
    var currentIndex: nat

    constructor ()
      ensures accounts == [] && currentIndex == 0
    {
      accounts, currentIndex := [], 0;
    }

    method Reload(enabled: seq<Account>, allowOverUsage: bool)
      modifies this`accounts
      ensures accounts == Weighted(enabled, allowOverUsage)
    {
      var weighted: seq<Account> := [];
      for i := 0 to |enabled|
        invariant weighted == Weighted(enabled[..i], allowOverUsage)
      {
        var a := enabled[i];
        assert enabled[..i + 1][..i] == enabled[..i];
        if IsQuotaBlocked(a, allowOverUsage) {
          assert weighted + [] == weighted;
          continue;
        }
        ghost var before := weighted;
        var w := EffectiveWeight(a.weight);
        assert before + [] == before;
        for j := 0 to w
          invariant weighted == before + Repeat(a, j)
        {
          weighted := weighted + [a];
        }
      }
      assert enabled[..|enabled|] == enabled;
      accounts := weighted;
    }

    /** The checks an entry has to pass, in the picker's order. */
    method Usable(req: Request, acc: Account) returns (ok: bool)
      requires acc.id !in req.excluded
      ensures ok == req.Ready(acc)
    {
      if !req.filter(acc) {
        return false;
      }
      if !req.models.AccountHas(acc.id, req.modelKey, req.models.KnownAnywhere(req.modelKey)) {
        return false;
      }
      if acc.id in req.cooldowns && req.now < req.cooldowns[acc.id] {
        return false;
      }
      if acc.expiresAt > 0 && req.now > acc.expiresAt - TOKEN_REFRESH_SKEW_SECONDS {
        return false;
      }
      return !IsQuotaBlocked(acc, req.allowOverUsage);
    }

    /** Whether an entry can be taken; if not, its account is put aside. */
    method Check(req: Request, acc: Account, seen: set<string>) returns (ok: bool, seen': set<string>)
      requires acc in accounts && NoneReady(accounts, req, seen)
      ensures NoneReady(accounts, req, seen')
      ensures ok ==> req.Ready(acc)
      ensures Uniform(accounts) && req.Ready(acc) ==> ok
    {
      ok, seen' := false, seen;
      if acc.id in req.excluded {
        SeenNotReady(accounts, req, seen, acc);
        seen' := seen + {acc.id};
        return;
      }
      if acc.id in seen {
        return;
      }
      ok := Usable(req, acc);
      if !ok {
        SeenNotReady(accounts, req, seen, acc);
        seen' := seen + {acc.id};
      }
    }

    /**
     Up to one turn of the counter, looking for a ready account. `stolen[i]` is how far concurrent calls
     move the counter between this call's steps.
     */
    method Scan(req: Request, stolen: seq<nat>) returns (found: Option<Account>)
      requires |stolen| == |accounts| > 0
      modifies this`currentIndex
      ensures found.Some? ==> found.value in accounts && req.Ready(found.value)
      ensures Uniform(accounts) && Unstolen(stolen) ==> ScanFinds(accounts, req, old(currentIndex), currentIndex, found)
    {
      var n := |accounts|;
      var seen: set<string> := {};
      ghost var solo := Uniform(accounts) && Unstolen(stolen);
      ghost var start := currentIndex;
      for i := 0 to n
        invariant NoneReady(accounts, req, seen)
        invariant solo ==> currentIndex == start + i && NoneReadyIn(accounts, req, start + 1, currentIndex + 1)
      {
        currentIndex := currentIndex + stolen[i] + 1;
        var acc := accounts[currentIndex % n];
        var usable;
        usable, seen := Check(req, acc, seen);
        if usable {
          FirstIsHere(accounts, req, start, currentIndex, solo);
          return Some(acc);
        }
        NoneReadyYet(accounts, req, start + 1, currentIndex, solo);
      }
      if solo {
        NoneInATurn(accounts, req, start + 1);
      }
      return None;
    }

    /** The fallback: the first candidate that never cooled down, else the one whose cooldown ends first. */
    method Fallback(req: Request) returns (best: Option<Account>)
      ensures best.Some? <==> AnyCandidate(accounts, req)
      ensures best.Some? ==> SoonestOf(accounts, req, best.value)
    {
      best := None;
      var earliest := 0;
      for i := 0 to |accounts|
        invariant best.Some? <==> exists k :: 0 <= k < i && req.Candidate(accounts[k])
        invariant best.Some? ==> best.value in accounts && req.Candidate(best.value)
        invariant best.Some? ==> best.value.id in req.cooldowns && earliest == req.cooldowns[best.value.id]
        invariant forall k :: 0 <= k < i && req.Candidate(accounts[k]) ==>
                    accounts[k].id in req.cooldowns && earliest <= req.cooldowns[accounts[k].id]
      {
        var acc := accounts[i];
        if acc.id in req.excluded {
          continue;
        }
        if !req.filter(acc) {
          continue;
        }
        if !req.models.AccountHas(acc.id, req.modelKey, req.models.KnownAnywhere(req.modelKey)) {
          continue;
        }
        if IsQuotaBlocked(acc, req.allowOverUsage) {
          continue;
        }
        if acc.id in req.cooldowns {
          var cooldown := req.cooldowns[acc.id];
          if best.None? || cooldown < earliest {
            best := Some(acc);
            earliest := cooldown;
          }
        } else {
          return Some(acc);
        }
      }
    }

    /** The picker. */
    method GetNextForModelExcluding(req: Request, stolen: seq<nat>) returns (picked: Option<Account>)
      requires |stolen| == |accounts|
      modifies this`currentIndex
      // sound and complete, whatever concurrent calls do to the counter
      ensures picked.Some? <==> AnyCandidate(accounts, req)
      ensures picked.Some? ==> picked.value in accounts && req.Candidate(picked.value)
      ensures picked.Some? ==> req.Ready(picked.value) || SoonestOf(accounts, req, picked.value)
      ensures picked.Some? ==> picked.value.id !in req.excluded && req.filter(picked.value) && HasQuota(picked.value, req.allowOverUsage)
      // run alone, exactly the next ready entry if there is one
      ensures Uniform(accounts) && Unstolen(stolen) && AnyReady(accounts, req) ==>
                && currentIndex == First(Slots(accounts, req), old(currentIndex) + 1)
                && picked == Some(accounts[currentIndex % |accounts|]) && req.Ready(picked.value) && Rested(req, picked.value)
      // run alone with nothing ready, the fallback
      ensures Uniform(accounts) && Unstolen(stolen) && !AnyReady(accounts, req) && picked.Some? ==>
                SoonestOf(accounts, req, picked.value)
    {
      if |accounts| == 0 {
        return None;
      }
      var found := Scan(req, stolen);
      if found.Some? {
        return found;
      }
      picked := Fallback(req);
    }

    /** One call run alone while something is ready. */
    method TakeAlone(req: Request) returns (acc: Account)
      requires Uniform(accounts) && AnyReady(accounts, req)
      modifies this`currentIndex
      ensures AnyEligible(Slots(accounts, req)) && currentIndex == First(Slots(accounts, req), old(currentIndex) + 1)
      ensures acc == accounts[currentIndex % |accounts|] && req.Ready(acc)
    {
      ReadyIsEligible(accounts, req);
      var alone := seq(|accounts|, i => 0);
      assert forall i :: 0 <= i < |alone| ==> alone[i] == 0;
      var picked := GetNextForModelExcluding(req, alone);
      acc := picked.value;
    }

    /** One more call of a row of which `left` are still to come. */
    method TakeNext(req: Request, ids: seq<string>, ghost left: nat) returns (ids': seq<string>)
      requires Uniform(accounts) && AnyReady(accounts, req) && AnyEligible(Slots(accounts, req)) && left > 0
      modifies this`currentIndex
      ensures ids' + Picks(Slots(accounts, req), currentIndex, left - 1) == ids + Picks(Slots(accounts, req), old(currentIndex), left)
    {
      ghost var counter := currentIndex;
      var picked := TakeAlone(req);
      TakenStep(accounts, req, ids, counter, currentIndex, left);
      ids' := ids + [picked.id];
    }

    /** Consecutive calls with nothing else changing, in the order they are answered. */
    method TakeInTurn(req: Request, calls: nat) returns (ids: seq<string>)
      requires Uniform(accounts) && AnyReady(accounts, req)
      modifies this`currentIndex
      ensures AnyEligible(Slots(accounts, req)) && ids == Picks(Slots(accounts, req), old(currentIndex), calls)
    {
      ReadyIsEligible(accounts, req);
      ids := [];
      ghost var slots, all := Slots(accounts, req), Picks(Slots(accounts, req), currentIndex, calls);
      RowBegins(slots, currentIndex, calls);
      for n := 0 to calls
        invariant ids + Picks(slots, currentIndex, calls - n) == all
      {
        ids := TakeNext(req, ids, calls - n);
      }
      RowEnds(slots, currentIndex, ids);
    }
  }

  /** Reloading, and then as many calls as the ready accounts weigh together: each is returned exactly its weight times. */
  method TakeShares(pool: Pool, enabled: seq<Account>, req: Request) returns (ids: seq<string>)
    requires DistinctIds(enabled) && exists acc :: acc in enabled && req.Ready(acc)
    modifies pool
    ensures |ids| == ReadyWeight(enabled, req)
    ensures forall acc :: acc in enabled ==> Count(ids, acc.id) == if req.Ready(acc) then EffectiveWeight(acc.weight) else 0
  {
    pool.Reload(enabled, req.allowOverUsage);
    WeightedIsUniform(enabled, req.allowOverUsage);
    SomeoneIsListed(enabled, req);
    ghost var counter := pool.currentIndex;
    ids := pool.TakeInTurn(req, ReadyWeight(enabled, req));
    forall acc | acc in enabled
      ensures Count(ids, acc.id) == if req.Ready(acc) then EffectiveWeight(acc.weight) else 0
    {
      ExactWeightedShares(enabled, req, counter, acc);
    }
  }

  lemma SomeoneIsListed(enabled: seq<Account>, req: Request)
    requires DistinctIds(enabled) && exists acc :: acc in enabled && req.Ready(acc)
    ensures AnyReady(Weighted(enabled, req.allowOverUsage), req)
  {
    WeightedIsUniform(enabled, req.allowOverUsage);
    var acc :| acc in enabled && req.Ready(acc);
    assert acc in Weighted(enabled, req.allowOverUsage);
  }

  lemma RowBegins(slots: seq<Slot>, counter: nat, calls: nat)
    requires AnyEligible(slots)
    ensures [] + Picks(slots, counter, calls) == Picks(slots, counter, calls)
  {
  }

  lemma RowEnds(slots: seq<Slot>, counter: nat, ids: seq<string>)
    requires AnyEligible(slots)
    ensures ids + Picks(slots, counter, 0) == ids
  {
  }

  lemma ReadyIsEligible(accounts: seq<Account>, req: Request)
    requires AnyReady(accounts, req)
    ensures AnyEligible(Slots(accounts, req))
  {
    var i :| 0 <= i < |accounts| && req.Ready(accounts[i]);
    assert Slots(accounts, req)[i].Some?;
  }

  /** One more call of a row. */
  lemma TakenStep(accounts: seq<Account>, req: Request, ids: seq<string>, counter: nat, q: nat, left: nat)
    requires accounts != [] && AnyEligible(Slots(accounts, req)) && left > 0
    requires q == First(Slots(accounts, req), counter + 1) && req.Ready(accounts[q % |accounts|])
    ensures var slots := Slots(accounts, req);
            ids + Picks(slots, counter, left) == (ids + [accounts[q % |accounts|].id]) + Picks(slots, q, left - 1)
  {
    var slots := Slots(accounts, req);
    PickedIsSlot(accounts, req, q);
    PicksUnfold(slots, counter, left);
    T.Assoc(ids, [At(slots, q).value], Picks(slots, q, left - 1));
  }

  lemma PicksUnfold(slots: seq<Slot>, counter: nat, left: nat)
    requires AnyEligible(slots) && left > 0
    ensures var q := First(slots, counter + 1);
            At(slots, q).Some? && Picks(slots, counter, left) == [At(slots, q).value] + Picks(slots, q, left - 1)
  {
  }

  lemma PickedIsSlot(accounts: seq<Account>, req: Request, q: nat)
    requires accounts != [] && req.Ready(accounts[q % |accounts|])
    ensures At(Slots(accounts, req), q) == Some(accounts[q % |accounts|].id)
  {
  }

  // ---- Shares ----

  lemma {:induction false} ShareAppend(a: seq<Slot>, b: seq<Slot>, id: string)
    ensures Share(a + b, id) == Share(a, id) + Share(b, id)
    ensures Total(a + b) == Total(a) + Total(b)
  {
    if a == [] {
      assert a + b == b;
    } else {
      assert (a + b)[0] == a[0] && (a + b)[1..] == a[1..] + b;
      ShareAppend(a[1..], b, id);
    }
  }

  lemma {:induction false} SlotsAppend(a: seq<Account>, b: seq<Account>, req: Request)
    ensures Slots(a + b, req) == Slots(a, req) + Slots(b, req)
  {
  }

  function SlotOf(acc: Account, req: Request): Slot {
    if req.Ready(acc) then Some(acc.id) else None
  }

  lemma SlotsOfCopies(acc: Account, n: nat, req: Request)
    requires n > 0
    ensures Slots(Repeat(acc, n), req) == Slots(Repeat(acc, n - 1), req) + [SlotOf(acc, req)]
  {
  }

  lemma OneMoreCopy(acc: Account, n: nat, req: Request, id: string)
    requires n > 0
    ensures var more, slots := Slots(Repeat(acc, n), req), Slots(Repeat(acc, n - 1), req);
            && Share(more, id) == Share(slots, id) + (if SlotOf(acc, req) == Some(id) then 1 else 0)
            && Total(more) == Total(slots) + if SlotOf(acc, req).Some? then 1 else 0
  {
    SlotsOfCopies(acc, n, req);
    ShareSnoc(Slots(Repeat(acc, n - 1), req), SlotOf(acc, req), id);
  }

  lemma ShareSnoc(slots: seq<Slot>, slot: Slot, id: string)
    ensures Share(slots + [slot], id) == Share(slots, id) + if slot == Some(id) then 1 else 0
    ensures Total(slots + [slot]) == Total(slots) + if slot.Some? then 1 else 0
  {
    ShareAppend(slots, [slot], id);
    assert [slot][1..] == [];
  }

  lemma {:induction false} ShareOfCopies(acc: Account, n: nat, req: Request, id: string)
    ensures Share(Slots(Repeat(acc, n), req), id) == if req.Ready(acc) && acc.id == id then n else 0
    ensures Total(Slots(Repeat(acc, n), req)) == if req.Ready(acc) then n else 0
  {
    if n == 0 {
      assert Slots(Repeat(acc, n), req) == [];
    } else {
      ShareOfCopies(acc, n - 1, req, id);
      OneMoreCopy(acc, n, req, id);
    }
  }

  /** The total weight of the accounts a request may be given to. */
  function ReadyWeight(enabled: seq<Account>, req: Request): nat {
    if enabled == [] then 0
    else
      var last := enabled[|enabled| - 1];
      ReadyWeight(enabled[..|enabled| - 1], req) + (if req.Ready(last) then EffectiveWeight(last.weight) else 0)
  }

  /** The slots of one account's copies. */
  lemma SharesOfCopies(last: Account, req: Request, id: string)
    ensures var w := if req.Ready(last) then EffectiveWeight(last.weight) else 0;
            var slots := Slots(Copies(last, req.allowOverUsage), req);
            Share(slots, id) == (if last.id == id then w else 0) && Total(slots) == w
  {
    ShareOfCopies(last, EffectiveWeight(last.weight), req, id);
    assert req.Ready(last) ==> !IsQuotaBlocked(last, req.allowOverUsage);
  }

  lemma SharesAdd(a: seq<Account>, b: seq<Account>, req: Request, id: string)
    ensures Share(Slots(a + b, req), id) == Share(Slots(a, req), id) + Share(Slots(b, req), id)
    ensures Total(Slots(a + b, req)) == Total(Slots(a, req)) + Total(Slots(b, req))
  {
    SlotsAppend(a, b, req);
    ShareAppend(Slots(a, req), Slots(b, req), id);
  }

  /** In the weighted list every ready account has exactly as many slots as its weight. */
  lemma {:induction false} SlotsAreWeights(enabled: seq<Account>, req: Request, acc: Account)
    requires DistinctIds(enabled) && acc in enabled
    ensures Share(Slots(Weighted(enabled, req.allowOverUsage), req), acc.id) == if req.Ready(acc) then EffectiveWeight(acc.weight) else 0
  {
    var front, last := enabled[..|enabled| - 1], enabled[|enabled| - 1];
    SharesAdd(Weighted(front, req.allowOverUsage), Copies(last, req.allowOverUsage), req, acc.id);
    SharesOfCopies(last, req, acc.id);
    if acc in front {
      SlotsAreWeights(front, req, acc);
      assert acc.id != last.id;
    } else {
      NoForeignSlots(front, req, acc.id);
    }
  }

  lemma {:induction false} NoForeignSlots(enabled: seq<Account>, req: Request, id: string)
    requires forall a :: a in enabled ==> a.id != id
    ensures Share(Slots(Weighted(enabled, req.allowOverUsage), req), id) == 0
  {
    if enabled != [] {
      var front, last := enabled[..|enabled| - 1], enabled[|enabled| - 1];
      SharesAdd(Weighted(front, req.allowOverUsage), Copies(last, req.allowOverUsage), req, id);
      SharesOfCopies(last, req, id);
      NoForeignSlots(front, req, id);
    }
  }

  lemma {:induction false} TotalIsWeight(enabled: seq<Account>, req: Request)
    ensures Total(Slots(Weighted(enabled, req.allowOverUsage), req)) == ReadyWeight(enabled, req)
  {
    if enabled != [] {
      var front, last := enabled[..|enabled| - 1], enabled[|enabled| - 1];
      SharesAdd(Weighted(front, req.allowOverUsage), Copies(last, req.allowOverUsage), req, "");
      SharesOfCopies(last, req, "");
      TotalIsWeight(front, req);
    }
  }

  /**
   Exact weighted shares: with nothing changing, as many consecutive calls as the ready accounts weigh
   together return each of them exactly its effective weight times, and no other, from any counter value.
   */
  lemma ExactWeightedShares(enabled: seq<Account>, req: Request, counter: nat, acc: Account)
    requires DistinctIds(enabled) && acc in enabled
    requires AnyEligible(Slots(Weighted(enabled, req.allowOverUsage), req))
    ensures Count(Picks(Slots(Weighted(enabled, req.allowOverUsage), req), counter, ReadyWeight(enabled, req)), acc.id)
         == if req.Ready(acc) then EffectiveWeight(acc.weight) else 0
  {
    SlotsAreWeights(enabled, req, acc);
    TotalIsWeight(enabled, req);
    ExactShares(Slots(Weighted(enabled, req.allowOverUsage), req), counter, acc.id);
  }

  lemma FirstIsHere(accounts: seq<Account>, req: Request, before: nat, q: nat, solo: bool)
    requires accounts != []
    requires solo ==> before < q <= before + |accounts| && ReadyAt(accounts, req, q) && NoneReadyIn(accounts, req, before + 1, q)
    ensures solo ==> ScanFinds(accounts, req, before, q, Some(accounts[q % |accounts|]))
  {
    if solo {
      var slots := Slots(accounts, req);
      assert slots[q % |accounts|].Some?;
      var f := First(slots, before + 1);
      assert At(slots, f) == slots[f % |accounts|] && At(slots, q) == slots[q % |accounts|];
      assert ReadyAt(accounts, req, f) && ReadyAt(accounts, req, q);
    }
  }

  lemma NoneInATurn(accounts: seq<Account>, req: Request, lo: nat)
    requires accounts != [] && NoneReadyIn(accounts, req, lo, lo + |accounts|)
    ensures !AnyReady(accounts, req)
  {
    forall i | 0 <= i < |accounts|
      ensures !req.Ready(accounts[i])
    {
      var q := WithinOneTurn(|accounts|, lo, i);
      assert !ReadyAt(accounts, req, q);
    }
  }
}
