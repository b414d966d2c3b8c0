/** The virtual `auto` model: a request is classified into a tier, and a bandit picks an account and a model of it. */
module AutoRoute {
  import opened Basics
  import opened RoundRobin
  import P = AccountPool

  type Account = P.Account

  datatype Candidate = Candidate(account: Account, model: string)

  datatype Signals = Signals(
    inputTokens: int, tools: int, turns: int, images: bool, thinking: bool,
    code: bool, reasoning: bool, simple: bool, keywordTier: int)

  datatype Config = Config(qualityWeight: real, costWeight: real, speedWeight: real, explore: real)

  type Amount = x: real | x >= 0.0 witness 0.0

  datatype Stats = Stats(successes: Amount, failures: Amount, ewmaLatency: Amount, quarantinedUntil: int, slowUntil: int)

  const NO_STATS := Stats(0.0, 0.0, 0.0, 0, 0)

  const STRONG_SCORE := 4
  const BALANCED_SCORE := 2
  const CONTEXT_RESERVE := 32000

  // ---- Tiers: 0 fast, 1 balanced, 2 strong ----

  function One(b: bool): int {
    if b then 1 else 0
  }

  function Complexity(s: Signals): int {
    (if s.inputTokens > 40000 then STRONG_SCORE else if s.inputTokens > 12000 then 2 else One(s.inputTokens > 4000)) +
    One(s.turns > 20) + One(s.tools > 0) + One(s.images) + One(s.code) + 2 * One(s.reasoning) +
    STRONG_SCORE * One(s.thinking) - 2 * One(s.simple)
  }

  function ClassifiedTier(s: Signals): int {
    if s.keywordTier > 0 then s.keywordTier - 1
    else if Complexity(s) >= STRONG_SCORE then 2
    else if Complexity(s) >= BALANCED_SCORE then 1
    else 0
  }

  method ClassifyTier(s: Signals) returns (tier: int)
    ensures tier == ClassifiedTier(s)
  {
    if s.keywordTier > 0 {
      return s.keywordTier - 1;
    }
    var score := 0;
    if s.inputTokens > 40000 {
      score := score + STRONG_SCORE;
    } else if s.inputTokens > 12000 {
      score := score + 2;
    } else if s.inputTokens > 4000 {
      score := score + 1;
    }
    if s.turns > 20 {
      score := score + 1;
    }
    if s.tools > 0 {
      score := score + 1;
    }
    if s.images {
      score := score + 1;
    }
    if s.code {
      score := score + 1;
    }
    if s.reasoning {
      score := score + 2;
    }
    if s.thinking {
      score := score + STRONG_SCORE;
    }
    if s.simple {
      score := score - 2;
    }
    tier := if score >= STRONG_SCORE then 2 else if score >= BALANCED_SCORE then 1 else 0;
  }

  function EffectiveTier(cfg: Config, s: Signals): (tier: int)
    ensures 0 <= tier <= 2
  {
    var shift := cfg.qualityWeight - cfg.costWeight;
    var tier := ClassifiedTier(s) + (if shift >= 0.5 then 1 else if shift <= -0.5 then -1 else 0);
    if tier < 0 then 0 else if tier > 2 then 2 else tier
  }

  method WantedTier(cfg: Config, s: Signals) returns (tier: int)
    ensures tier == EffectiveTier(cfg, s)
  {
    tier := ClassifyTier(s);
    var shift := cfg.qualityWeight - cfg.costWeight;
    if shift >= 0.5 {
      tier := tier + 1;
    } else if shift <= -0.5 {
      tier := tier - 1;
    }
    if tier > 2 {
      tier := 2;
    }
    if tier < 0 {
      tier := 0;
    }
  }

  /**
   An operator's rule decides whatever else the request looks like, and is the tier wanted exactly unless the weights
   lean by a half or more towards a tier that there is.
   */
  lemma RuleDecides(cfg: Config, s: Signals, other: Signals)
    requires 1 <= s.keywordTier <= 3 && other.keywordTier == s.keywordTier
    ensures EffectiveTier(cfg, s) == EffectiveTier(cfg, other)
    ensures var shift := cfg.qualityWeight - cfg.costWeight;
            EffectiveTier(cfg, s) == s.keywordTier - 1
            <==> (shift < 0.5 || s.keywordTier == 3) && (shift > -0.5 || s.keywordTier == 1)
  {
  }

  /**
   What the scoring promises without a rule. Extended thinking, or a prompt of more than 40000 tokens, reaches the
   strong tier whatever else the request looks like, unless the message is trivial, and even then it is not fast. A
   trivial message lowers the tier, or leaves it.
   */
  lemma TierPromises(s: Signals)
    ensures s.keywordTier <= 0 && (s.thinking || s.inputTokens > 40000) ==> ClassifiedTier(s) >= if s.simple then 1 else 2
    ensures ClassifiedTier(s.(simple := true)) <= ClassifiedTier(s)
  {
  }

  /** A toolset counts once, however large, and never makes a request strong or even balanced by itself. */
  lemma ToolsetCountsOnce(s: Signals, tools: int)
    ensures s.tools > 0 && tools > 0 ==> ClassifiedTier(s.(tools := tools)) == ClassifiedTier(s)
    ensures ClassifiedTier(Signals(0, tools, 0, false, false, false, false, false, 0)) == 0
  {
  }

  /** Every signal of `a` is at least as heavy as that of `b`. */
  predicate Heavier(a: Signals, b: Signals) {
    && a.inputTokens >= b.inputTokens && a.tools >= b.tools && a.turns >= b.turns
    && (b.images ==> a.images) && (b.thinking ==> a.thinking) && (b.code ==> a.code) && (b.reasoning ==> a.reasoning)
    && (a.simple ==> b.simple)
  }

  /** Without an operator's rule, a heavier request and a stronger preference for quality never lower the tier. */
  lemma TierIsMonotone(cfg: Config, cfg': Config, a: Signals, b: Signals)
    requires a.keywordTier <= 0 && b.keywordTier <= 0 && Heavier(a, b)
    requires cfg.qualityWeight >= cfg'.qualityWeight && cfg.costWeight <= cfg'.costWeight
    ensures EffectiveTier(cfg, a) >= EffectiveTier(cfg', b)
  {
    assert Complexity(a) >= Complexity(b);
  }

  // ---- Candidates ----

  /** Everything one resolution consults, held fixed while it runs. */
  datatype View = View(
    accounts: seq<Account>,
    models: string -> seq<string>,
    inTier: (int, Account, string) -> bool,
    blacklisted: (Account, string) -> bool,
    request: P.Request,
    normal: string -> string,
    statKey: (string, string) -> string,
    skip: set<string>,
    stats: map<string, Stats>,
    vision: Option<string -> bool>,
    contextLimit: string -> int,
    free: Account -> bool,
    price: string -> Option<Amount>,
    cfg: Config,
    sig: Signals,
    now: int)
  {
    function StatsOf(c: Candidate): Stats {
      var key := statKey(c.account.id, c.model);
      if key in stats then stats[key] else NO_STATS
    }

    predicate Known(id: string, model: string) {
      statKey(id, model) in stats
    }

    predicate Quarantined(id: string, model: string) {
      Known(id, model) && now < stats[statKey(id, model)].quarantinedUntil
    }

    predicate Slow(c: Candidate) {
      Known(c.account.id, c.model) && now < stats[statKey(c.account.id, c.model)].slowUntil
    }

    predicate Sees(c: Candidate) {
      vision.Some? && vision.value(c.model)
    }

    predicate Fits(c: Candidate) {
      sig.inputTokens <= 0 || contextLimit(c.model) == 0 || contextLimit(c.model) >= sig.inputTokens + CONTEXT_RESERVE
    }

    /** The request as the pool sees it for one model. */
    function For(model: string): P.Request {
      request.(modelKey := normal(model), excluded := {})
    }

    /** The pool's own entry for the account, if it can take the model right now. */
    function Lookup(id: string, model: string): Option<Account> {
      var acc := Entry(accounts, id);
      if acc.Some? && For(model).Ready(acc.value) then acc else None
    }

    /** The pair may serve a request of this tier. */
    predicate Routable(tier: int, acc: Account, model: string) {
      && inTier(tier, acc, model) && !blacklisted(acc, model)
      && !Quarantined(acc.id, model) && statKey(acc.id, model) !in skip
      && For(model).Ready(acc)
    }

    ghost predicate Offered(tier: int, c: Candidate) {
      && Entry(accounts, c.account.id) == Some(c.account)
      && c.model in models(c.account.id)
      && Routable(tier, c.account, c.model)
    }

    predicate LooksAtImages() {
      sig.images && vision.Some?
    }

    /**
     How good a candidate is to the search, 0 the best: it sees the images and holds the context, it holds the
     context, it sees the images, it exists.
     */
    ghost predicate Level(k: int, tier: int, c: Candidate) {
      && Offered(tier, c)
      && (k == 0 || k == 2 ==> LooksAtImages() && Sees(c))
      && (k == 0 || k == 1 ==> Fits(c))
    }

    ghost predicate Has(k: int, tier: int) {
      exists c :: Level(k, tier, c)
    }

    /** `tier` is the nearest to the wanted one that has a candidate of level k. */
    ghost predicate Nearest(k: int, tier: int) {
      && 0 <= tier <= 2 && Has(k, tier)
      && forall t :: 0 <= t <= 2 && Before(EffectiveTier(cfg, sig), t, tier) ==> !Has(k, t)
    }
  }

  /** The first account under an id. */
  function Entry(accounts: seq<Account>, id: string): Option<Account> {
    if accounts == [] then None
    else if Entry(accounts[..|accounts| - 1], id).Some? then Entry(accounts[..|accounts| - 1], id)
    else if accounts[|accounts| - 1].id == id then Some(accounts[|accounts| - 1])
    else None
  }

  function Distance(a: int, b: int): nat {
    if a < b then b - a else a - b
  }

  /** From `wanted`, tier a is tried before tier b: it is nearer, or as near and above. */
  predicate Before(wanted: int, a: int, b: int) {
    Distance(wanted, a) < Distance(wanted, b) || (Distance(wanted, a) == Distance(wanted, b) && a > b)
  }

  method Order(tier: int) returns (order: seq<int>)
    requires 0 <= tier <= 2
    ensures |order| == 3 && forall t :: 0 <= t <= 2 ==> t in order
    ensures forall i :: 0 <= i < 3 ==> 0 <= order[i] <= 2
    ensures forall i, j :: 0 <= i < j < 3 ==> Before(tier, order[i], order[j])
  {
    order := [tier];
    for d := 1 to 3
      invariant d == 1 ==> order == [tier]
      invariant d == 2 ==> order == [[0, 1], [1, 2, 0], [2, 1]][tier]
      invariant d == 3 ==> order == [[0, 1, 2], [1, 2, 0], [2, 1, 0]][tier]
    {
      if tier + d <= 2 {
        order := order + [tier + d];
      }
      if tier - d >= 0 {
        order := order + [tier - d];
      }
    }
    assert order[0] == tier;
    assert {order[1], order[2]} == {0, 1, 2} - {tier};
  }

  method OnlyFitsContext(v: View, cands: seq<Candidate>) returns (out: seq<Candidate>)
    ensures forall c :: c in out <==> c in cands && v.Fits(c)
  {
    if v.sig.inputTokens <= 0 {
      return cands;
    }
    out := [];
    for i := 0 to |cands|
      invariant forall c :: c in out <==> c in cands[..i] && v.Fits(c)
    {
      var c := cands[i];
      assert cands[..i + 1] == cands[..i] + [c];
      var limit := v.contextLimit(c.model);
      if limit == 0 || limit >= v.sig.inputTokens + CONTEXT_RESERVE {
        out := out + [c];
      }
    }
    assert cands[..|cands|] == cands;
  }

  method OnlyVision(v: View, cands: seq<Candidate>) returns (out: seq<Candidate>)
    ensures forall c :: c in out <==> c in cands && v.Sees(c)
  {
    out := [];
    for i := 0 to |cands|
      invariant forall c :: c in out <==> c in cands[..i] && v.Sees(c)
    {
      assert cands[..i + 1] == cands[..i] + [cands[i]];
      if v.vision.Some? && v.vision.value(cands[i].model) {
        out := out + [cands[i]];
      }
    }
    assert cands[..|cands|] == cands;
  }

  method WithoutSlow(v: View, cands: seq<Candidate>) returns (out: seq<Candidate>)
    ensures forall c :: c in out <==> c in cands && !v.Slow(c)
    ensures |out| <= |cands|
  {
    out := [];
    for i := 0 to |cands|
      invariant forall c :: c in out <==> c in cands[..i] && !v.Slow(c)
      invariant |out| <= i
    {
      assert cands[..i + 1] == cands[..i] + [cands[i]];
      if !v.Slow(cands[i]) {
        out := out + [cands[i]];
      }
    }
    assert cands[..|cands|] == cands;
  }

  predicate Priority(v: View, c: Candidate) {
    c.account.weight >= 2 && v.free(c.account)
  }

  /** Keeps the heaviest of the free accounts of weight two and more. */
  method OnlyPriority(v: View, cands: seq<Candidate>) returns (out: seq<Candidate>)
    ensures forall c :: c in out <==> c in cands && Priority(v, c) && Heaviest(v, cands, c)
    ensures out == [] ==> forall c :: c in cands ==> !Priority(v, c)
  {
    var best := 1;
    out := [];
    for i := 0 to |cands|
      invariant best >= 1 && (out == [] <==> best == 1)
      invariant forall c :: c in cands[..i] && Priority(v, c) ==> c.account.weight <= best
      invariant forall c :: c in out <==> c in cands[..i] && Priority(v, c) && c.account.weight == best
    {
      var c := cands[i];
      assert cands[..i + 1] == cands[..i] + [c];
      var w := c.account.weight;
      if w < best || w < 2 || !v.free(c.account) {
        continue;
      }
      if w > best {
        best, out := w, [];
      }
      out := out + [c];
    }
    assert cands[..|cands|] == cands;
    if out != [] {
      assert out[0] in cands && out[0].account.weight == best;
    }
  }

  ghost predicate Heaviest(v: View, cands: seq<Candidate>, c: Candidate) {
    forall c' :: c' in cands && Priority(v, c') ==> c'.account.weight <= c.account.weight
  }

  lemma EntrySnoc(accounts: seq<Account>, i: nat, id: string)
    requires i < |accounts|
    ensures Entry(accounts[..i + 1], id) ==
            if Entry(accounts[..i], id).Some? then Entry(accounts[..i], id)
            else if accounts[i].id == id then Some(accounts[i])
            else None
  {
    assert accounts[..i + 1][..i] == accounts[..i];
  }

  lemma {:induction false} EntryStays(accounts: seq<Account>, i: nat, id: string)
    requires i <= |accounts| && Entry(accounts[..i], id).Some?
    ensures Entry(accounts, id) == Entry(accounts[..i], id)
    decreases |accounts|
  {
    var n := |accounts| - 1;
    if i <= n {
      assert accounts[..n][..i] == accounts[..i];
      EntryStays(accounts[..n], i, id);
    } else {
      assert accounts[..i] == accounts;
    }
  }

  lemma {:induction false} EntryHasId(accounts: seq<Account>, id: string)
    ensures Entry(accounts, id).Some? ==> Entry(accounts, id).value.id == id && Entry(accounts, id).value in accounts
  {
    if accounts != [] {
      var n := |accounts| - 1;
      EntryHasId(accounts[..n], id);
      assert accounts == accounts[..n] + [accounts[n]];
    }
  }

  method GetForModelByID(v: View, id: string, model: string) returns (acc: Option<Account>)
    ensures acc == v.Lookup(id, model)
  {
    for i := 0 to |v.accounts|
      invariant Entry(v.accounts[..i], id).None?
    {
      EntrySnoc(v.accounts, i, id);
      if v.accounts[i].id != id {
        continue;
      }
      EntryStays(v.accounts, i + 1, id);
      if !v.For(model).Ready(v.accounts[i]) {
        return None;
      }
      return Some(v.accounts[i]);
    }
    assert v.accounts[..|v.accounts|] == v.accounts;
    return None;
  }

  /** Offered, when only the first i accounts are looked at. */
  ghost predicate OfferedBy(v: View, tier: int, i: nat, c: Candidate)
    requires i <= |v.accounts|
  {
    && Entry(v.accounts[..i], c.account.id) == Some(c.account)
    && c.model in v.models(c.account.id)
    && v.Routable(tier, c.account, c.model)
  }

  ghost predicate OfferedBelow(v: View, tier: int, i: nat, k: nat, c: Candidate)
    requires i < |v.accounts| && k <= |v.models(v.accounts[i].id)|
  {
    OfferedBy(v, tier, i, c) ||
    (c.account == v.accounts[i] && c.model in v.models(c.account.id)[..k] && v.Routable(tier, c.account, c.model))
  }

  lemma NextAccount(v: View, tier: int, i: nat, c: Candidate)
    requires i < |v.accounts|
    ensures OfferedBy(v, tier, i + 1, c) <==>
            if Entry(v.accounts[..i], v.accounts[i].id).Some? then OfferedBy(v, tier, i, c)
            else OfferedBelow(v, tier, i, |v.models(v.accounts[i].id)|, c)
  {
    EntrySnoc(v.accounts, i, c.account.id);
    var all := v.models(v.accounts[i].id);
    assert all[..|all|] == all;
  }

  method Candidates(v: View, tier: int) returns (out: seq<Candidate>)
    ensures forall c :: c in out <==> v.Offered(tier, c)
  {
    out := [];
    var seen: set<string> := {};
    for i := 0 to |v.accounts|
      invariant forall id :: id in seen <==> Entry(v.accounts[..i], id).Some?
      invariant forall c :: c in out <==> OfferedBy(v, tier, i, c)
    {
      var acc := v.accounts[i];
      forall id
        ensures Entry(v.accounts[..i + 1], id).Some? <==> id in seen + {acc.id}
      {
        EntrySnoc(v.accounts, i, id);
      }
      forall c
        ensures OfferedBy(v, tier, i + 1, c) <==>
                if acc.id in seen then OfferedBy(v, tier, i, c)
                else OfferedBelow(v, tier, i, |v.models(acc.id)|, c)
      {
        NextAccount(v, tier, i, c);
      }
      if acc.id in seen {
        assert seen + {acc.id} == seen;
        continue;
      }
      seen := seen + {acc.id};
      out := CandidatesOf(v, tier, i, out);
    }
    assert v.accounts[..|v.accounts|] == v.accounts;
  }

  /** Adds what one account, not met before, offers. */
  method CandidatesOf(v: View, tier: int, i: nat, before: seq<Candidate>) returns (out: seq<Candidate>)
    requires i < |v.accounts| && Entry(v.accounts[..i], v.accounts[i].id).None?
    requires forall c :: c in before <==> OfferedBy(v, tier, i, c)
    ensures forall c :: c in out <==> OfferedBelow(v, tier, i, |v.models(v.accounts[i].id)|, c)
  {
    var acc := v.accounts[i];
    var models := v.models(acc.id);
    EntrySnoc(v.accounts, i, acc.id);
    EntryStays(v.accounts, i + 1, acc.id);
    out := before;
    for k := 0 to |models|
      invariant forall c :: c in out <==> OfferedBelow(v, tier, i, k, c)
    {
      var m := models[k];
      assert models[..k + 1] == models[..k] + [m];
      if !v.inTier(tier, acc, m) || v.blacklisted(acc, m) {
        continue;
      }
      if v.Quarantined(acc.id, m) || v.statKey(acc.id, m) in v.skip {
        continue;
      }
      var a := GetForModelByID(v, acc.id, m);
      if a.Some? {
        out := out + [Candidate(a.value, m)];
      }
    }
  }

  // ---- The tier search ----

  function LevelOf(vision: bool, fitting: bool): int {
    (if fitting then 0 else 2) + (if vision then 0 else 1)
  }

  ghost predicate AllOf(v: View, k: int, tier: int, cands: seq<Candidate>) {
    forall c :: c in cands <==> v.Level(k, tier, c)
  }

  ghost predicate Nowhere(v: View, k: int) {
    forall t :: 0 <= t <= 2 ==> !v.Has(k, t)
  }

  ghost predicate NoneYet(v: View, k: int, order: seq<int>, i: nat)
    requires i <= |order|
  {
    forall j :: 0 <= j < i ==> !v.Has(k, order[j])
  }

  ghost predicate IsOrder(wanted: int, order: seq<int>) {
    && |order| == 3 && (forall t :: 0 <= t <= 2 ==> t in order)
    && (forall i :: 0 <= i < 3 ==> 0 <= order[i] <= 2)
    && (forall i, j :: 0 <= i < j < 3 ==> Before(wanted, order[i], order[j]))
  }

  lemma FoundIsNearest(v: View, k: int, order: seq<int>, i: nat, cands: seq<Candidate>)
    requires IsOrder(EffectiveTier(v.cfg, v.sig), order) && i < 3
    requires NoneYet(v, k, order, i) && cands != [] && AllOf(v, k, order[i], cands)
    ensures v.Nearest(k, order[i])
  {
    assert cands[0] in cands;
    assert v.Level(k, order[i], cands[0]);
    forall t | 0 <= t <= 2 && Before(EffectiveTier(v.cfg, v.sig), t, order[i])
      ensures !v.Has(k, t)
    {
      assert t in order;
      var j :| 0 <= j < 3 && order[j] == t;
      assert i < j ==> Before(EffectiveTier(v.cfg, v.sig), order[i], order[j]);
    }
  }

  lemma NoneAnywhere(v: View, k: int, order: seq<int>)
    requires IsOrder(EffectiveTier(v.cfg, v.sig), order) && NoneYet(v, k, order, 3)
    ensures Nowhere(v, k)
  {
    forall t | 0 <= t <= 2
      ensures !v.Has(k, t)
    {
      assert t in order;
      var j :| 0 <= j < 3 && order[j] == t;
    }
  }

  lemma EmptyHasNone(v: View, k: int, tier: int, cands: seq<Candidate>)
    requires AllOf(v, k, tier, cands)
    ensures v.Has(k, tier) <==> cands != []
  {
    if cands != [] {
      assert v.Level(k, tier, cands[0]);
    }
  }

  lemma FittingAreSome(v: View, vision: bool, tier: int)
    ensures v.Has(LevelOf(vision, true), tier) ==> v.Has(LevelOf(vision, false), tier)
  {
    if v.Has(LevelOf(vision, true), tier) {
      var c :| v.Level(LevelOf(vision, true), tier, c);
      assert v.Level(LevelOf(vision, false), tier, c);
    }
  }

  /** Candidates set aside for when none holds the context. */
  datatype Aside = Aside(cands: seq<Candidate>, tier: int)

  /** Nothing set aside and nothing there, or all of the nearest tier. */
  ghost predicate SetAside(v: View, k: int, aside: Aside) {
    if aside.cands == [] then Nowhere(v, k) else AllOf(v, k, aside.tier, aside.cands) && v.Nearest(k, aside.tier)
  }

  /** One walk from the wanted tier outward; with `needVision`, among the candidates that see images. */
  method SearchPass(v: View, order: seq<int>, needVision: bool) returns (found: Aside, any: Aside, truncated: bool)
    requires IsOrder(EffectiveTier(v.cfg, v.sig), order)
    requires needVision ==> v.LooksAtImages()
    ensures SetAside(v, LevelOf(needVision, true), found)
    ensures found.cands == [] ==> SetAside(v, LevelOf(needVision, false), any)
    ensures truncated ==> exists t, c :: v.Level(LevelOf(needVision, false), t, c) && !v.Fits(c)
  {
    var all, fitting := LevelOf(needVision, false), LevelOf(needVision, true);
    any, truncated := Aside([], order[0]), false;
    for i := 0 to 3
      invariant NoneYet(v, fitting, order, i)
      invariant any.cands == [] ==> NoneYet(v, all, order, i)
      invariant any.cands != [] ==> SetAside(v, all, any)
      invariant truncated ==> exists t, c :: v.Level(all, t, c) && !v.Fits(c)
    {
      var ti := order[i];
      var cands := Candidates(v, ti);
      if needVision {
        cands := OnlyVision(v, cands);
      }
      assert AllOf(v, all, ti, cands);
      EmptyHasNone(v, all, ti, cands);
      if cands == [] {
        FittingAreSome(v, needVision, ti);
        continue;
      }
      if any.cands == [] {
        any := Aside(cands, ti);
        FoundIsNearest(v, all, order, i, cands);
      }
      var fits := OnlyFitsContext(v, cands);
      assert AllOf(v, fitting, ti, fits);
      EmptyHasNone(v, fitting, ti, fits);
      if fits != [] {
        FoundIsNearest(v, fitting, order, i, fits);
        return Aside(fits, ti), any, truncated;
      }
      assert v.Level(all, ti, cands[0]) && !v.Fits(cands[0]);
      truncated := true;
    }
    NoneAnywhere(v, fitting, order);
    if any.cands == [] {
      NoneAnywhere(v, all, order);
    }
    found := Aside([], order[0]);
  }

  /** Level k is the best there is, and `tier` the nearest that has it. */
  ghost predicate BestAt(v: View, k: int, tier: int) {
    && 0 <= k <= 3 && v.Nearest(k, tier)
    && forall j :: 0 <= j < k ==> Nowhere(v, j)
  }

  lemma NoImages(v: View)
    requires !v.LooksAtImages()
    ensures Nowhere(v, 0) && Nowhere(v, 2)
  {
  }

  lemma FoundIsSomewhere(v: View, k: int, found: Aside)
    requires found.cands != [] && 0 <= found.tier <= 2 && AllOf(v, k, found.tier, found.cands)
    ensures !Nowhere(v, 3)
  {
    assert found.cands[0] in found.cands;
    assert v.Level(k, found.tier, found.cands[0]);
    assert v.Level(3, found.tier, found.cands[0]);
    assert v.Has(3, found.tier);
  }

  method Search(v: View, tier: int) returns (found: Aside, truncated: bool, ghost k: int)
    requires tier == EffectiveTier(v.cfg, v.sig)
    ensures found.cands == [] ==> Nowhere(v, 3)
    ensures found.cands != [] ==> BestAt(v, k, found.tier) && AllOf(v, k, found.tier, found.cands)
  {
    var order := Order(tier);
    var anyFit := Aside([], tier);
    truncated := false;
    if v.LooksAtImages() {
      found, anyFit, truncated := SearchPass(v, order, true);
      if found.cands != [] {
        k := 0;
        return;
      }
    } else {
      NoImages(v);
    }
    var any, more;
    found, any, more := SearchPass(v, order, false);
    truncated := truncated || more;
    k := 1;
    if found.cands != [] {
      return;
    }
    if anyFit.cands != [] {
      k := 2;
      return anyFit, truncated, 2;
    }
    return any, truncated, 3;
  }

  // ---- The bandit ----

  function Max(a: real, b: real): real {
    if a > b then a else b
  }

  function Min(a: real, b: real): real {
    if a < b then a else b
  }

  /** The mean of what was seen of a pair, moved by this draw's noise and kept within [0.01, 1]. */
  function ThompsonSample(successes: Amount, failures: Amount, noise: real): (r: real)
    ensures 0.0 < r <= 1.0
  {
    var a, b := successes + 1.0, failures + 1.0;
    Max(0.01, Min(1.0, a / (a + b) + noise))
  }

  lemma Shrinks(x: real, y: real)
    requires 0.0 <= x && y >= x && y > 0.0
    ensures 0.0 <= x / y <= 1.0
  {
  }

  /** The harsher of what the model costs and how much of the account's quota is left. */
  function Affordability(v: View, c: Candidate): (r: real)
    ensures 0.0 <= r <= 1.0
  {
    var price := v.price(c.model);
    var money := if price.Some? then 2.0 / (2.0 + price.value) else 0.5;
    assert 0.0 <= money <= 1.0 by {
      if price.Some? {
        Shrinks(2.0, 2.0 + price.value);
      }
    }
    var quota := if c.account.usageLimit > 0.0 then Max(0.0, 1.0 - c.account.usagePercent) else 1.0;
    Min(money, quota)
  }

  function Speed(st: Stats): (r: real)
    ensures 0.0 <= r <= 1.0
  {
    if st.ewmaLatency > 0.0 then
      Shrinks(1.0, 1.0 + st.ewmaLatency / 2000.0);
      1.0 / (1.0 + st.ewmaLatency / 2000.0)
    else 1.0
  }

  /** What is left of 1 when a penalty counts with some weight. */
  function Discount(weight: real, penalty: real): real {
    1.0 - weight * penalty
  }

  function Score(v: View, c: Candidate, noise: real): real {
    var st := v.StatsOf(c);
    ThompsonSample(st.successes, st.failures, noise) *
    Discount(v.cfg.speedWeight, 1.0 - Speed(st)) *
    Discount(v.cfg.costWeight, 1.0 - Affordability(v, c))
  }

  lemma ProductOfNonNegatives(x: real, y: real)
    requires 0.0 <= x && 0.0 <= y
    ensures 0.0 <= x * y
  {
  }

  lemma UnitProduct(x: real, y: real)
    requires 0.0 <= x <= 1.0 && 0.0 <= y <= 1.0
    ensures 0.0 <= x * y <= 1.0
  {
    ProductOfNonNegatives(x, y);
    ProductOfNonNegatives(1.0 - x, y);
    assert (1.0 - x) * y == y - x * y;
  }

  predicate UnitWeights(cfg: Config) {
    0.0 <= cfg.speedWeight <= 1.0 && 0.0 <= cfg.costWeight <= 1.0
  }

  /** With weights between 0 and 1, whatever the draw, a score is between 0 and 1. */
  lemma ScoresAreUnit(v: View, c: Candidate, noise: real)
    requires UnitWeights(v.cfg)
    ensures 0.0 <= Score(v, c, noise) <= 1.0
  {
    var st := v.StatsOf(c);
    var sample := ThompsonSample(st.successes, st.failures, noise);
    var speed, cost := Discount(v.cfg.speedWeight, 1.0 - Speed(st)), Discount(v.cfg.costWeight, 1.0 - Affordability(v, c));
    UnitProduct(v.cfg.speedWeight, 1.0 - Speed(st));
    UnitProduct(v.cfg.costWeight, 1.0 - Affordability(v, c));
    UnitProduct(sample, speed);
    UnitProduct(sample * speed, cost);
  }

  // ---- What scores higher ----

  lemma SmallerRatio(x: real, y: real, z: real, w: real)
    requires y > 0.0 && w > 0.0
    ensures x / y <= z / w <==> x * w <= z * y
    ensures x / y < z / w <==> x * w < z * y
  {
    var p, q := x / y, z / w;
    assert x == p * y && z == q * w;
    assert x * w == p * (y * w) && z * y == q * (y * w);
    var n := y * w;
    assert n > 0.0;
    SameSide(p, q, n);
  }

  lemma SameSide(p: real, q: real, n: real)
    requires n > 0.0
    ensures p <= q <==> p * n <= q * n
    ensures p < q <==> p * n < q * n
  {
    if p < q {
      assert (q - p) * n > 0.0;
    } else {
      assert (p - q) * n >= 0.0;
    }
  }

  lemma ProductsRise(x: real, y: real, z: real, w: real)
    requires 0.0 <= x <= y && 0.0 <= z <= w
    ensures x * z <= y * w
    ensures (x < y && z > 0.0) || (z < w && y > 0.0) ==> x * z < y * w
  {
    ProductOfNonNegatives(y - x, z);
    ProductOfNonNegatives(y, w - z);
    assert y * w - x * z == (y - x) * z + y * (w - z);
    if x < y && z > 0.0 {
      ProductOfPositives(y - x, z);
    }
    if z < w && y > 0.0 {
      ProductOfPositives(y, w - z);
    }
  }

  lemma ProductOfPositives(x: real, y: real)
    requires 0.0 < x && 0.0 < y
    ensures 0.0 < x * y
  {
  }

  /** More successes, or fewer failures, under the same noise: a higher sample, as far as it is not clamped. */
  lemma ReliabilityRises(s: Amount, f: Amount, s': Amount, f': Amount, noise: real)
    requires s <= s' && f' <= f
    ensures ThompsonSample(0.0, 0.0, 0.0) == 0.5
    ensures var low, high := ThompsonSample(s, f, noise), ThompsonSample(s', f', noise);
            low <= high && ((s < s' || f' < f) && low < 1.0 && high > 0.01 ==> low < high)
  {
    var a, b, a', b' := s + 1.0, f + 1.0, s' + 1.0, f' + 1.0;
    SmallerRatio(a, a + b, a', a' + b');
    ProductsRise(a, a', b', b);
    assert a * (a' + b') == a * a' + a * b' && a' * (a + b) == a * a' + a' * b;
  }

  /** What a model costs; one without a known price counts as one of price 2. */
  function PriceOf(v: View, c: Candidate): real {
    if v.price(c.model).None? then 2.0 else v.price(c.model).value
  }

  /** The part of the account's quota that is left. */
  function QuotaLeft(c: Candidate): real {
    if c.account.usageLimit <= 0.0 then 1.0 else if c.account.usagePercent >= 1.0 then 0.0 else 1.0 - c.account.usagePercent
  }

  /** The cheaper model is the more affordable, and the fuller account, and neither makes up for the other. */
  lemma CheaperIsMoreAffordable(v: View, c: Candidate, d: Candidate)
    ensures PriceOf(v, c) <= PriceOf(v, d) && QuotaLeft(c) >= QuotaLeft(d) ==> Affordability(v, c) >= Affordability(v, d)
    ensures PriceOf(v, c) < PriceOf(v, d) && QuotaLeft(c) > Affordability(v, d) ==> Affordability(v, c) > Affordability(v, d)
    ensures 0.0 <= c.account.usagePercent ==> Affordability(v, c) <= QuotaLeft(c)
    ensures PriceOf(v, c) == 2.0 && c.account.usageLimit <= 0.0 ==> Affordability(v, c) == 0.5
    ensures PriceOf(v, c) == 0.0 && c.account.usageLimit <= 0.0 ==> Affordability(v, c) == 1.0
  {
    SmallerRatio(2.0, 2.0 + PriceOf(v, d), 2.0, 2.0 + PriceOf(v, c));
    MoneyOf(v, c);
    MoneyOf(v, d);
  }

  lemma MoneyOf(v: View, c: Candidate)
    ensures Affordability(v, c) == Min(2.0 / (2.0 + PriceOf(v, c)), Max(0.0, QuotaLeft(c)))
  {
  }

  /** The quicker of two scores higher for speed; a pair never timed counts as instant, and two seconds as half. */
  lemma QuickerIsFaster(st: Stats, st': Stats)
    ensures st.ewmaLatency <= st'.ewmaLatency ==> Speed(st) >= Speed(st')
    ensures st.ewmaLatency < st'.ewmaLatency ==> Speed(st) > Speed(st')
    ensures (st.ewmaLatency == 0.0 ==> Speed(st) == 1.0) && (st.ewmaLatency == 2000.0 ==> Speed(st) == 0.5)
  {
    var x, y := 1.0 + st.ewmaLatency / 2000.0, 1.0 + st'.ewmaLatency / 2000.0;
    SmallerRatio(1.0, y, 1.0, x);
    assert 1.0 / 1.0 == 1.0;
  }

  /** Seen to succeed no less and fail no more, no slower, no dearer, and with no less quota left. */
  predicate NoWorse(v: View, c: Candidate, d: Candidate) {
    && v.StatsOf(c).successes >= v.StatsOf(d).successes && v.StatsOf(c).failures <= v.StatsOf(d).failures
    && v.StatsOf(c).ewmaLatency <= v.StatsOf(d).ewmaLatency
    && PriceOf(v, c) <= PriceOf(v, d) && QuotaLeft(c) >= QuotaLeft(d)
  }

  lemma DiscountRises(weight: real, penalty: real, less: real)
    requires 0.0 <= weight <= 1.0 && 0.0 <= less <= penalty <= 1.0
    ensures 0.0 <= Discount(weight, penalty) <= Discount(weight, less)
    ensures weight > 0.0 && less < penalty ==> Discount(weight, penalty) < Discount(weight, less)
  {
    ProductsRise(less, penalty, weight, weight);
    UnitProduct(weight, penalty);
  }

  function SpeedPart(v: View, c: Candidate): real {
    Discount(v.cfg.speedWeight, 1.0 - Speed(v.StatsOf(c)))
  }

  function CostPart(v: View, c: Candidate): real {
    Discount(v.cfg.costWeight, 1.0 - Affordability(v, c))
  }

  lemma SpeedPartRises(v: View, c: Candidate, d: Candidate)
    requires UnitWeights(v.cfg) && v.StatsOf(c).ewmaLatency <= v.StatsOf(d).ewmaLatency
    ensures 0.0 <= SpeedPart(v, d) <= SpeedPart(v, c)
    ensures v.cfg.speedWeight > 0.0 && v.StatsOf(c).ewmaLatency < v.StatsOf(d).ewmaLatency ==> SpeedPart(v, d) < SpeedPart(v, c)
    ensures v.cfg.speedWeight < 1.0 ==> SpeedPart(v, c) > 0.0
  {
    QuickerIsFaster(v.StatsOf(c), v.StatsOf(d));
    DiscountRises(v.cfg.speedWeight, 1.0 - Speed(v.StatsOf(d)), 1.0 - Speed(v.StatsOf(c)));
    StaysPositive(v.cfg.speedWeight, 1.0 - Speed(v.StatsOf(c)));
  }

  lemma CostPartRises(v: View, c: Candidate, d: Candidate)
    requires UnitWeights(v.cfg) && PriceOf(v, c) <= PriceOf(v, d) && QuotaLeft(c) >= QuotaLeft(d)
    ensures 0.0 <= CostPart(v, d) <= CostPart(v, c)
    ensures v.cfg.costWeight > 0.0 && PriceOf(v, c) < PriceOf(v, d) && QuotaLeft(c) > Affordability(v, d) ==> CostPart(v, d) < CostPart(v, c)
    ensures v.cfg.costWeight < 1.0 ==> CostPart(v, d) > 0.0
  {
    CheaperIsMoreAffordable(v, c, d);
    DiscountRises(v.cfg.costWeight, 1.0 - Affordability(v, d), 1.0 - Affordability(v, c));
    StaysPositive(v.cfg.costWeight, 1.0 - Affordability(v, d));
  }

  lemma PartsRise(v: View, c: Candidate, d: Candidate, noise: real, low: real, high: real)
    requires low == ThompsonSample(v.StatsOf(d).successes, v.StatsOf(d).failures, noise)
    requires high == ThompsonSample(v.StatsOf(c).successes, v.StatsOf(c).failures, noise)
    requires low <= high && 0.0 <= SpeedPart(v, d) <= SpeedPart(v, c) && 0.0 <= CostPart(v, d) <= CostPart(v, c)
    ensures Score(v, c, noise) >= Score(v, d, noise)
    ensures (CostPart(v, d) < CostPart(v, c) && SpeedPart(v, c) > 0.0) || (SpeedPart(v, d) < SpeedPart(v, c) && CostPart(v, d) > 0.0)
            ==> Score(v, c, noise) > Score(v, d, noise)
  {
    var b, b', k, k' := SpeedPart(v, d), SpeedPart(v, c), CostPart(v, d), CostPart(v, c);
    ScoreIs(v, d, noise, low, b, k);
    ScoreIs(v, c, noise, high, b', k');
    ThreeRise(low, high, b, b', k, k');
  }

  lemma ScoreIs(v: View, c: Candidate, noise: real, sample: real, speed: real, cost: real)
    requires sample == ThompsonSample(v.StatsOf(c).successes, v.StatsOf(c).failures, noise)
    requires speed == SpeedPart(v, c) && cost == CostPart(v, c)
    ensures Score(v, c, noise) == sample * speed * cost
  {
  }

  /**
   What the bandit prefers: under the same noise, a candidate that is no worse in any respect scores no lower, and one
   that is cheaper or quicker besides scores higher, as far as the weights look at that and the quota lets it.
   */
  lemma NoWorseScoresNoLower(v: View, c: Candidate, d: Candidate, noise: real)
    requires UnitWeights(v.cfg) && NoWorse(v, c, d)
    ensures Score(v, c, noise) >= Score(v, d, noise)
    ensures v.cfg.speedWeight < 1.0 && v.cfg.costWeight > 0.0 && PriceOf(v, c) < PriceOf(v, d) && QuotaLeft(c) > Affordability(v, d)
            ==> Score(v, c, noise) > Score(v, d, noise)
    ensures v.cfg.costWeight < 1.0 && v.cfg.speedWeight > 0.0 && v.StatsOf(c).ewmaLatency < v.StatsOf(d).ewmaLatency
            ==> Score(v, c, noise) > Score(v, d, noise)
  {
    var x, y := v.StatsOf(c), v.StatsOf(d);
    ReliabilityRises(y.successes, y.failures, x.successes, x.failures, noise);
    SpeedPartRises(v, c, d);
    CostPartRises(v, c, d);
    PartsRise(v, c, d, noise, ThompsonSample(y.successes, y.failures, noise), ThompsonSample(x.successes, x.failures, noise));
  }

  lemma StaysPositive(weight: real, penalty: real)
    requires 0.0 <= weight && 0.0 <= penalty <= 1.0
    ensures weight < 1.0 ==> Discount(weight, penalty) > 0.0
  {
    ProductsRise(penalty, 1.0, weight, weight);
  }

  lemma ThreeRise(a: real, a': real, b: real, b': real, c: real, c': real)
    requires 0.0 < a <= a' && 0.0 <= b <= b' && 0.0 <= c <= c'
    ensures a * b * c <= a' * b' * c'
    ensures (c < c' && b' > 0.0) || (b < b' && c > 0.0) ==> a * b * c < a' * b' * c'
  {
    ProductsRise(a, a', b, b');
    ProductOfNonNegatives(a, b);
    ProductsRise(a * b, a' * b', c, c');
    if b' > 0.0 {
      assert a' * b' > 0.0;
    }
  }

  /** The random numbers of one resolution: whether to explore, whom, and the noise of each score. */
  datatype Draws = Draws(coin: real, index: nat -> nat, noise: nat -> real)
  {
    ghost predicate Fair() {
      0.0 <= coin < 1.0 && forall n: nat :: n > 0 ==> index(n) < n
    }
  }

  /** How often to explore: less the more outcomes of the candidates are known, and never from twenty on. */
  function Rate(v: View, cands: seq<Candidate>): real {
    if v.cfg.explore <= 0.0 || cands == [] then 0.0
    else v.cfg.explore * (1.0 - Min(1.0, Observations(v, cands) / 20.0))
  }

  method ExploreRate(v: View, cands: seq<Candidate>) returns (rate: real)
    ensures rate == Rate(v, cands)
  {
    if v.cfg.explore <= 0.0 || cands == [] {
      return 0.0;
    }
    var observations: Amount := 0.0;
    for i := 0 to |cands|
      invariant observations == Observations(v, cands[..i])
    {
      assert cands[..i + 1][..i] == cands[..i];
      var st := v.StatsOf(cands[i]);
      observations := observations + (st.successes + st.failures);
    }
    assert cands[..|cands|] == cands;
    var maturity := Min(1.0, observations / 20.0);
    rate := v.cfg.explore * (1.0 - maturity);
  }

  /** Exploration stays within the configured rate and has ended once twenty outcomes are known. */
  lemma ExplorationFades(v: View, cands: seq<Candidate>)
    ensures 0.0 <= Rate(v, cands) <= Max(0.0, v.cfg.explore)
    ensures Observations(v, cands) >= 20.0 ==> Rate(v, cands) == 0.0
  {
    if v.cfg.explore > 0.0 {
      var maturity := Min(1.0, Observations(v, cands) / 20.0);
      ProductOfNonNegatives(v.cfg.explore, maturity);
      ProductOfNonNegatives(v.cfg.explore, 1.0 - maturity);
      assert v.cfg.explore * (1.0 - maturity) == v.cfg.explore - v.cfg.explore * maturity;
    }
  }

  function Observations(v: View, cands: seq<Candidate>): Amount {
    if cands == [] then 0.0
    else
      var st := v.StatsOf(cands[|cands| - 1]);
      Observations(v, cands[..|cands| - 1]) + (st.successes + st.failures)
  }

  /** A choice among candidates, with its score; nobody when no score is above -1. */
  datatype Choice = Choice(pick: Option<Candidate>, score: real, explored: bool)

  /** Nobody scores higher, and nobody before scores as high. */
  ghost predicate Wins(v: View, cands: seq<Candidate>, draws: Draws, i: nat)
    requires i < |cands|
  {
    && (forall j: nat :: j < |cands| ==> Score(v, cands[j], draws.noise(j)) <= Score(v, cands[i], draws.noise(i)))
    && (forall j: nat :: j < i ==> Score(v, cands[j], draws.noise(j)) < Score(v, cands[i], draws.noise(i)))
  }

  /** The outcome of a draw: a coin decides whether to explore, and otherwise the best score wins. */
  ghost predicate Drawn(v: View, cands: seq<Candidate>, draws: Draws, r: Choice) {
    && (r.explored <==> draws.coin < Rate(v, cands))
    && (r.pick.None? <==> !r.explored && forall i: nat :: i < |cands| ==> Score(v, cands[i], draws.noise(i)) <= -1.0)
    && (r.explored ==> r.pick == At(cands, draws.index(|cands|)))
    && (r.pick.Some? ==> exists i: nat :: i < |cands| && ScoredAt(v, cands, draws, r, i) && (!r.explored ==> Wins(v, cands, draws, i)))
  }

  function At(cands: seq<Candidate>, i: nat): Option<Candidate> {
    if i < |cands| then Some(cands[i]) else None
  }

  ghost predicate ScoredAt(v: View, cands: seq<Candidate>, draws: Draws, r: Choice, i: nat)
    requires i < |cands|
  {
    r.pick == Some(cands[i]) && r.score == Score(v, cands[i], draws.noise(i))
  }

  method Draw(v: View, cands: seq<Candidate>, draws: Draws) returns (r: Choice)
    requires cands != [] && draws.Fair()
    ensures Drawn(v, cands, draws, r)
  {
    var rate := ExploreRate(v, cands);
    var explored := draws.coin < rate;
    var best, pick, pickScore := -1.0, None, 0.0;
    ghost var at := 0;
    if explored {
      pick := Some(cands[draws.index(|cands|)]);
    }
    for i := 0 to |cands|
      invariant explored ==> pick == Some(cands[draws.index(|cands|)])
      invariant explored && draws.index(|cands|) < i ==> at < i && ScoredAt(v, cands, draws, Choice(pick, pickScore, explored), at)
      invariant !explored && pick.None? ==> best == -1.0 && forall j: nat :: j < i ==> Score(v, cands[j], draws.noise(j)) <= -1.0
      invariant !explored && pick.Some? ==> at < i && best == pickScore > -1.0 && ScoredAt(v, cands, draws, Choice(pick, pickScore, explored), at)
      invariant !explored && pick.Some? ==> Leads(v, cands, draws, i, at)
    {
      var c := cands[i];
      var score := Score(v, c, draws.noise(i));
      if explored {
        if Some(c) == pick {
          pickScore := score;
          at := i;
        }
        continue;
      }
      if score > best {
        best, pick, pickScore := score, Some(c), score;
        at := i;
      }
    }
    r := Choice(pick, pickScore, explored);
    if pick.Some? {
      assert ScoredAt(v, cands, draws, r, at);
      assert !explored ==> Wins(v, cands, draws, at);
    }
  }

  /** With weights between 0 and 1 somebody is always picked, and among the candidates. */
  lemma SomebodyIsDrawn(v: View, cands: seq<Candidate>, draws: Draws, r: Choice)
    requires cands != [] && UnitWeights(v.cfg) && Drawn(v, cands, draws, r)
    ensures r.pick.Some? && r.pick.value in cands && 0.0 <= r.score <= 1.0
  {
    ScoresAreUnit(v, cands[0], draws.noise(0));
    assert r.pick.Some?;
    var i: nat :| i < |cands| && ScoredAt(v, cands, draws, r, i) && (!r.explored ==> Wins(v, cands, draws, i));
    ScoresAreUnit(v, cands[i], draws.noise(i));
  }

  /** What the configuration makes of a candidate, whatever the draw. */
  function Factor(v: View, c: Candidate): real {
    SpeedPart(v, c) * CostPart(v, c)
  }

  lemma ScaledDown(x: real, y: real)
    requires 0.0 < x <= 1.0 && y > -1.0
    ensures x * y > -1.0
  {
    if y >= 0.0 {
      ProductOfNonNegatives(x, y);
    } else {
      ProductOfNonNegatives(1.0 - x, -y);
      assert (1.0 - x) * -y == x * y - y;
    }
  }

  lemma LuckySample(successes: Amount, failures: Amount, noise: real)
    requires noise >= 1.0
    ensures ThompsonSample(successes, failures, noise) == 1.0
  {
    var a, b := successes + 1.0, failures + 1.0;
    Shrinks(a, a + b);
  }

  lemma ScoreIsProduct(v: View, c: Candidate, noise: real)
    ensures Score(v, c, noise) == ThompsonSample(v.StatsOf(c).successes, v.StatsOf(c).failures, noise) * Factor(v, c)
  {
    ProductsAssociate(ThompsonSample(v.StatsOf(c).successes, v.StatsOf(c).failures, noise),
                      Discount(v.cfg.speedWeight, 1.0 - Speed(v.StatsOf(c))), Discount(v.cfg.costWeight, 1.0 - Affordability(v, c)));
  }

  lemma ProductsAssociate(x: real, y: real, z: real)
    ensures x * y * z == x * (y * z)
  {
  }

  /** A score is the factor scaled down by the draw, and the whole factor for a lucky one. */
  lemma ScoreOfFactor(v: View, c: Candidate, noise: real)
    ensures Factor(v, c) > -1.0 ==> Score(v, c, noise) > -1.0
    ensures noise >= 1.0 ==> Score(v, c, noise) == Factor(v, c)
  {
    var st := v.StatsOf(c);
    var x, y := ThompsonSample(st.successes, st.failures, noise), Factor(v, c);
    ScoreIsProduct(v, c, noise);
    assert Score(v, c, noise) == x * y;
    if y > -1.0 {
      ScaledDown(x, y);
    }
    if noise >= 1.0 {
      LuckySample(st.successes, st.failures, noise);
      assert x * y == y;
    }
  }

  /** Somebody is picked, whatever the random numbers. */
  ghost predicate AlwaysPicks(v: View, cands: seq<Candidate>) {
    forall draws: Draws, r :: draws.Fair() && Drawn(v, cands, draws, r) ==> r.pick.Some?
  }

  /** The least lucky coin, with every sample at its highest. */
  function Unlucky(rate: real): Draws {
    Draws(Max(0.0, rate), (n: nat) => 0, (n: nat) => 1.0)
  }

  lemma NobodyIsDrawn(v: View, cands: seq<Candidate>)
    requires cands != [] && Rate(v, cands) < 1.0 && forall c :: c in cands ==> Factor(v, c) <= -1.0
    ensures Unlucky(Rate(v, cands)).Fair() && Drawn(v, cands, Unlucky(Rate(v, cands)), Choice(None, 0.0, false))
  {
    var draws := Unlucky(Rate(v, cands));
    forall i: nat | i < |cands|
      ensures Score(v, cands[i], draws.noise(i)) <= -1.0
    {
      assert cands[i] in cands;
      ScoreOfFactor(v, cands[i], draws.noise(i));
    }
  }

  /**
   Somebody is always picked exactly if the configuration leaves some candidate a factor above -1, or always
   explores. Nothing here depends on the draw.
   */
  lemma AlwaysPicksIff(v: View, cands: seq<Candidate>)
    requires cands != []
    ensures AlwaysPicks(v, cands) <==> (exists c :: c in cands && Factor(v, c) > -1.0) || Rate(v, cands) >= 1.0
  {
    if c :| c in cands && Factor(v, c) > -1.0 {
      var i: nat :| i < |cands| && cands[i] == c;
      forall draws: Draws, r | draws.Fair() && Drawn(v, cands, draws, r)
        ensures r.pick.Some?
      {
        ScoreOfFactor(v, cands[i], draws.noise(i));
      }
    } else if Rate(v, cands) < 1.0 {
      NobodyIsDrawn(v, cands);
    }
  }

  /** Clamped weights leave every candidate a factor of at least 0. */
  lemma UnitWeightsAlwaysPick(v: View, cands: seq<Candidate>)
    requires cands != [] && UnitWeights(v.cfg)
    ensures AlwaysPicks(v, cands)
  {
    ScoresAreUnit(v, cands[0], 1.0);
    ScoreOfFactor(v, cands[0], 1.0);
    AlwaysPicksIff(v, cands);
  }

  // A cost weight of 4, which the admin API would clamp, and one unmetered account with a model of unknown price.
  const CHEAPSKATE := Config(0.0, 4.0, 0.0, 0.0)
  const SOMEBODY := Candidate(P.Account("a", 1, 0, 0.0, 0.0, 0.0, false), "m")
  const UNCLAMPED: View := View(
    [SOMEBODY.account],
    (id: string) => ["m"],
    (tier: int, acc: Account, model: string) => true,
    (acc: Account, model: string) => false,
    P.Request("m", {}, (acc: Account) => true, 0, false, P.Models(map["a" := {"m"}], map[], map[]), map[]),
    (model: string) => model,
    (id: string, model: string) => id + "|" + model,
    {}, map[], None,
    (model: string) => 0,
    (acc: Account) => true,
    (model: string) => None,
    CHEAPSKATE,
    Signals(0, 0, 0, false, false, false, false, false, 0),
    0)

  /** The failing case: the candidate is there, and nobody is picked. */
  lemma UnclampedPicksNobody()
    ensures UNCLAMPED.Offered(0, SOMEBODY) && !AlwaysPicks(UNCLAMPED, [SOMEBODY])
    ensures exists draws: Draws :: draws.Fair() && Drawn(UNCLAMPED, [SOMEBODY], draws, Choice(None, 0.0, false))
  {
    assert Factor(UNCLAMPED, SOMEBODY) == -1.0;
    assert [SOMEBODY.account][..0] == [];
    assert "m" in UNCLAMPED.request.models.lists["a"];
    AlwaysPicksIff(UNCLAMPED, [SOMEBODY]);
    NobodyIsDrawn(UNCLAMPED, [SOMEBODY]);
  }

  /** Wins among the first n. */
  ghost predicate Leads(v: View, cands: seq<Candidate>, draws: Draws, n: nat, i: nat)
    requires i < n <= |cands|
  {
    && (forall j: nat :: j < n ==> Score(v, cands[j], draws.noise(j)) <= Score(v, cands[i], draws.noise(i)))
    && (forall j: nat :: j < i ==> Score(v, cands[j], draws.noise(j)) < Score(v, cands[i], draws.noise(i)))
  }

  // ---- Resolving ----

  /** What was decided: the tier that serves, the one wanted when that is another, and how the candidates were narrowed. */
  datatype Decision = Decision(
    tier: int, wanted: Option<int>, pick: Candidate, score: real, explored: bool, candidates: nat,
    slowSkipped: nat, prioritized: nat, overflow: bool)

  datatype Answer = NoCandidate | NothingScored | Chosen(decision: Decision)

  /** The pick gives way as it must among all candidates of its level and tier. */
  ghost predicate Yields(v: View, k: int, tier: int, pick: Candidate) {
    && (v.Slow(pick) ==> forall c :: v.Level(k, tier, c) ==> v.Slow(c))
    && (forall c :: v.Level(k, tier, c) && !v.Slow(c) && Priority(v, c) ==>
                      !v.Slow(pick) && Priority(v, pick) && c.account.weight <= pick.account.weight)
  }

  ghost predicate YieldsAmong(v: View, cands: seq<Candidate>, pick: Candidate) {
    && (v.Slow(pick) ==> forall c :: c in cands ==> v.Slow(c))
    && (forall c :: c in cands && !v.Slow(c) && Priority(v, c) ==>
                      !v.Slow(pick) && Priority(v, pick) && c.account.weight <= pick.account.weight)
  }

  /** Slow candidates yield to the others, and those to the free accounts of the highest weight. */
  method Narrow(v: View, cands: seq<Candidate>) returns (kept: seq<Candidate>, slowSkipped: nat, prioritized: nat)
    requires cands != []
    ensures kept != [] && forall c :: c in kept <==> c in cands && YieldsAmong(v, cands, c)
  {
    kept, slowSkipped, prioritized := cands, 0, 0;
    var fast := WithoutSlow(v, cands);
    if fast != [] {
      assert fast[0] in cands && !v.Slow(fast[0]);
      slowSkipped := |cands| - |fast|;
      kept := fast;
      var top := OnlyPriority(v, fast);
      if top != [] {
        assert top[0] in fast && Priority(v, top[0]);
        prioritized, kept := |top|, top;
      }
    } else {
      forall c | c in cands
        ensures v.Slow(c)
      {
        assert c !in fast;
      }
    }
  }

  /** The last 200 of what was decided. */
  function Recent<T>(history: seq<T>): seq<T> {
    if |history| <= 200 then history else history[|history| - 200..]
  }

  class Router {
    var stats: map<string, Stats>
    var decisions: seq<Decision>
    ghost var history: seq<Decision>

    ghost predicate Valid()
      reads this
    {
      decisions == Recent(history)
    }

    constructor ()
      ensures Valid() && history == [] && stats == map[]
    {
      stats, decisions, history := map[], [], [];
    }

    method Push(d: Decision)
      requires Valid()
      modifies this`decisions, this`history
      ensures Valid() && history == old(history) + [d]
    {
      if |decisions| >= 200 {
        decisions := decisions[1..];
      }
      decisions := decisions + [d];
      history := history + [d];
    }

    /**
     Picks an account and a model, or says that nothing in the pool matches any tier. The ghost results are
     the level of the search that was reached, and the candidates left to draw from.
     */
    method Resolve(v: View, draws: Draws) returns (answer: Answer, ghost k: int, ghost kept: seq<Candidate>)
      requires Valid() && v.stats == stats && draws.Fair()
      modifies this`decisions, this`history
      ensures Valid()
      ensures history == if answer.Chosen? then old(history) + [answer.decision] else old(history)
      ensures answer.NoCandidate? <==> Nowhere(v, 3)
      ensures UnitWeights(v.cfg) ==> !answer.NothingScored?
      ensures answer.NothingScored? ==> exists r :: kept != [] && Drawn(v, kept, draws, r) && r.pick.None?
      ensures answer.Chosen? ==> Decided(v, draws, answer.decision, k, kept)
    {
      var tier := WantedTier(v.cfg, v.sig);
      var found, truncated;
      found, truncated, k := Search(v, tier);
      if found.cands == [] {
        return NoCandidate, k, [];
      }
      FoundIsSomewhere(v, k, found);
      var narrowed, slowSkipped, prioritized := Narrow(v, found.cands);
      kept := narrowed;
      var choice := Draw(v, narrowed, draws);
      if UnitWeights(v.cfg) {
        SomebodyIsDrawn(v, narrowed, draws, choice);
      }
      if choice.pick.None? {
        return NothingScored, k, kept;
      }
      forall c
        ensures c in kept <==> v.Level(k, found.tier, c) && Yields(v, k, found.tier, c)
      {
        YieldsAlike(v, k, found, c);
      }
      var d := Decision(found.tier, if found.tier != tier then Some(tier) else None, choice.pick.value, choice.score, choice.explored,
                        |narrowed|, slowSkipped, prioritized, truncated);
      assert Drawn(v, kept, draws, Choice(Some(d.pick), d.score, d.explored));
      Push(d);
      answer := Chosen(d);
    }
  }

  lemma YieldsAlike(v: View, k: int, found: Aside, pick: Candidate)
    requires AllOf(v, k, found.tier, found.cands)
    ensures YieldsAmong(v, found.cands, pick) <==> Yields(v, k, found.tier, pick)
  {
  }

  /**
   A decision as it has to be: drawn from exactly those candidates of the best level in the nearest tier that
   do not have to give way to others.
   */
  ghost predicate Decided(v: View, draws: Draws, d: Decision, k: int, kept: seq<Candidate>) {
    && BestAt(v, k, d.tier)
    && d.wanted == (if d.tier != EffectiveTier(v.cfg, v.sig) then Some(EffectiveTier(v.cfg, v.sig)) else None)
    && (forall c :: c in kept <==> v.Level(k, d.tier, c) && Yields(v, k, d.tier, c))
    && kept != [] && d.candidates == |kept|
    && Drawn(v, kept, draws, Choice(Some(d.pick), d.score, d.explored))
  }

  /** What a decision comes to: its pick is one of the candidates kept. */
  lemma PickIsKept(v: View, draws: Draws, d: Decision, k: int, kept: seq<Candidate>)
    requires Decided(v, draws, d, k, kept)
    ensures v.Level(k, d.tier, d.pick) && Yields(v, k, d.tier, d.pick)
    ensures UnitWeights(v.cfg) ==> 0.0 <= d.score <= 1.0
  {
    var r := Choice(Some(d.pick), d.score, d.explored);
    var i: nat :| i < |kept| && ScoredAt(v, kept, draws, r, i) && (!r.explored ==> Wins(v, kept, draws, i));
    assert kept[i] in kept;
    if UnitWeights(v.cfg) {
      SomebodyIsDrawn(v, kept, draws, r);
    }
  }

  /** What being chosen comes to: never sidelined, blacklisted or already tried, and fit to be called. */
  lemma ChosenIsRoutable(v: View, k: int, tier: int, c: Candidate)
    requires v.Level(k, tier, c)
    ensures c.account in v.accounts && c.model in v.models(c.account.id) && v.inTier(tier, c.account, c.model)
    ensures !v.Quarantined(c.account.id, c.model) && !v.blacklisted(c.account, c.model)
    ensures v.statKey(c.account.id, c.model) !in v.skip
    ensures v.For(c.model).Ready(c.account)
  {
    EntryHasId(v.accounts, c.account.id);
  }

  /** Without images: the nearest tier that has a candidate holding the context, else the nearest that has any. */
  lemma NearestFittingTier(v: View, k: int, tier: int, c: Candidate)
    requires !v.LooksAtImages() && BestAt(v, k, tier) && v.Level(k, tier, c)
    ensures if exists t :: 0 <= t <= 2 && v.Has(1, t) then v.Fits(c) && v.Nearest(1, tier) else v.Nearest(3, tier)
  {
    NoImages(v);
    assert v.Has(k, tier);
    assert k == 1 || k == 3;
    if k == 3 {
      assert Nowhere(v, 1);
    }
  }

  /** With images, a tier that sees them and holds the context is never passed over for one that does not. */
  lemma ImagesAreSeen(v: View, k: int, tier: int, c: Candidate, other: Candidate, t: int)
    requires v.LooksAtImages() && BestAt(v, k, tier) && v.Level(k, tier, c)
    requires 0 <= t <= 2 && v.Offered(t, other) && v.Sees(other) && v.Fits(other)
    ensures v.Sees(c) && v.Fits(c) && !Before(EffectiveTier(v.cfg, v.sig), t, tier)
  {
    assert v.Level(0, t, other);
    assert v.Has(0, t);
    assert !Nowhere(v, 0);
  }
}
