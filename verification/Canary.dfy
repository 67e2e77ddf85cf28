/** Gradual rollout of one slot to a new provider (internal/resilience/canary.go). */
module Canary {

  datatype Phase = Cold | Warming | Active

  /** The error-rate bound is a real; the source divides two integers as floats. */
  datatype Config = Config(
    enabled: bool, warmupPercent: int, promoteAfter: int, promoteAfterActive: int, rollbackErrorRate: real)

  datatype State = State(phase: Phase, consecutiveSuccesses: int, recentRequests: int, recentErrors: int)

  const NEW_STATE := State(Cold, 0, 0, 0)

  predicate ErrorsOver(errors: int, requests: int, rate: real) {
    errors as real > rate * requests as real
  }

  /** One outcome folded into the state machine. */
  function Fold(cfg: Config, s: State, success: bool): State {
    var cs := if success then s.consecutiveSuccesses + 1 else 0;
    var requests, errors := s.recentRequests + 1, s.recentErrors + (if success then 0 else 1);
    if s.phase.Cold? && cs >= cfg.promoteAfter then State(Warming, cs, 0, 0)
    else if s.phase.Warming? && cs >= cfg.promoteAfterActive then State(Active, cs, requests, errors)
    else if s.phase.Warming? && requests >= 5 && ErrorsOver(errors, requests, cfg.rollbackErrorRate) then NEW_STATE
    else State(s.phase, cs, requests, errors)
  }

  /** The state of a slot after a run of outcomes under one configuration. */
  function Run(cfg: Config, outcomes: seq<bool>): State {
    if outcomes == [] then NEW_STATE
    else Fold(cfg, Run(cfg, outcomes[..|outcomes| - 1]), outcomes[|outcomes| - 1])
  }

  function PhaseAt(cfg: Config, outcomes: seq<bool>, i: nat): Phase
    requires i <= |outcomes|
  {
    Run(cfg, outcomes[..i]).phase
  }

  /** The number of outcomes up to the last one that changed the phase in one of the given ways:
      a rollback (WARMING to COLD), or also a promotion out of COLD. */
  function LastReset(cfg: Config, outcomes: seq<bool>, promotions: bool): (i: nat)
    ensures i <= |outcomes|
  {
    if outcomes == [] then 0
    else
      var n := |outcomes|;
      var before, after := Run(cfg, outcomes[..n - 1]).phase, Run(cfg, outcomes).phase;
      if (before.Warming? && after.Cold?) || (promotions && before.Cold? && after.Warming?) then n
      else LastReset(cfg, outcomes[..n - 1], promotions)
  }

  /** Length of the all-success suffix. */
  function SuccessSuffix(outcomes: seq<bool>): nat {
    if outcomes == [] || !outcomes[|outcomes| - 1] then 0 else 1 + SuccessSuffix(outcomes[..|outcomes| - 1])
  }

  function Errors(outcomes: seq<bool>): nat {
    if outcomes == [] then 0
    else Errors(outcomes[..|outcomes| - 1]) + if outcomes[|outcomes| - 1] then 0 else 1
  }

  /** Both counts over a suffix grow with the last outcome. */
  lemma SuffixStep(outcomes: seq<bool>, from: nat)
    requires from < |outcomes|
    ensures var init, last := outcomes[..|outcomes| - 1], outcomes[|outcomes| - 1];
            && SuccessSuffix(outcomes[from..]) == (if last then 1 + SuccessSuffix(init[from..]) else 0)
            && Errors(outcomes[from..]) == Errors(init[from..]) + (if last then 0 else 1)
  {
    assert outcomes[from..][..|outcomes| - from - 1] == outcomes[..|outcomes| - 1][from..];
  }

  /** Closed form of the counters: the success streak runs since creation or the last rollback, the two
      recent counters run since creation, the last rollback or the last promotion to WARMING. */
  lemma {:induction false} CountersClosedForm(cfg: Config, outcomes: seq<bool>)
    ensures var s := Run(cfg, outcomes);
            var streakStart, recentStart := LastReset(cfg, outcomes, false), LastReset(cfg, outcomes, true);
            && s.consecutiveSuccesses == SuccessSuffix(outcomes[streakStart..])
            && s.recentRequests == |outcomes| - recentStart
            && s.recentErrors == Errors(outcomes[recentStart..])
  {
    var n := |outcomes|;
    if n > 0 {
      var init := outcomes[..n - 1];
      CountersClosedForm(cfg, init);
      SuffixStep(outcomes, LastReset(cfg, init, false));
      SuffixStep(outcomes, LastReset(cfg, init, true));
      CountersStep(cfg, outcomes);
    }
  }

  lemma CountersStep(cfg: Config, outcomes: seq<bool>)
    requires outcomes != []
    ensures var n := |outcomes|;
            var init, last := outcomes[..n - 1], outcomes[n - 1];
            var s, s' := Run(cfg, init), Run(cfg, outcomes);
            && (LastReset(cfg, outcomes, false) == n ==> s'.consecutiveSuccesses == 0)
            && (LastReset(cfg, outcomes, false) < n ==>
                  && LastReset(cfg, outcomes, false) == LastReset(cfg, init, false)
                  && s'.consecutiveSuccesses == (if last then s.consecutiveSuccesses + 1 else 0))
            && (LastReset(cfg, outcomes, true) == n ==> s'.recentRequests == s'.recentErrors == 0)
            && (LastReset(cfg, outcomes, true) < n ==>
                  && LastReset(cfg, outcomes, true) == LastReset(cfg, init, true)
                  && s'.recentRequests == s.recentRequests + 1
                  && s'.recentErrors == s.recentErrors + (if last then 0 else 1))
  {}

  /** The only phase changes are COLD to WARMING, WARMING to ACTIVE and WARMING to COLD, each on its
      own condition; ACTIVE is never left. */
  lemma PhaseSteps(cfg: Config, outcomes: seq<bool>, success: bool)
    requires cfg.promoteAfter >= 1 && cfg.promoteAfterActive >= 1
    ensures var before, after := Run(cfg, outcomes), Run(cfg, outcomes + [success]);
            var all := outcomes + [success];
            var streak := SuccessSuffix(all[LastReset(cfg, outcomes, false)..]);
            var stay := all[LastReset(cfg, outcomes, true)..];
            && (before.phase.Active? ==> after.phase.Active?)
            && (before.phase.Cold? ==> (after.phase.Warming? <==> streak >= cfg.promoteAfter) && !after.phase.Active?)
            && (before.phase.Warming? ==>
                  && (after.phase.Active? <==> streak >= cfg.promoteAfterActive)
                  && (after.phase.Cold? <==>
                        streak < cfg.promoteAfterActive && |stay| >= 5 &&
                        ErrorsOver(Errors(stay), |stay|, cfg.rollbackErrorRate)))
            && (after.phase != before.phase && !after.phase.Cold? ==> success)
  {
    hide SuccessSuffix, Errors, LastReset, ErrorsOver;
    var all := outcomes + [success];
    assert all[..|outcomes|] == outcomes;
    CountersClosedForm(cfg, outcomes);
    SuffixStep(all, LastReset(cfg, outcomes, false));
    SuffixStep(all, LastReset(cfg, outcomes, true));
  }

  /** A slot in WARMING is rolled back exactly when the streak is short of ACTIVE, five outcomes of the stay are
      in, and the share of errors among them is above the bound. */
  lemma RolledBackIff(cfg: Config, outcomes: seq<bool>, success: bool)
    requires cfg.promoteAfter >= 1 && cfg.promoteAfterActive >= 1 && Run(cfg, outcomes).phase.Warming?
    ensures var all := outcomes + [success];
            var stay := all[LastReset(cfg, outcomes, true)..];
            Run(cfg, all).phase.Cold? <==>
            SuccessSuffix(all[LastReset(cfg, outcomes, false)..]) < cfg.promoteAfterActive && |stay| >= 5 &&
            Errors(stay) as real / |stay| as real > cfg.rollbackErrorRate
  {
    hide SuccessSuffix, Errors, LastReset, Run;
    var stay := (outcomes + [success])[LastReset(cfg, outcomes, true)..];
    PhaseSteps(cfg, outcomes, success);
    if |stay| >= 5 {
      ShareOver(Errors(stay), |stay|, cfg.rollbackErrorRate);
    }
  }

  lemma ShareOver(errors: int, requests: int, rate: real)
    requires requests > 0
    ensures ErrorsOver(errors, requests, rate) <==> errors as real / requests as real > rate
  {
    var e, r := errors as real, requests as real;
    var share := e / r;
    assert share * r == e;
    if share > rate {
      assert share * r > rate * r;
    } else {
      assert share * r <= rate * r;
    }
  }

  /** ACTIVE is absorbing over whole runs. */
  lemma {:induction false} ActiveForever(cfg: Config, outcomes: seq<bool>, more: seq<bool>)
    requires Run(cfg, outcomes).phase.Active?
    ensures Run(cfg, outcomes + more).phase.Active?
    decreases |more|
  {
    if more == [] {
      assert outcomes + more == outcomes;
    } else {
      var n := |more| - 1;
      ActiveForever(cfg, outcomes, more[..n]);
      assert (outcomes + more)[..|outcomes| + n] == outcomes + more[..n];
    }
  }

  /** Between outcomes, a slot that is still WARMING has fewer than five recent requests or an error rate
      within the bound. */
  lemma WarmingWithinBound(cfg: Config, outcomes: seq<bool>)
    requires Run(cfg, outcomes).phase.Warming?
    ensures var s := Run(cfg, outcomes);
            s.recentRequests < 5 || s.recentErrors as real <= cfg.rollbackErrorRate * s.recentRequests as real
  {
    assert outcomes != [];
  }

  /** A slot is ACTIVE only if, at some earlier point, enough successes in a row had just come in
      since the last rollback. */
  lemma {:induction false} ActiveWasEarned(cfg: Config, outcomes: seq<bool>)
    requires cfg.promoteAfter >= 1 && cfg.promoteAfterActive >= 1
    requires Run(cfg, outcomes).phase.Active?
    ensures exists i :: 0 <= i <= |outcomes| &&
                        SuccessSuffix(outcomes[..i]) >= cfg.promoteAfterActive && PhaseAt(cfg, outcomes, i).Active?
  {
    var n := |outcomes| - 1;
    var init := outcomes[..n];
    assert outcomes[..|outcomes|] == outcomes == init + [outcomes[n]];
    if Run(cfg, init).phase.Active? {
      ActiveWasEarned(cfg, init);
      var i :| 0 <= i <= |init| && SuccessSuffix(init[..i]) >= cfg.promoteAfterActive && PhaseAt(cfg, init, i).Active?;
      assert init[..i] == outcomes[..i];
      assert PhaseAt(cfg, outcomes, i).Active?;
    } else {
      PhaseSteps(cfg, init, outcomes[n]);
      SuffixOfSuffix(outcomes, LastReset(cfg, init, false));
      assert PhaseAt(cfg, outcomes, |outcomes|).Active?;
    }
  }

  lemma {:induction false} SuffixOfSuffix(outcomes: seq<bool>, from: nat)
    requires from <= |outcomes|
    ensures SuccessSuffix(outcomes[from..]) <= SuccessSuffix(outcomes)
  {
    if from < |outcomes| {
      SuffixStep(outcomes, from);
      SuffixOfSuffix(outcomes[..|outcomes| - 1], from);
    }
  }

  // ---- successes from before WARMING count towards ACTIVE ----

  lemma {:induction false} AllSuccesses(outcomes: seq<bool>)
    requires Errors(outcomes) == 0
    ensures SuccessSuffix(outcomes) == |outcomes|
  {
    if outcomes != [] {
      AllSuccesses(outcomes[..|outcomes| - 1]);
    }
  }

  lemma {:induction false} ColdStreakBelow(cfg: Config, outcomes: seq<bool>)
    requires cfg.promoteAfter >= 1 && Run(cfg, outcomes).phase.Cold?
    ensures Run(cfg, outcomes).consecutiveSuccesses < cfg.promoteAfter
  {
    if outcomes != [] && Run(cfg, outcomes[..|outcomes| - 1]).phase.Cold? {
      ColdStreakBelow(cfg, outcomes[..|outcomes| - 1]);
    }
  }

  /** The outcomes since the slot entered its phase, for a slot in WARMING. */
  function Stay(cfg: Config, outcomes: seq<bool>): seq<bool> {
    outcomes[LastReset(cfg, outcomes, true)..]
  }

  /** In a stay without errors the streak goes on from the promotion out of COLD. */
  lemma {:induction false} WarmingStreak(cfg: Config, outcomes: seq<bool>)
    requires cfg.promoteAfter >= 1 && Run(cfg, outcomes).phase.Warming?
    ensures var s, stay := Run(cfg, outcomes), Stay(cfg, outcomes);
            && s.consecutiveSuccesses == (if Errors(stay) == 0 then cfg.promoteAfter + |stay| else SuccessSuffix(stay))
            && (stay != [] ==> s.consecutiveSuccesses < cfg.promoteAfterActive)
  {
    var n := |outcomes|;
    var init := outcomes[..n - 1];
    if Run(cfg, init).phase.Warming? {
      WarmingStreak(cfg, init);
      SuffixStep(outcomes, LastReset(cfg, init, true));
      if Errors(Stay(cfg, init)) == 0 {
        AllSuccesses(Stay(cfg, init));
      }
    } else {
      ColdStreakBelow(cfg, init);
      assert Stay(cfg, outcomes) == [];
    }
  }

  /** The successes in WARMING alone earn the promotion to ACTIVE exactly when the stay had an error, or when a
      single success is enough; otherwise successes from before WARMING made up the number. */
  lemma EarnedInWarmingIff(cfg: Config, outcomes: seq<bool>)
    requires cfg.promoteAfter >= 1 && cfg.promoteAfterActive >= 1
    requires Run(cfg, outcomes).phase.Warming? && Run(cfg, outcomes + [true]).phase.Active?
    ensures var stay := Stay(cfg, outcomes) + [true];
            SuccessSuffix(stay) >= cfg.promoteAfterActive <==> Errors(stay) > 0 || cfg.promoteAfterActive == 1
  {
    var stay, all := Stay(cfg, outcomes), outcomes + [true];
    assert all[..|outcomes|] == outcomes;
    assert (stay + [true])[..|stay|] == stay;
    WarmingStreak(cfg, outcomes);
    if Errors(stay) == 0 {
      AllSuccesses(stay);
    }
  }

  /** Two successes lead to WARMING and a single one from there to ACTIVE, which asks for three. */
  lemma EarlyPromotion()
    ensures var cfg := Config(true, 10, 2, 3, 1.0);
            && Run(cfg, [true, true]).phase.Warming? && Run(cfg, [true, true, true]).phase.Active?
            && SuccessSuffix(Stay(cfg, [true, true]) + [true]) < cfg.promoteAfterActive
  {
    var cfg := Config(true, 10, 2, 3, 1.0);
    var one, two, three := [true], [true, true], [true, true, true];
    assert one[..0] == [] && two[..1] == one && three[..2] == two;
    assert Run(cfg, one) == State(Cold, 1, 1, 0);
    assert Run(cfg, two) == State(Warming, 2, 0, 0);
    assert Stay(cfg, two) == [] && [] + one == one;
    assert SuccessSuffix(one) == 1 + SuccessSuffix(one[..0]);
  }

  // ---- the 32-bit body hash ----

  const TWO_32 := 0x1_0000_0000
  const TWO_31 := 0x8000_0000

  /** Two's-complement reduction to int32. */
  function Signed(x: int): (r: int)
    ensures -0x8000_0000 <= r < 0x8000_0000
    ensures (r - x) % 0x1_0000_0000 == 0
  {
    var m := x % TWO_32;
    if m < TWO_31 then m else m - TWO_32
  }

  /** The base-31 polynomial of the bytes, on unbounded integers. */
  function Poly(s: string): nat {
    if s == "" then 0 else 31 * Poly(s[..|s| - 1]) + s[|s| - 1] as int
  }

  function Pow31(n: nat): nat {
    if n == 0 then 1 else 31 * Pow31(n - 1)
  }

  lemma SignedCongruent(x: int, y: int)
    requires (x - y) % TWO_32 == 0
    ensures Signed(x) == Signed(y)
  {
    assert x % TWO_32 == y % TWO_32;
  }

  /** One loop step in wrapped arithmetic is one polynomial step. */
  lemma HashStep(p: int, c: int)
    ensures Signed(Signed(Signed(32 * Signed(p)) - Signed(p)) + c) == Signed(31 * p + c)
  {
    hide Signed;
    var h := Signed(p);
    var a := Signed(32 * h);
    var b := Signed(a - h);
    ThreeMultiples(b - (a - h), a - 32 * h, h - p);
    assert b + c - (31 * p + c) == (b - (a - h)) + (a - 32 * h) + 31 * (h - p);
    SignedCongruent(b + c, 31 * p + c);
  }

  lemma ThreeMultiples(x: int, y: int, z: int)
    requires x % 0x1_0000_0000 == 0 && y % 0x1_0000_0000 == 0 && z % 0x1_0000_0000 == 0
    ensures (x + y + 31 * z) % 0x1_0000_0000 == 0
  {
    var i, j, k := x / 0x1_0000_0000, y / 0x1_0000_0000, z / 0x1_0000_0000;
    assert x == 0x1_0000_0000 * i && y == 0x1_0000_0000 * j && z == 0x1_0000_0000 * k;
    assert x + y + 31 * z == 0x1_0000_0000 * (i + j + 31 * k);
    MultipleOf(i + j + 31 * k);
  }

  /** Negating an int32 and reading it as a uint32, for the smallest int32 too. */
  lemma Negated(hash: int)
    requires -TWO_31 <= hash < 0
    ensures Signed(-hash) % TWO_32 == -hash
  {
  }

  lemma NoBytes()
    ensures Poly("") == 0 && Signed(0) == 0
  {
  }

  lemma PolySnoc(s: string, i: nat)
    requires i < |s|
    ensures Poly(s[..i + 1]) == 31 * Poly(s[..i]) + s[i] as int
  {
    assert s[..i + 1][..i] == s[..i];
  }

  /** bodyHash: int32 shift, subtract and add, then the absolute value as uint32. */
  method BodyHash(input: string) returns (h: int)
    requires forall c :: c in input ==> c as int < 256
    ensures h == Bucket(input)
  {
    hide Signed, Poly;
    var hash := 0;
    NoBytes();
    for i := 0 to |input|
      invariant hash == Signed(Poly(input[..i]))
    {
      HashStep(Poly(input[..i]), input[i] as int);
      PolySnoc(input, i);
      hash := Signed(Signed(Signed(hash * 32) - hash) + input[i] as int);
    }
    assert input[..|input|] == input;
    if hash < 0 {
      Negated(hash);
      return Signed(-hash) % TWO_32;
    }
    return hash;
  }

  /** The absolute value of the polynomial reduced to int32; 2^31 for the smallest int32. */
  function Bucket(s: string): (h: int)
    ensures 0 <= h <= 0x8000_0000
  {
    var v := Signed(Poly(s));
    if v < 0 then -v else v
  }

  lemma {:induction false} PolyConcat(s: string, t: string)
    ensures Poly(s + t) == Poly(s) * Pow31(|t|) + Poly(t)
    decreases |t|
  {
    if t == "" {
      assert s + t == s;
    } else {
      var n := |t| - 1;
      assert (s + t)[..|s| + n] == s + t[..n];
      PolyConcat(s, t[..n]);
      assert Poly(s) * Pow31(|t|) == 31 * (Poly(s) * Pow31(n));
    }
  }

  lemma ScaleCongruent(a: int, x: int, p: int)
    requires (a - x) % TWO_32 == 0
    ensures (a * p - x * p) % TWO_32 == 0
  {
    var k := (a - x) / TWO_32;
    assert a - x == TWO_32 * k;
    assert a * p - x * p == (a - x) * p == TWO_32 * (k * p);
    MultipleOf(k * p);
  }

  lemma MultipleOf(k: int)
    ensures (TWO_32 * k) % TWO_32 == 0
  {}

  lemma SumCongruent(a: int, x: int, b: int, y: int)
    requires (a - x) % TWO_32 == 0 && (b - y) % TWO_32 == 0
    ensures (a + b - (x + y)) % TWO_32 == 0
  {}

  lemma SignedCombine(x: int, p: int, y: int)
    ensures Signed(x * p + y) == Signed(Signed(x) * p + Signed(y))
  {
    var h, g := Signed(x), Signed(y);
    ScaleCongruent(h, x, p);
    SumCongruent(h * p, x * p, g, y);
    SignedCongruent(h * p + g, x * p + y);
  }

  /** The hash of a concatenation is determined by the hashes of its parts. */
  lemma HashConcat(s: string, t: string)
    ensures Signed(Poly(s + t)) == Signed(Signed(Poly(s)) * Pow31(|t|) + Signed(Poly(t)))
  {
    PolyConcat(s, t);
    SignedCombine(Poly(s), Pow31(|t|), Poly(t));
  }

  // ---- routing decisions ----

  function Use(s: State, cfg: Config, slot: string, body: string): bool {
    match s.phase
    case Cold => false
    case Active => true
    case Warming =>
      cfg.warmupPercent > 0 &&
      (cfg.warmupPercent >= 100 || Bucket(slot + ":" + body) % 100 < cfg.warmupPercent)
  }

  /** While WARMING, raising the percentage never takes a body off the canary. */
  lemma RaisingKeepsUsers(s: State, low: Config, high: Config, slot: string, body: string)
    requires low.warmupPercent <= high.warmupPercent && Use(s, low, slot, body)
    ensures Use(s, high, slot, body)
  {}

  /** In WARMING the canary takes exactly the bodies whose bucket is below the percentage: all from 100 on, none
      at 0 and below. */
  lemma WarmingShare(s: State, cfg: Config, slot: string, body: string)
    requires s.phase.Warming?
    ensures Use(s, cfg, slot, body) <==> Bucket(slot + ":" + body) % 100 < cfg.warmupPercent
  {
  }

  /** Leaving COLD took enough successes in a row. */
  lemma {:induction false} LeftColdEarned(cfg: Config, outcomes: seq<bool>)
    requires cfg.promoteAfter >= 1 && cfg.promoteAfterActive >= 1 && !Run(cfg, outcomes).phase.Cold?
    ensures exists i :: 0 <= i <= |outcomes| && SuccessSuffix(outcomes[..i]) >= cfg.promoteAfter
  {
    var n := |outcomes| - 1;
    var init := outcomes[..n];
    assert outcomes == init + [outcomes[n]] && outcomes[..|outcomes|] == outcomes;
    if !Run(cfg, init).phase.Cold? {
      LeftColdEarned(cfg, init);
      var i :| 0 <= i <= |init| && SuccessSuffix(init[..i]) >= cfg.promoteAfter;
      assert init[..i] == outcomes[..i];
    } else {
      PhaseSteps(cfg, init, outcomes[n]);
      SuffixOfSuffix(outcomes, LastReset(cfg, init, false));
      assert SuccessSuffix(outcomes[..|outcomes|]) >= cfg.promoteAfter;
    }
  }

  /** The canary is used only after enough successes in a row, and once ACTIVE for every body, whatever comes. */
  lemma UsedWhenEarned(cfg: Config, outcomes: seq<bool>, more: seq<bool>, slot: string, body: string)
    requires cfg.promoteAfter >= 1 && cfg.promoteAfterActive >= 1
    ensures Use(Run(cfg, outcomes), cfg, slot, body) ==>
              exists i :: 0 <= i <= |outcomes| && SuccessSuffix(outcomes[..i]) >= cfg.promoteAfter
    ensures Run(cfg, outcomes).phase.Active? ==> Use(Run(cfg, outcomes + more), cfg, slot, body)
  {
    if Use(Run(cfg, outcomes), cfg, slot, body) {
      LeftColdEarned(cfg, outcomes);
    }
    if Run(cfg, outcomes).phase.Active? {
      ActiveForever(cfg, outcomes, more);
    }
  }

  // ---- the object ----

  datatype Call =
    | UseCall(slot: string, cfg: Config)
    | ResultCall(slot: string, success: bool, cfg: Config)

  /** The entries after a run of calls: an enabled call creates its slot, a result folds in. */
  function Entries(log: seq<Call>): map<string, State> {
    if log == [] then map[]
    else
      var init, c := Entries(log[..|log| - 1]), log[|log| - 1];
      if !c.cfg.enabled then init
      else
        var s := if c.slot in init then init[c.slot] else NEW_STATE;
        init[c.slot := match c case UseCall(_, _) => s case ResultCall(_, success, cfg) => Fold(cfg, s, success)]
  }

  function Outcomes(log: seq<Call>, slot: string): seq<bool> {
    if log == [] then []
    else
      var c := log[|log| - 1];
      Outcomes(log[..|log| - 1], slot) + (if c.ResultCall? && c.slot == slot then [c.success] else [])
  }

  /** Under one enabled configuration each slot runs on its own outcomes alone. */
  lemma {:induction false} SlotsAreIndependent(log: seq<Call>, slot: string, cfg: Config)
    requires cfg.enabled && forall c :: c in log && c.slot == slot ==> c.cfg == cfg
    ensures slot in Entries(log) ==> Entries(log)[slot] == Run(cfg, Outcomes(log, slot))
    ensures slot !in Entries(log) ==> Outcomes(log, slot) == []
  {
    if log != [] {
      var n := |log| - 1;
      SlotsAreIndependent(log[..n], slot, cfg);
      assert log[n] in log;
      var os := Outcomes(log[..n], slot);
      if log[n].ResultCall? && log[n].slot == slot {
        assert (os + [log[n].success])[..|os|] == os;
      } else {
        assert os + [] == os;
      }
    }
  }

  class Canary {
    var entries: map<string, State>
    ghost var log: seq<Call>

    ghost predicate Valid()
      reads this
    {
      entries == Entries(log)
    }

    constructor ()
      ensures Valid() && log == []
    {
      entries, log := map[], [];
    }

    /** Whether to route to the canary, and whether the outcome will be tracked. */
    method ShouldUse(slot: string, body: string, cfg: Config) returns (use: bool, tracking: bool)
      requires Valid() && forall c :: c in slot + ":" + body ==> c as int < 256
      modifies this
      ensures Valid() && log == old(log) + [UseCall(slot, cfg)]
      ensures tracking == cfg.enabled
      ensures use == (cfg.enabled && slot in entries && Use(entries[slot], cfg, slot, body))
    {
      assert (log + [UseCall(slot, cfg)])[..|log|] == log;
      log := log + [UseCall(slot, cfg)];
      if !cfg.enabled {
        return false, false;
      }
      if slot !in entries {
        entries := entries[slot := NEW_STATE];
      }
      var s := entries[slot];
      if s.phase.Cold? {
        return false, true;
      }
      if s.phase.Active? {
        return true, true;
      }
      if cfg.warmupPercent <= 0 {
        return false, true;
      }
      if cfg.warmupPercent >= 100 {
        return true, true;
      }
      var h := BodyHash(slot + ":" + body);
      return h % 100 < cfg.warmupPercent, true;
    }

    method RecordResult(slot: string, success: bool, cfg: Config)
      requires Valid()
      modifies this
      ensures Valid() && log == old(log) + [ResultCall(slot, success, cfg)]
    {
      assert (log + [ResultCall(slot, success, cfg)])[..|log|] == log;
      log := log + [ResultCall(slot, success, cfg)];
      if !cfg.enabled {
        return;
      }
      if slot !in entries {
        entries := entries[slot := NEW_STATE];
      }
      var s := entries[slot];
      s := s.(recentRequests := s.recentRequests + 1);
      if success {
        s := s.(consecutiveSuccesses := s.consecutiveSuccesses + 1);
      } else {
        s := s.(recentErrors := s.recentErrors + 1);
        s := s.(consecutiveSuccesses := 0);
      }
      if s.phase.Cold? && s.consecutiveSuccesses >= cfg.promoteAfter {
        s := s.(phase := Warming, recentRequests := 0, recentErrors := 0);
        entries := entries[slot := s];
        return;
      }
      if s.phase.Warming? {
        if s.consecutiveSuccesses >= cfg.promoteAfterActive {
          s := s.(phase := Active);
        } else if s.recentRequests >= 5 && ErrorsOver(s.recentErrors, s.recentRequests, cfg.rollbackErrorRate) {
          s := s.(phase := Cold, consecutiveSuccesses := 0, recentRequests := 0, recentErrors := 0);
        }
      }
      entries := entries[slot := s];
    }
  }
}
