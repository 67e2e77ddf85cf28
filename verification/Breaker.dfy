/** Per-provider circuit breakers and request statistics (internal/resilience/breaker.go).
    Times and durations are nanoseconds, as in Go. */
module Breaker {

  import opened Text

  const SECOND := 1_000_000_000
  const DEFAULT_COOLDOWN := 60 * SECOND
  const MAX_COOLDOWN := 300 * SECOND
  const MAX_PROBES := 5
  const MIN_REQUESTS_TO_JUDGE := 5

  datatype BreakerState = Closed | Open | HalfOpen

  datatype Entry = Entry(
    state: BreakerState, openedAt: int, cooldown: int, probeCount: int, consecutiveProbeFailures: int)

  datatype Stat = Stat(
    requests: int, successes: int, fails: int, totalMs: int, lastRequest: Option<int>,
    inputTokens: int, outputTokens: int, spendUSD: real)

  const NO_STAT := Stat(0, 0, 0, 0, None, 0, 0, 0.0)

  datatype State = State(entries: map<string, Entry>, stats: map<string, Stat>)

  const EMPTY := State(map[], map[])

  /** One call on the breakers, with the clock readings it takes in order. */
  datatype Call =
    | StatCall(key: string, success: bool, ms: int, status: int, now: int, later: int)
    | UsageCall(key: string, input: int, output: int)
    | CostCall(key: string, cost: real)
    | ProbeCall(key: string, now: int, later: int)
    | ResultCall(key: string, success: bool, now: int)

  function StatOf(s: State, key: string): Stat {
    if key in s.stats then s.stats[key] else NO_STAT
  }

  /** failureRateThreshold is 0.34; the comparison is cross-multiplied. */
  predicate TooManyFails(s: Stat) {
    s.requests >= MIN_REQUESTS_TO_JUDGE && 50 * s.fails >= 17 * s.requests
  }

  predicate Failure(c: Call) {
    c.StatCall? && !c.success && c.status != 429
  }

  function Counted(s: Stat, c: Call): Stat
    requires c.StatCall?
  {
    s.(requests := s.requests + 1, totalMs := s.totalMs + c.ms, lastRequest := Some(c.now),
       successes := s.successes + (if c.success then 1 else 0),
       fails := s.fails + (if Failure(c) then 1 else 0))
  }

  /** A probe may start once the entry has been open for its cooldown. */
  predicate ProbeDue(s: State, key: string, now: int) {
    key in s.entries && s.entries[key].state.Open? && now - s.entries[key].openedAt >= s.entries[key].cooldown
  }

  function Min(a: int, b: int): int {
    if a < b then a else b
  }

  function Apply(s: State, c: Call): State {
    match c
    case StatCall(key, success, ms, status, now, later) =>
      if key == "" then s
      else
        var stat := Counted(StatOf(s, key), c);
        State(if Failure(c) && TooManyFails(stat) && key !in s.entries
              then s.entries[key := Entry(Open, later, DEFAULT_COOLDOWN, 0, 0)] else s.entries,
              s.stats[key := stat])
    case UsageCall(key, input, output) =>
      if key == "" then s
      else
        var stat := StatOf(s, key);
        s.(stats := s.stats[key := stat.(inputTokens := stat.inputTokens + input,
                                         outputTokens := stat.outputTokens + output)])
    case CostCall(key, cost) =>
      if key == "" || cost <= 0.0 then s
      else s.(stats := s.stats[key := StatOf(s, key).(spendUSD := StatOf(s, key).spendUSD + cost)])
    case ProbeCall(key, now, later) =>
      if !ProbeDue(s, key, now) then s
      else
        var e := s.entries[key];
        var e' := if e.probeCount >= MAX_PROBES then e.(probeCount := 1, cooldown := DEFAULT_COOLDOWN)
                  else e.(probeCount := e.probeCount + 1);
        s.(entries := s.entries[key := e'.(state := HalfOpen)])
    case ResultCall(key, success, now) =>
      if key !in s.entries || !s.entries[key].state.HalfOpen? then s
      else if success then s.(entries := s.entries - {key})
      else
        var e := s.entries[key];
        s.(entries := s.entries[key := e.(state := Open, openedAt := now,
                                          cooldown := Min(2 * e.cooldown, MAX_COOLDOWN),
                                          consecutiveProbeFailures := e.consecutiveProbeFailures + 1)])
  }

  /** The state after a whole run of calls on new breakers. */
  function Run(calls: seq<Call>): State {
    if calls == [] then EMPTY else Apply(Run(calls[..|calls| - 1]), calls[|calls| - 1])
  }

  lemma RunSnoc(calls: seq<Call>, c: Call)
    ensures Run(calls + [c]) == Apply(Run(calls), c)
  {
    assert (calls + [c])[..|calls|] == calls;
  }

  // ---- the shape of an entry in every reachable state ----

  function Pow2(n: nat): nat {
    if n == 0 then 1 else 2 * Pow2(n - 1)
  }

  /** min(300s, 60s * 2^n) */
  function Cooldown(n: nat): int {
    Min(MAX_COOLDOWN, DEFAULT_COOLDOWN * Pow2(n))
  }

  ghost predicate WellFormed(e: Entry) {
    match e.state
    case Closed => false
    case Open => 0 <= e.probeCount <= MAX_PROBES && e.cooldown == Cooldown(e.probeCount)
    case HalfOpen => 1 <= e.probeCount <= MAX_PROBES && e.cooldown == Cooldown(e.probeCount - 1)
  }

  lemma CooldownValues()
    ensures Cooldown(0) == 60 * SECOND && Cooldown(1) == 120 * SECOND && Cooldown(2) == 240 * SECOND
    ensures Cooldown(3) == Cooldown(4) == Cooldown(5) == MAX_COOLDOWN
  {
    assert Pow2(1) == 2 && Pow2(2) == 4 && Pow2(3) == 8 && Pow2(4) == 16 && Pow2(5) == 32;
  }

  /** Stored entries are never CLOSED, and the cooldown is a function of the probe count alone. */
  lemma {:induction false} EntriesWellFormed(calls: seq<Call>)
    ensures forall k :: k in Run(calls).entries ==> WellFormed(Run(calls).entries[k])
  {
    hide Cooldown, TooManyFails;
    if calls != [] {
      EntriesWellFormed(calls[..|calls| - 1]);
      CooldownValues();
    }
  }

  // ---- statistics are counts over the run ----

  datatype Kind = AnyRequest | Succeeded | Failed | Throttled

  predicate IsKind(c: Call, key: string, kind: Kind) {
    c.StatCall? && c.key == key && key != "" &&
    match kind
    case AnyRequest => true
    case Succeeded => c.success
    case Failed => Failure(c)
    case Throttled => !c.success && c.status == 429
  }

  function Tally(calls: seq<Call>, key: string, kind: Kind): nat {
    if calls == [] then 0
    else Tally(calls[..|calls| - 1], key, kind) + if IsKind(calls[|calls| - 1], key, kind) then 1 else 0
  }

  lemma {:induction false} StatsAreCounts(calls: seq<Call>, key: string)
    ensures var s := StatOf(Run(calls), key);
            && s.requests == Tally(calls, key, AnyRequest)
            && s.successes == Tally(calls, key, Succeeded)
            && s.fails == Tally(calls, key, Failed)
            && s.requests == s.successes + s.fails + Tally(calls, key, Throttled)
  {
    if calls != [] {
      StatsAreCounts(calls[..|calls| - 1], key);
    }
  }

  // ---- health over runs ----

  predicate Healthy(s: State, key: string) {
    key !in s.entries || s.entries[key].state.Closed?
  }

  lemma HealthyMeansAbsent(calls: seq<Call>, key: string)
    ensures Healthy(Run(calls), key) <==> key !in Run(calls).entries
  {
    EntriesWellFormed(calls);
  }

  /** A provider loses its health exactly on a failure other than 429 that leaves at least five requests,
      at least 34% of them failed. */
  lemma LosesHealthIff(calls: seq<Call>, c: Call, key: string)
    requires Healthy(Run(calls), key)
    ensures !Healthy(Run(calls + [c]), key) <==>
            IsKind(c, key, Failed) &&
            Tally(calls + [c], key, AnyRequest) >= 5 &&
            50 * Tally(calls + [c], key, Failed) >= 17 * Tally(calls + [c], key, AnyRequest)
  {
    RunSnoc(calls, c);
    HealthyMeansAbsent(calls, key);
    HealthyMeansAbsent(calls + [c], key);
    StatsAreCounts(calls + [c], key);
  }

  /** An unhealthy provider recovers exactly on a successful probe result while HALF_OPEN. */
  lemma RegainsHealthIff(calls: seq<Call>, c: Call, key: string)
    requires !Healthy(Run(calls), key)
    ensures Healthy(Run(calls + [c]), key) <==>
            c.ResultCall? && c.key == key && c.success && Run(calls).entries[key].state.HalfOpen?
  {
    RunSnoc(calls, c);
    HealthyMeansAbsent(calls + [c], key);
  }

  /** Throttling alone never costs a provider its health. */
  lemma {:induction false} NoFailuresNoOutage(calls: seq<Call>, key: string)
    requires Tally(calls, key, Failed) == 0
    ensures Healthy(Run(calls), key)
  {
    if calls != [] {
      var init, c := calls[..|calls| - 1], calls[|calls| - 1];
      assert calls == init + [c];
      NoFailuresNoOutage(init, key);
      LosesHealthIff(init, c, key);
    }
  }

  // ---- probes ----

  /** Whether the last call of the run is a probe of the provider that was allowed to start. */
  predicate ProbeStarts(calls: seq<Call>, key: string) {
    calls != [] &&
    var c := calls[|calls| - 1];
    c.ProbeCall? && c.key == key && ProbeDue(Run(calls[..|calls| - 1]), key, c.now)
  }

  /** Whether a started probe still waits for its result. */
  predicate Outstanding(calls: seq<Call>, key: string) {
    calls != [] &&
    var init, c := calls[..|calls| - 1], calls[|calls| - 1];
    if ProbeStarts(calls, key) then true
    else if c.ResultCall? && c.key == key then false
    else Outstanding(init, key)
  }

  /** HALF_OPEN is exactly an outstanding probe, and none starts while one is outstanding. */
  lemma {:induction false} AtMostOneProbe(calls: seq<Call>, key: string)
    ensures Outstanding(calls, key) <==> key in Run(calls).entries && Run(calls).entries[key].state.HalfOpen?
    ensures ProbeStarts(calls, key) ==> !Outstanding(calls[..|calls| - 1], key)
  {
    if calls != [] {
      AtMostOneProbe(calls[..|calls| - 1], key);
      EntriesWellFormed(calls[..|calls| - 1]);
    }
  }

  // ---- the probe schedule of one outage ----

  /** The last clock reading of a run. */
  function Clock(calls: seq<Call>): int {
    if calls == [] then 0
    else
      var c := calls[|calls| - 1];
      match c
      case StatCall(_, _, _, _, _, later) => later
      case ProbeCall(_, _, later) => later
      case ResultCall(_, _, now) => now
      case _ => Clock(calls[..|calls| - 1])
  }

  /** The clock never goes back. */
  predicate Monotone(calls: seq<Call>) {
    calls == [] ||
    var init, c := calls[..|calls| - 1], calls[|calls| - 1];
    Monotone(init) &&
    match c
    case StatCall(_, _, _, _, now, later) => Clock(init) <= now <= later
    case ProbeCall(_, now, later) => Clock(init) <= now <= later
    case ResultCall(_, _, now) => Clock(init) <= now
    case _ => true
  }

  datatype Outage = Outage(openedAt: int, probes: nat)

  /** The outage a provider is in, if any: when it opened and how many probes it has had. */
  function OutageOf(calls: seq<Call>, key: string): Option<Outage> {
    if calls == [] || key !in Run(calls).entries then None
    else
      var init := calls[..|calls| - 1];
      if key !in Run(init).entries then Some(Outage(Clock(calls), 0))
      else
        match OutageOf(init, key)
        case None => None
        case Some(o) => Some(if ProbeStarts(calls, key) then o.(probes := o.probes + 1) else o)
  }

  /** The wait before the n-th probe: 60, then 120, 240, 300, 300, 300 over and over, in seconds. */
  function Wait(n: nat): int
    requires n >= 1
  {
    if n == 1 then 60 * SECOND
    else if (n - 2) % 5 == 0 then 120 * SECOND
    else if (n - 2) % 5 == 1 then 240 * SECOND
    else 300 * SECOND
  }

  function WaitSum(n: nat): int {
    if n == 0 then 0 else WaitSum(n - 1) + Wait(n)
  }

  function ProbeCountAfter(n: nat): int {
    if n == 0 then 0 else (n - 1) % 5 + 1
  }

  lemma WaitIsCooldown(n: nat)
    ensures 0 <= ProbeCountAfter(n) <= MAX_PROBES
    ensures Cooldown(ProbeCountAfter(n)) == Wait(n + 1)
    ensures ProbeCountAfter(n + 1) == if ProbeCountAfter(n) >= MAX_PROBES then 1 else ProbeCountAfter(n) + 1
  {
    hide Cooldown;
    CooldownValues();
    if n > 0 {
      NextMod5(n - 1);
      assert n + 1 - 2 == n - 1;
    }
  }

  lemma Mod5(q: int, r: int)
    requires 0 <= r < 5
    ensures (5 * q + r) % 5 == r
  {
  }

  lemma NextMod5(k: nat)
    ensures (k + 1) % 5 == if k % 5 == 4 then 0 else k % 5 + 1
  {
    var q, r := k / 5, k % 5;
    assert k == 5 * q + r;
    if r == 4 {
      Mod5(q + 1, 0);
      assert k + 1 == 5 * (q + 1) + 0;
    } else {
      Mod5(q, r + 1);
      assert k + 1 == 5 * q + (r + 1);
    }
  }

  ghost predicate OnSchedule(calls: seq<Call>, key: string) {
    match OutageOf(calls, key)
    case None => key !in Run(calls).entries
    case Some(o) =>
      key in Run(calls).entries &&
      var e := Run(calls).entries[key];
      && e.probeCount == ProbeCountAfter(o.probes)
      && (e.state.Open? ==> o.openedAt + WaitSum(o.probes) <= e.openedAt <= Clock(calls))
      && (e.state.HalfOpen? ==> o.probes >= 1 && o.openedAt + WaitSum(o.probes) <= Clock(calls))
  }

  lemma {:induction false} ScheduleKept(calls: seq<Call>, key: string)
    requires Monotone(calls)
    ensures OnSchedule(calls, key)
  {
    if calls != [] {
      var init, c := calls[..|calls| - 1], calls[|calls| - 1];
      ScheduleKept(init, key);
      EntriesWellFormed(init);
      assert Clock(init) <= Clock(calls);
      if ProbeStarts(calls, key) {
        ScheduleProbe(calls, key);
      }
    }
  }

  /** Starting a probe is the step that uses the schedule: the cooldown is the next wait. */
  lemma ScheduleProbe(calls: seq<Call>, key: string)
    requires ProbeStarts(calls, key) && Monotone(calls) && OnSchedule(calls[..|calls| - 1], key)
    requires WellFormed(Run(calls[..|calls| - 1]).entries[key])
    ensures OnSchedule(calls, key)
  {
    var init := calls[..|calls| - 1];
    var o := OutageOf(init, key).value;
    WaitIsCooldown(o.probes);
    assert OutageOf(calls, key) == Some(o.(probes := o.probes + 1));
  }

  /** The n-th probe of an outage starts no earlier than its opening plus the first n waits. */
  lemma ProbeNotBefore(calls: seq<Call>, key: string)
    requires Monotone(calls) && ProbeStarts(calls, key)
    ensures OutageOf(calls, key).Some?
    ensures var o := OutageOf(calls, key).value;
            o.probes >= 1 && calls[|calls| - 1].now >= o.openedAt + WaitSum(o.probes)
  {
    var init := calls[..|calls| - 1];
    ScheduleKept(init, key);
    EntriesWellFormed(init);
    WaitIsCooldown(OutageOf(init, key).value.probes);
  }

  /** After the first probe every five more take at least 21 minutes. */
  lemma {:induction false} WaitSumClosedForm(q: nat)
    ensures WaitSum(5 * q + 1) == (60 + 1260 * q) * SECOND
    ensures WaitSum(5 * q + 2) == WaitSum(5 * q + 1) + 120 * SECOND
    ensures WaitSum(5 * q + 3) == WaitSum(5 * q + 1) + 360 * SECOND
    ensures WaitSum(5 * q + 4) == WaitSum(5 * q + 1) + 660 * SECOND
    ensures WaitSum(5 * q + 5) == WaitSum(5 * q + 1) + 960 * SECOND
  {
    if q == 0 {
      assert WaitSum(0) == 0 && WaitSum(1) == 60 * SECOND;
    } else {
      WaitSumClosedForm(q - 1);
      WaitAt(q - 1, 4);
      assert WaitSum(5 * q + 1) == WaitSum(5 * (q - 1) + 5) + Wait(5 * (q - 1) + 4 + 2);
    }
    hide Wait;
    WaitAt(q, 0);
    WaitAt(q, 1);
    WaitAt(q, 2);
    WaitAt(q, 3);
    assert WaitSum(5 * q + 2) == WaitSum(5 * q + 1) + Wait(5 * q + 0 + 2);
    assert WaitSum(5 * q + 3) == WaitSum(5 * q + 2) + Wait(5 * q + 1 + 2);
    assert WaitSum(5 * q + 4) == WaitSum(5 * q + 3) + Wait(5 * q + 2 + 2);
    assert WaitSum(5 * q + 5) == WaitSum(5 * q + 4) + Wait(5 * q + 3 + 2);
  }

  /** The wait at a place in the cycle of five. */
  lemma WaitAt(q: nat, r: nat)
    requires r < 5
    ensures Wait(5 * q + r + 2) == if r == 0 then 120 * SECOND else if r == 1 then 240 * SECOND else 300 * SECOND
  {
    Mod5(q, r);
    assert 5 * q + r + 2 - 2 == 5 * q + r;
  }

  // ---- the object ----

  class Breakers {
    var entries: map<string, Entry>
    var stats: map<string, Stat>
    ghost var log: seq<Call>

    ghost predicate Valid()
      reads this
    {
      State(entries, stats) == Run(log)
    }

    constructor ()
      ensures Valid() && log == []
    {
      entries, stats, log := map[], map[], [];
    }

    method RecordStat(key: string, success: bool, ms: int, status: int, now: int, later: int)
      requires Valid()
      modifies this
      ensures Valid() && log == old(log) + [StatCall(key, success, ms, status, now, later)]
    {
      hide Run;
      RunSnoc(log, StatCall(key, success, ms, status, now, later));
      EntriesWellFormed(log);
      log := log + [StatCall(key, success, ms, status, now, later)];
      if key == "" {
        return;
      }
      var s := NO_STAT;
      if key in stats {
        s := stats[key];
      }
      s := s.(requests := s.requests + 1);
      s := s.(totalMs := s.totalMs + ms);
      s := s.(lastRequest := Some(now));
      if success {
        s := s.(successes := s.successes + 1);
      } else if status != 429 {
        s := s.(fails := s.fails + 1);
      }
      stats := stats[key := s];
      if !success && status != 429 && s.requests >= MIN_REQUESTS_TO_JUDGE && 50 * s.fails >= 17 * s.requests {
        OpenBreaker(key, later);
      }
    }

    method OpenBreaker(key: string, now: int)
      modifies this`entries
      ensures entries == if key in old(entries) && !old(entries)[key].state.Closed? then old(entries)
                         else old(entries)[key := Entry(Open, now, DEFAULT_COOLDOWN, 0, 0)]
    {
      if key in entries && !entries[key].state.Closed? {
        return;
      }
      entries := entries[key := Entry(Open, now, DEFAULT_COOLDOWN, 0, 0)];
    }

    method RecordUsage(key: string, input: int, output: int)
      requires Valid()
      modifies this
      ensures Valid() && log == old(log) + [UsageCall(key, input, output)]
      ensures entries == old(entries)
    {
      hide Run;
      RunSnoc(log, UsageCall(key, input, output));
      log := log + [UsageCall(key, input, output)];
      if key == "" {
        return;
      }
      var s := NO_STAT;
      if key in stats {
        s := stats[key];
      }
      s := s.(inputTokens := s.inputTokens + input);
      s := s.(outputTokens := s.outputTokens + output);
      stats := stats[key := s];
    }

    method RecordCost(key: string, cost: real)
      requires Valid()
      modifies this
      ensures Valid() && log == old(log) + [CostCall(key, cost)]
      ensures entries == old(entries)
    {
      hide Run;
      RunSnoc(log, CostCall(key, cost));
      log := log + [CostCall(key, cost)];
      if key == "" || cost <= 0.0 {
        return;
      }
      var s := NO_STAT;
      if key in stats {
        s := stats[key];
      }
      s := s.(spendUSD := s.spendUSD + cost);
      stats := stats[key := s];
    }

    method IsHealthy(key: string) returns (healthy: bool)
      requires Valid()
      ensures healthy == Healthy(Run(log), key)
    {
      healthy := key !in entries || entries[key].state.Closed?;
    }

    /** Succeeds exactly when the provider is OPEN and its cooldown has passed; the reset after five
        probes never lets one start early. */
    method MaybeStartProbe(key: string, now: int, later: int) returns (start: bool)
      requires Valid() && now <= later
      modifies this
      ensures Valid() && log == old(log) + [ProbeCall(key, now, later)]
      ensures start == ProbeStarts(log, key)
      ensures start <==> ProbeDue(Run(old(log)), key, now)
    {
      ghost var c := ProbeCall(key, now, later);
      RunSnoc(log, c);
      EntriesWellFormed(log);
      CooldownValues();
      assert (log + [c])[..|log|] == log;
      log := log + [c];
      if key !in entries || !entries[key].state.Open? {
        return false;
      }
      var e := entries[key];
      var clock := now;
      if e.probeCount >= MAX_PROBES {
        if now - e.openedAt < MAX_COOLDOWN {
          return false;
        }
        e := e.(probeCount := 0);
        e := e.(cooldown := DEFAULT_COOLDOWN);
        clock := later;
      }
      if clock - e.openedAt < e.cooldown {
        return false;
      }
      e := e.(state := HalfOpen);
      e := e.(probeCount := e.probeCount + 1);
      entries := entries[key := e];
      start := true;
    }

    method RecordProbeResult(key: string, success: bool, now: int)
      requires Valid()
      modifies this
      ensures Valid() && log == old(log) + [ResultCall(key, success, now)]
    {
      hide Run;
      RunSnoc(log, ResultCall(key, success, now));
      log := log + [ResultCall(key, success, now)];
      if key !in entries || !entries[key].state.HalfOpen? {
        return;
      }
      if success {
        entries := entries - {key};
        return;
      }
      var e := entries[key];
      e := e.(state := Open);
      e := e.(openedAt := now);
      e := e.(cooldown := e.cooldown * 2);
      if e.cooldown > MAX_COOLDOWN {
        e := e.(cooldown := MAX_COOLDOWN);
      }
      e := e.(consecutiveProbeFailures := e.consecutiveProbeFailures + 1);
      entries := entries[key := e];
    }
  }
}
