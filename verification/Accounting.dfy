/** What a request leaves in the breakers, by the outcomes of its upstream requests
    (internal/proxy/server.go:277-349, internal/resilience/breaker.go:77-103). */
module Accounting {
  import opened Text
  import opened Breaker
  import opened Routing
  import opened Fallback

  /** The counter that an outcome belongs to. */
  predicate Belongs(o: Outcome, kind: Kind) {
    match kind
    case AnyRequest => true
    case Succeeded => o.Status? && o.code !in {408, 429, 500, 502, 503, 504}
    case Failed => o.TransportError? || o.code in {408, 500, 502, 503, 504}
    case Throttled => o == Status(429)
  }

  /** The requests to a provider, from number `from` on, with an outcome of the kind. */
  function Number(upstream: nat -> Outcome, calls: seq<string>, from: nat, key: string, kind: Kind): nat
    requires from <= |calls|
    decreases |calls|
  {
    if |calls| == from then 0
    else
      var n := |calls| - 1;
      Number(upstream, calls[..n], from, key, kind) + if calls[n] == key && Belongs(upstream(n), kind) then 1 else 0
  }

  predicate RecordIs(r: Record, key: string, kind: Kind) {
    r.key == key &&
    match kind
    case AnyRequest => true
    case Succeeded => r.success
    case Failed => !r.success && r.status != 429
    case Throttled => !r.success && r.status == 429
  }

  function CountKind(rs: seq<Record>, key: string, kind: Kind): nat {
    if rs == [] then 0
    else CountKind(rs[..|rs| - 1], key, kind) + if RecordIs(rs[|rs| - 1], key, kind) then 1 else 0
  }

  lemma {:induction false} CountKindConcat(a: seq<Record>, b: seq<Record>, key: string, kind: Kind)
    ensures CountKind(a + b, key, kind) == CountKind(a, key, kind) + CountKind(b, key, kind)
    decreases |b|
  {
    hide RecordIs;
    if b == [] {
      assert a + b == a;
    } else {
      assert (a + b)[..|a + b| - 1] == a + b[..|b| - 1];
      CountKindConcat(a, b[..|b| - 1], key, kind);
    }
  }

  lemma OneRecord(r: Record, key: string, kind: Kind)
    ensures CountKind([r], key, kind) == if RecordIs(r, key, kind) then 1 else 0
  {
    hide RecordIs;
    assert [r][..0] == [];
  }

  lemma CallCounts(c: Call, key: string, kind: Kind)
    requires key != ""
    ensures IsKind(c, key, kind) <==> c.StatCall? && RecordIs(Record(c.key, c.success, c.status), key, kind)
  {
  }

  lemma {:induction false} TallyByKind(log: seq<Call>, key: string, kind: Kind)
    requires key != ""
    ensures Tally(log, key, kind) == CountKind(Records(log), key, kind)
  {
    hide IsKind, RecordIs, CountKind;
    if log == [] {
      NoRecords(key, kind);
    } else {
      var init, c := log[..|log| - 1], log[|log| - 1];
      TallyByKind(init, key, kind);
      CallCounts(c, key, kind);
      if c.StatCall? {
        var r := Record(c.key, c.success, c.status);
        CountKindConcat(Records(init), [r], key, kind);
        OneRecord(r, key, kind);
      } else {
        assert Records(log) == Records(init);
      }
    }
  }

  lemma RecordBelongs(key: string, o: Outcome, wanted: string, kind: Kind)
    ensures RecordIs(RecordOf(key, o), wanted, kind) <==> key == wanted && Belongs(o, kind)
  {
  }

  lemma {:induction false} RecordsByKind(
    upstream: nat -> Outcome, calls: seq<string>, from: nat, key: string, kind: Kind)
    requires from <= |calls|
    ensures CountKind(RecordsOf(upstream, calls, from), key, kind) == Number(upstream, calls, from, key, kind)
    decreases |calls|
  {
    hide Belongs, RecordIs, RecordOf, CountKind;
    if |calls| == from {
      NoRecords(key, kind);
    } else {
      var n := |calls| - 1;
      var r := RecordOf(calls[n], upstream(n));
      RecordsByKind(upstream, calls[..n], from, key, kind);
      CountKindConcat(RecordsOf(upstream, calls[..n], from), [r], key, kind);
      OneRecord(r, key, kind);
      RecordBelongs(calls[n], upstream(n), key, kind);
    }
  }

  lemma NoRecords(key: string, kind: Kind)
    ensures CountKind([], key, kind) == 0
  {
  }

  /** Every counter of a provider grows by exactly the number of its outcomes of that kind: a 429 is a throttling,
      transport errors and 408, 500, 502, 503 and 504 are failures, any other status is a success. */
  lemma TalliesFollowOutcomes(
    before: seq<Call>, after: seq<Call>, upstream: nat -> Outcome, calls: seq<string>, from: nat, key: string,
    kind: Kind)
    requires from <= |calls| && key != ""
    requires Records(after) == Records(before) + RecordsOf(upstream, calls, from)
    ensures Tally(after, key, kind) - Tally(before, key, kind) == Number(upstream, calls, from, key, kind)
  {
    TallyByKind(before, key, kind);
    TallyByKind(after, key, kind);
    CountKindConcat(Records(before), RecordsOf(upstream, calls, from), key, kind);
    RecordsByKind(upstream, calls, from, key, kind);
  }

  // ---- what is summed up ----

  datatype Quantity = Milliseconds | InputTokens | OutputTokens

  /** What a call adds to a provider's total. */
  function Amount(c: Call, key: string, q: Quantity): int {
    if c.key != key then 0
    else
      match q
      case Milliseconds => if c.StatCall? then c.ms else 0
      case InputTokens => if c.UsageCall? then c.input else 0
      case OutputTokens => if c.UsageCall? then c.output else 0
  }

  function Sum(calls: seq<Call>, key: string, q: Quantity): int {
    if calls == [] then 0 else Sum(calls[..|calls| - 1], key, q) + Amount(calls[|calls| - 1], key, q)
  }

  /** The positive costs of a provider. */
  function Spend(calls: seq<Call>, key: string): real {
    if calls == [] then 0.0
    else
      var c := calls[|calls| - 1];
      Spend(calls[..|calls| - 1], key) + if c.CostCall? && c.key == key && c.cost > 0.0 then c.cost else 0.0
  }

  /** When the last statistics call of a provider was made. */
  function LastSeen(calls: seq<Call>, key: string): Option<int> {
    if calls == [] then None
    else
      var c := calls[|calls| - 1];
      if c.StatCall? && c.key == key then Some(c.now) else LastSeen(calls[..|calls| - 1], key)
  }

  /** After any run a provider's totals are the sums over its calls, its spend that of its positive costs, and its
      last request the last one reported. */
  lemma {:induction false} TotalsAreSums(calls: seq<Call>, key: string)
    requires key != ""
    ensures var s := StatOf(Run(calls), key);
            && s.totalMs == Sum(calls, key, Milliseconds)
            && s.inputTokens == Sum(calls, key, InputTokens) && s.outputTokens == Sum(calls, key, OutputTokens)
            && s.spendUSD == Spend(calls, key) && s.lastRequest == LastSeen(calls, key)
  {
    if calls != [] {
      TotalsAreSums(calls[..|calls| - 1], key);
    }
  }

  // ---- a throttled provider ----

  /** A throttled provider is left after three 429s, and the next one serves. */
  lemma ThrottledFallsBack(first: Target, second: Target)
    requires first.providerKey != second.providerKey
    ensures var upstream := (j: nat) => if j < 3 then Status(429) else Status(200);
            var a, b := first.providerKey, second.providerKey;
            var calls := [a, a, a, b];
            && WentThrough(upstream, [first, second], [], calls, Some(Served(b, second.model, 200)), [a, b], 429)
            && Number(upstream, calls, 0, a, Throttled) == 3 && Number(upstream, calls, 0, a, Failed) == 0
            && Number(upstream, calls, 0, b, Succeeded) == 1
  {
    var upstream := (j: nat) => if j < 3 then Status(429) else Status(200);
    var a, b := first.providerKey, second.providerKey;
    var calls := [a, a, a, b];
    FourRequests(upstream, calls, a, Throttled);
    FourRequests(upstream, calls, a, Failed);
    FourRequests(upstream, calls, b, Succeeded);
  }

  lemma FourRequests(upstream: nat -> Outcome, calls: seq<string>, key: string, kind: Kind)
    requires |calls| == 4
    ensures Number(upstream, calls, 0, key, kind) ==
            (if calls[0] == key && Belongs(upstream(0), kind) then 1 else 0) +
            (if calls[1] == key && Belongs(upstream(1), kind) then 1 else 0) +
            (if calls[2] == key && Belongs(upstream(2), kind) then 1 else 0) +
            (if calls[3] == key && Belongs(upstream(3), kind) then 1 else 0)
  {
    hide Belongs;
    NumberNext(upstream, calls, 0, key, kind);
    NumberNext(upstream, calls, 1, key, kind);
    NumberNext(upstream, calls, 2, key, kind);
    NumberNext(upstream, calls, 3, key, kind);
    assert calls[..4] == calls && calls[..0] == [];
  }

  lemma NumberNext(upstream: nat -> Outcome, calls: seq<string>, i: nat, key: string, kind: Kind)
    requires i < |calls|
    ensures Number(upstream, calls[..i + 1], 0, key, kind) ==
            Number(upstream, calls[..i], 0, key, kind) + if calls[i] == key && Belongs(upstream(i), kind) then 1 else 0
  {
    hide Belongs;
    assert calls[..i + 1][..i] == calls[..i];
  }
}
