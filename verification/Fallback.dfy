/** The retry and fallback engine (internal/proxy/server.go:277-402). The upstream is any function from
    the number of a request to its outcome; sleeping adds to a counter; the clock only moves forward. */
module Fallback {
  import opened Text
  import opened Breaker
  import opened Routing
  import M = Momentum

  const MILLISECOND := 1_000_000
  const MAX_ATTEMPTS := 3
  const RETRY_BASE_DELAY := 500 * MILLISECOND
  const RETRY_MAX_DELAY := 4000 * MILLISECOND
  const MAX_CHAIN := 3

  datatype Outcome = TransportError | Status(code: int)

  /** isRetryableStatus, and every transport error. */
  predicate Retryable(o: Outcome) {
    o.TransportError? || o.code in {408, 429, 500, 502, 503, 504}
  }

  // ---- what the breakers are told ----

  datatype Record = Record(key: string, success: bool, status: int)

  /** The statistics calls of a breaker log, without their times. */
  function Records(log: seq<Call>): seq<Record> {
    if log == [] then []
    else
      var c := log[|log| - 1];
      Records(log[..|log| - 1]) + (if c.StatCall? then [Record(c.key, c.success, c.status)] else [])
  }

  lemma RecordsSnoc(log: seq<Call>, c: Call)
    ensures Records(log + [c]) == Records(log) + (if c.StatCall? then [Record(c.key, c.success, c.status)] else [])
  {
    assert (log + [c])[..|log|] == log;
  }

  function RecordOf(key: string, o: Outcome): Record {
    Record(key, !Retryable(o), if o.Status? then o.code else 0)
  }

  /** One record for each of the requests from..to, in order. */
  function RecordsOf(upstream: nat -> Outcome, calls: seq<string>, from: nat): seq<Record>
    requires from <= |calls|
    decreases |calls|
  {
    if |calls| == from then []
    else
      var n := |calls| - 1;
      RecordsOf(upstream, calls[..n], from) + [RecordOf(calls[n], upstream(n))]
  }

  lemma RecordsOfSnoc(upstream: nat -> Outcome, calls: seq<string>, from: nat, key: string)
    requires from <= |calls|
    ensures RecordsOf(upstream, calls + [key], from) ==
            RecordsOf(upstream, calls, from) + [RecordOf(key, upstream(|calls|))]
  {
    assert (calls + [key])[..|calls|] == calls;
  }

  function CountRecords(rs: seq<Record>, key: string, onlySuccesses: bool): nat {
    if rs == [] then 0
    else
      var r := rs[|rs| - 1];
      CountRecords(rs[..|rs| - 1], key, onlySuccesses) + if r.key == key && (onlySuccesses ==> r.success) then 1 else 0
  }

  lemma {:induction false} CountRecordsConcat(a: seq<Record>, b: seq<Record>, key: string, onlySuccesses: bool)
    ensures CountRecords(a + b, key, onlySuccesses) ==
            CountRecords(a, key, onlySuccesses) + CountRecords(b, key, onlySuccesses)
    decreases |b|
  {
    if b == [] {
      assert a + b == a;
    } else {
      assert (a + b)[..|a + b| - 1] == a + b[..|b| - 1];
      CountRecordsConcat(a, b[..|b| - 1], key, onlySuccesses);
    }
  }

  /** The stored counters of a provider count its records. */
  lemma {:induction false} TallyIsRecords(log: seq<Call>, key: string)
    requires key != ""
    ensures Tally(log, key, AnyRequest) == CountRecords(Records(log), key, false)
    ensures Tally(log, key, Succeeded) == CountRecords(Records(log), key, true)
  {
    if log != [] {
      var init, c := log[..|log| - 1], log[|log| - 1];
      TallyIsRecords(init, key);
      if c.StatCall? {
        CountRecordsConcat(Records(init), [Record(c.key, c.success, c.status)], key, false);
        CountRecordsConcat(Records(init), [Record(c.key, c.success, c.status)], key, true);
      } else {
        assert Records(log) == Records(init);
      }
    }
  }

  // ---- reordering the chain ----

  /** The element at i moved right behind the first one. */
  function Promote(s: seq<Target>, i: nat): seq<Target>
    requires 2 <= i < |s|
  {
    s[..1] + [s[i]] + s[1..i] + s[i + 1..]
  }

  /** First position from 2 on that satisfies p, |s| if there is none. */
  function FirstFrom2(s: seq<Target>, p: Target -> bool, i: nat := 2): (r: nat)
    requires 2 <= i
    ensures r >= i && (r < |s| ==> p(s[r]))
    ensures r <= |s| || r == i
    ensures forall j :: i <= j < r && j < |s| ==> !p(s[j])
    decreases |s| - i
  {
    if i >= |s| || p(s[i]) then i else FirstFrom2(s, p, i + 1)
  }

  function PromoteFirst(s: seq<Target>, p: Target -> bool): seq<Target> {
    var i := FirstFrom2(s, p);
    if i < |s| then Promote(s, i) else s
  }

  function ByKey(key: Bytes): Target -> bool {
    (t: Target) => t.providerKey == key
  }

  const FREE_PROVIDERS: set<Bytes> := {"oc", "um", "lo"}

  function Free(): Target -> bool {
    (t: Target) => t.providerKey in FREE_PROVIDERS
  }

  function Without(s: seq<Target>, i: nat): seq<Target>
    requires i < |s|
  {
    s[..i] + s[i + 1..]
  }

  /** Promotion is a permutation that moves one element and keeps the order of all the others. */
  lemma PromoteMovesOne(s: seq<Target>, i: nat)
    requires 2 <= i < |s|
    ensures var r := Promote(s, i);
            && |r| == |s| && r[0] == s[0] && r[1] == s[i]
            && Without(r, 1) == Without(s, i)
            && multiset(r) == multiset(s)
  {
    var r := Promote(s, i);
    assert Without(r, 1) == s[..1] + s[1..i] + s[i + 1..];
    assert s[..i] == s[..1] + s[1..i];
    assert s == s[..1] + s[1..i] + [s[i]] + s[i + 1..];
  }

  /** A wanted element behind the first one ends right behind it. */
  lemma PromotedComesSecond(s: seq<Target>, p: Target -> bool)
    requires exists j :: 1 <= j < |s| && p(s[j])
    ensures var r := PromoteFirst(s, p); |r| == |s| >= 2 && r[0] == s[0] && p(r[1])
  {
    var i := FirstFrom2(s, p);
    if i < |s| {
      PromoteMovesOne(s, i);
    }
  }

  /** moveToIndex1 and moveFreeToIndex1 share the in-place move; copy overlaps like memmove. */
  method MoveUp(chain: array<Target>, i: nat)
    requires 2 <= i < chain.Length
    modifies chain
    ensures chain[..] == Promote(old(chain[..]), i)
  {
    var item := chain[i];
    var j := i;
    while j > 1
      invariant 1 <= j <= i
      invariant forall k :: 0 <= k <= j ==> k < i ==> chain[k] == old(chain[k])
      invariant forall k :: j < k <= i ==> chain[k] == old(chain[k - 1])
      invariant forall k :: i < k < chain.Length ==> chain[k] == old(chain[k])
    {
      chain[j] := chain[j - 1];
      j := j - 1;
    }
    chain[1] := item;
    PromotedAt(old(chain[..]), i, chain[..]);
  }

  lemma PromotedAt(s: seq<Target>, i: nat, r: seq<Target>)
    requires 2 <= i < |s| == |r|
    requires r[0] == s[0] && r[1] == s[i]
    requires forall k :: 2 <= k <= i ==> r[k] == s[k - 1]
    requires forall k :: i < k < |s| ==> r[k] == s[k]
    ensures r == Promote(s, i)
  {
  }

  method MoveToIndex1(chain: array<Target>, providerKey: Bytes)
    modifies chain
    ensures chain[..] == PromoteFirst(old(chain[..]), ByKey(providerKey))
  {
    var i := 2;
    while i < chain.Length
      invariant 2 <= i && chain[..] == old(chain[..])
      invariant FirstFrom2(chain[..], ByKey(providerKey)) == FirstFrom2(chain[..], ByKey(providerKey), i)
    {
      if chain[i].providerKey == providerKey {
        MoveUp(chain, i);
        return;
      }
      i := i + 1;
    }
  }

  method MoveFreeToIndex1(chain: array<Target>)
    modifies chain
    ensures chain[..] == PromoteFirst(old(chain[..]), Free())
  {
    var i := 2;
    while i < chain.Length
      invariant 2 <= i && chain[..] == old(chain[..])
      invariant FirstFrom2(chain[..], Free()) == FirstFrom2(chain[..], Free(), i)
    {
      if chain[i].providerKey in FREE_PROVIDERS {
        SameFirst(chain[..], i);
        MoveToIndex1(chain, chain[i].providerKey);
        return;
      }
      i := i + 1;
    }
  }

  /** The first free provider is also the first with its own key. */
  lemma SameFirst(s: seq<Target>, i: nat)
    requires 2 <= i < |s| && FirstFrom2(s, Free()) == i
    ensures FirstFrom2(s, ByKey(s[i].providerKey)) == i
  {
    var byKey := ByKey(s[i].providerKey);
    assert byKey(s[i]);
    assert forall j :: 2 <= j < |s| && byKey(s[j]) ==> Free()(s[j]);
  }

  // ---- the chain ----

  function HealthyOnly(ts: seq<Target>, s: Breaker.State): seq<Target> {
    if ts == [] then []
    else
      HealthyOnly(ts[..|ts| - 1], s) +
      (if Healthy(s, ts[|ts| - 1].providerKey) then [ts[|ts| - 1]] else [])
  }

  lemma {:induction false} HealthyOnlyMembers(ts: seq<Target>, s: Breaker.State)
    ensures forall t :: t in HealthyOnly(ts, s) <==> t in ts && Healthy(s, t.providerKey)
  {
    if ts != [] {
      HealthyOnlyMembers(ts[..|ts| - 1], s);
      assert ts == ts[..|ts| - 1] + [ts[|ts| - 1]];
    }
  }

  /** Confidence of at least 0.4 is at least two of five decisions. */
  predicate Applies(s: Breaker.State, preferred: string, votes: nat) {
    preferred != "" && 5 * votes >= 2 * M.RING && Healthy(s, preferred)
  }

  /** What session momentum makes of the full chain. */
  ghost predicate Reordered(
    full: seq<Target>, r: seq<Target>, session: string, recent: seq<M.Decision>, s: Breaker.State)
  {
    if |full| <= 1 || session == "" then r == full
    else
      || (exists preferred, votes ::
            M.Favourite(recent, preferred, votes) && Applies(s, preferred, votes) &&
            r == PromoteFirst(full, ByKey(preferred)))
      || ((recent == [] || exists preferred, votes ::
             M.Favourite(recent, preferred, votes) && !Applies(s, preferred, votes)) &&
          r == PromoteFirst(full, Free()))
  }

  function Truncated(s: seq<Target>): seq<Target> {
    if |s| > MAX_CHAIN then s[..MAX_CHAIN] else s
  }

  /** Reordering moves at most one element, from behind the second place to the second place. */
  ghost predicate MovesAtMostOne(full: seq<Target>, r: seq<Target>) {
    r == full || exists i :: 2 <= i < |full| && r == Promote(full, i) && Without(r, 1) == Without(full, i)
  }

  lemma PromoteFirstMoves(full: seq<Target>, p: Target -> bool)
    ensures var r := PromoteFirst(full, p);
            && MovesAtMostOne(full, r) && multiset(r) == multiset(full) && |r| == |full|
            && (full != [] ==> r[0] == full[0])
  {
    var i := FirstFrom2(full, p);
    if i < |full| {
      PromoteMovesOne(full, i);
    }
  }

  lemma ReorderedMoves(
    full: seq<Target>, r: seq<Target>, session: string, recent: seq<M.Decision>, s: Breaker.State)
    requires Reordered(full, r, session, recent, s) && full != []
    ensures MovesAtMostOne(full, r) && multiset(r) == multiset(full) && |r| == |full| && r[0] == full[0]
  {
    if r != full {
      if r == PromoteFirst(full, Free()) {
        PromoteFirstMoves(full, Free());
      } else {
        var preferred :| r == PromoteFirst(full, ByKey(preferred));
        PromoteFirstMoves(full, ByKey(preferred));
      }
    }
  }

  /** What buildChain makes of a primary and its fallbacks. */
  ghost predicate ChainOf(
    primary: Target, ts: seq<Target>, chain: seq<Target>, session: string, recent: seq<M.Decision>, s: Breaker.State)
  {
    exists r :: Reordered([primary] + HealthyOnly(ts, s), r, session, recent, s) && chain == Truncated(r)
  }

  /** A permutation that moves at most one element. */
  ghost predicate Rearranged(full: seq<Target>, r: seq<Target>) {
    MovesAtMostOne(full, r) && multiset(r) == multiset(full)
  }

  /** Whatever the momentum, the chain keeps its primary, holds only healthy fallbacks behind it, and is cut
      to three from a permutation that moves at most one element. */
  lemma ChainShape(
    primary: Target, ts: seq<Target>, chain: seq<Target>, session: string, recent: seq<M.Decision>, s: Breaker.State)
    requires ChainOf(primary, ts, chain, session, recent, s)
    ensures exists r :: Rearranged([primary] + HealthyOnly(ts, s), r) && chain == Truncated(r)
    ensures |chain| == Min(3, 1 + |HealthyOnly(ts, s)|) && chain[0] == primary
    ensures forall i :: 1 <= i < |chain| ==> chain[i] in ts && Healthy(s, chain[i].providerKey)
  {
    hide Reordered, MovesAtMostOne, HealthyOnly, Healthy;
    var full := [primary] + HealthyOnly(ts, s);
    var r :| Reordered(full, r, session, recent, s) && chain == Truncated(r);
    ReorderedMoves(full, r, session, recent, s);
    assert Rearranged(full, r);
    HealthyBehind(primary, ts, r, s);
  }

  lemma HealthyBehind(primary: Target, ts: seq<Target>, r: seq<Target>, s: Breaker.State)
    requires var full := [primary] + HealthyOnly(ts, s);
             multiset(r) == multiset(full) && |r| == |full| && r[0] == primary
    ensures forall i :: 1 <= i < |r| ==> r[i] in ts && Healthy(s, r[i].providerKey)
  {
    HealthyOnlyMembers(ts, s);
    var full := [primary] + HealthyOnly(ts, s);
    RestSame(full, r);
    assert full[1..] == HealthyOnly(ts, s);
  }

  lemma RestSame<T>(full: seq<T>, r: seq<T>)
    requires multiset(r) == multiset(full) && |r| == |full| > 0 && r[0] == full[0]
    ensures forall i :: 1 <= i < |r| ==> r[i] in full[1..]
  {
    var rest, tail := r[1..], full[1..];
    RestOf(r);
    RestOf(full);
    forall i | 1 <= i < |r| ensures r[i] in tail {
      assert r[i] == rest[i - 1];
      assert rest[i - 1] in multiset(rest);
    }
  }

  lemma RestOf<T>(s: seq<T>)
    requires s != []
    ensures multiset(s[1..]) == multiset(s) - multiset{s[0]}
  {
    assert s == [s[0]] + s[1..];
  }

  /** A healthy fallback stands behind the primary before reordering. */
  lemma StandsBehind(primary: Target, ts: seq<Target>, t: Target, s: Breaker.State) returns (j: int)
    requires t in ts && Healthy(s, t.providerKey)
    ensures 1 <= j < |[primary] + HealthyOnly(ts, s)| && ([primary] + HealthyOnly(ts, s))[j] == t
  {
    hide HealthyOnly;
    HealthyOnlyMembers(ts, s);
    var healthy := HealthyOnly(ts, s);
    assert t in healthy;
    var i :| 0 <= i < |healthy| && healthy[i] == t;
    j := i + 1;
  }

  /** Some provider made the most of the recent decisions. */
  lemma {:induction false} FavouriteExists(recent: seq<M.Decision>)
    requires recent != []
    ensures exists p, v :: M.Favourite(recent, p, v)
    decreases |recent|
  {
    var n := |recent| - 1;
    var init, last := recent[..n], recent[n].provider;
    assert recent == init + [recent[n]];
    forall q ensures M.Votes(recent, q) == M.Votes(init, q) + (if q == last then 1 else 0) {
    }
    if init == [] {
      assert M.Favourite(recent, last, 1);
    } else {
      FavouriteExists(init);
      var p, v :| M.Favourite(init, p, v);
      if M.Votes(recent, last) >= M.Votes(recent, p) {
        assert M.Favourite(recent, last, M.Votes(recent, last));
      } else {
        assert M.Favourite(recent, p, M.Votes(recent, p));
      }
    }
  }

  /** A healthy fallback of the wanted kind, if there is any, comes right after the primary; if there is none,
      the chain keeps the order of the fallback list. */
  ghost predicate ComesSecond(
    primary: Target, ts: seq<Target>, chain: seq<Target>, s: Breaker.State, wanted: Target -> bool)
  {
    if exists t :: t in ts && Healthy(s, t.providerKey) && wanted(t) then |chain| >= 2 && wanted(chain[1])
    else chain == Truncated([primary] + HealthyOnly(ts, s))
  }

  lemma PromotedComes(primary: Target, ts: seq<Target>, s: Breaker.State, wanted: Target -> bool)
    ensures ComesSecond(primary, ts, Truncated(PromoteFirst([primary] + HealthyOnly(ts, s), wanted)), s, wanted)
  {
    hide HealthyOnly, Healthy;
    var healthy, full := HealthyOnly(ts, s), [primary] + HealthyOnly(ts, s);
    HealthyOnlyMembers(ts, s);
    if t :| t in ts && Healthy(s, t.providerKey) && wanted(t) {
      var j := StandsBehind(primary, ts, t, s);
      assert wanted(full[j]);
      PromotedComesSecond(full, wanted);
    } else {
      forall j | 2 <= j < |full| ensures !wanted(full[j]) {
        assert full[j] == healthy[j - 1] && full[j] in healthy;
      }
    }
  }

  /** In a session the second place goes to one of the most frequent recent providers if its confidence and
      health allow, and to a free provider if they do not or if there are no recent decisions. */
  lemma MomentumDecides(
    primary: Target, ts: seq<Target>, chain: seq<Target>, session: string, recent: seq<M.Decision>, s: Breaker.State)
    requires ChainOf(primary, ts, chain, session, recent, s) && session != ""
    ensures recent == [] ==> ComesSecond(primary, ts, chain, s, Free())
    ensures recent != [] ==>
              exists p, v :: M.Favourite(recent, p, v) &&
                             ComesSecond(primary, ts, chain, s, if Applies(s, p, v) then ByKey(p) else Free())
  {
    hide HealthyOnly, M.Favourite, Truncated, PromoteFirst, ComesSecond, Applies, ByKey, Free;
    var full := [primary] + HealthyOnly(ts, s);
    var r :| Reordered(full, r, session, recent, s) && chain == Truncated(r);
    PromotedComes(primary, ts, s, Free());
    if |full| <= 1 {
      AloneComes(primary, ts, s, Free());
      if recent != [] {
        FavouriteExists(recent);
        var p, v :| M.Favourite(recent, p, v);
        AloneComes(primary, ts, s, ByKey(p));
      }
    } else if p, v :| M.Favourite(recent, p, v) && Applies(s, p, v) && r == PromoteFirst(full, ByKey(p)) {
      PromotedComes(primary, ts, s, ByKey(p));
      SomethingRecent(recent, p, v);
    }
  }

  lemma AloneComes(primary: Target, ts: seq<Target>, s: Breaker.State, wanted: Target -> bool)
    requires |[primary] + HealthyOnly(ts, s)| <= 1
    ensures ComesSecond(primary, ts, Truncated([primary] + HealthyOnly(ts, s)), s, wanted)
  {
    HealthyOnlyMembers(ts, s);
    assert HealthyOnly(ts, s) == [];
  }

  lemma SomethingRecent(recent: seq<M.Decision>, p: string, v: nat)
    requires M.Favourite(recent, p, v)
    ensures recent != []
  {
  }

  /** The same in numbers: the provider of at least two of the last five decisions, if it is healthy, and otherwise
      one of oc, um and lo. */
  lemma SecondPlaceInWords(
    primary: Target, ts: seq<Target>, chain: seq<Target>, session: string, recent: seq<M.Decision>, s: Breaker.State)
    requires ChainOf(primary, ts, chain, session, recent, s) && session != "" && recent != []
    ensures exists p, v :: M.Favourite(recent, p, v) &&
              if p != "" && v >= 2 && Healthy(s, p) then
                (exists t :: t in ts && t.providerKey == p) ==> |chain| >= 2 && chain[1].providerKey == p
              else
                (exists t :: t in ts && Healthy(s, t.providerKey) && t.providerKey in {"oc", "um", "lo"}) ==>
                  |chain| >= 2 && chain[1].providerKey in {"oc", "um", "lo"}
  {
    hide M.Favourite, ChainOf, Healthy, HealthyOnly, Truncated;
    MomentumDecides(primary, ts, chain, session, recent, s);
    var p, v :| M.Favourite(recent, p, v) &&
                ComesSecond(primary, ts, chain, s, if Applies(s, p, v) then ByKey(p) else Free());
    assert Applies(s, p, v) <==> p != "" && v >= 2 && Healthy(s, p);
    if Applies(s, p, v) {
      assert forall t: Target :: ByKey(p)(t) <==> t.providerKey == p;
    } else {
      assert forall t: Target :: Free()(t) <==> t.providerKey in {"oc", "um", "lo"};
    }
  }

  /** Without a session the chain keeps the order of the fallback list. */
  lemma NoSessionKeepsOrder(
    primary: Target, ts: seq<Target>, chain: seq<Target>, recent: seq<M.Decision>, s: Breaker.State)
    requires ChainOf(primary, ts, chain, "", recent, s)
    ensures chain == Truncated([primary] + HealthyOnly(ts, s))
  {
    var r :| Reordered([primary] + HealthyOnly(ts, s), r, "", recent, s) && chain == Truncated(r);
  }

  // ---- the engine ----

  /** The status of the last response among the requests from..to, 0 when all were transport errors. */
  function LastStatus(upstream: nat -> Outcome, from: nat, to: nat): int
    requires from <= to
  {
    if from == to then 0
    else if upstream(to - 1).Status? then upstream(to - 1).code
    else LastStatus(upstream, from, to - 1)
  }

  predicate Responded(upstream: nat -> Outcome, from: nat, upTo: nat) {
    exists j :: from <= j < upTo && upstream(j).Status?
  }

  /** Retryable responses have non-zero codes, so 0 says that nobody responded. */
  lemma {:induction false} NoStatusIff(upstream: nat -> Outcome, from: nat, upTo: nat)
    requires from <= upTo && AllRetryable(upstream, from, upTo)
    ensures LastStatus(upstream, from, upTo) == 0 <==> !Responded(upstream, from, upTo)
    decreases upTo
  {
    if from < upTo {
      NoStatusIff(upstream, from, upTo - 1);
      assert Retryable(upstream(upTo - 1));
    }
  }

  lemma {:induction false} LastStatusSplits(upstream: nat -> Outcome, from: nat, mid: nat, upTo: nat)
    requires from <= mid <= upTo
    ensures LastStatus(upstream, from, upTo) ==
            if Responded(upstream, mid, upTo) then LastStatus(upstream, mid, upTo) else LastStatus(upstream, from, mid)
    decreases upTo
  {
    if mid < upTo {
      LastStatusSplits(upstream, from, mid, upTo - 1);
    }
  }

  lemma LastThreeDecide(upstream: nat -> Outcome, from: nat, upTo: nat)
    requires from + MAX_ATTEMPTS <= upTo && AllRetryable(upstream, from, upTo)
    ensures LastStatus(upstream, upTo - MAX_ATTEMPTS, upTo) == LastStatus(upstream, from, upTo) <==>
            Responded(upstream, upTo - MAX_ATTEMPTS, upTo) || !Responded(upstream, from, upTo)
  {
    hide Responded, LastStatus, Retryable;
    var mid := upTo - MAX_ATTEMPTS;
    LastStatusSplits(upstream, from, mid, upTo);
    NoStatusIff(upstream, mid, upTo);
    NoStatusIff(upstream, from, upTo);
  }

  /** The most that can have been slept before the given attempt. */
  function SleepBound(attempt: nat): int {
    if attempt <= 1 then 0 else if attempt == 2 then 499_999_999 else 1_499_999_998
  }

  /** The new requests go to the chain's providers in order, three to each before the next. */
  ghost predicate RequestsFollow(chain: seq<Target>, before: seq<string>, calls: seq<string>) {
    && before <= calls
    && |calls| - |before| <= MAX_ATTEMPTS * |chain|
    && forall j :: |before| <= j < |calls| ==> calls[j] == chain[(j - |before|) / MAX_ATTEMPTS].providerKey
  }

  ghost predicate AllRetryable(upstream: nat -> Outcome, from: nat, to: int) {
    forall j :: from <= j < to ==> Retryable(upstream(j))
  }

  /** One to three requests to one provider, all but the last retryable; answered by the last one, or
      given up after three retryable outcomes. */
  ghost predicate Tried(
    upstream: nat -> Outcome, key: Bytes, before: seq<string>, calls: seq<string>, answer: Option<int>, status: int)
  {
    && before <= calls && |before| < |calls| <= |before| + MAX_ATTEMPTS
    && (forall j :: |before| <= j < |calls| ==> calls[j] == key)
    && AllRetryable(upstream, |before|, |calls| - 1)
    && (match answer
        case Some(code) => upstream(|calls| - 1) == Status(code) && !Retryable(upstream(|calls| - 1))
        case None => |calls| == |before| + MAX_ATTEMPTS && Retryable(upstream(|calls| - 1)))
    && status == LastStatus(upstream, |before|, |calls|)
  }

  /** So far every request to the provider was retryable. */
  ghost predicate Failing(
    upstream: nat -> Outcome, key: Bytes, before: seq<string>, calls: seq<string>, status: int)
  {
    && before <= calls
    && (forall j :: |before| <= j < |calls| ==> calls[j] == key)
    && AllRetryable(upstream, |before|, |calls|)
    && status == LastStatus(upstream, |before|, |calls|)
  }

  lemma FailingStarts(upstream: nat -> Outcome, key: Bytes, calls: seq<string>)
    ensures Failing(upstream, key, calls, calls, 0)
    ensures RecordsOf(upstream, calls, |calls|) == []
  {
  }

  /** One more request either fails too or ends the trial. */
  lemma FailingOn(upstream: nat -> Outcome, key: Bytes, before: seq<string>, calls: seq<string>, status: int)
    requires Failing(upstream, key, before, calls, status) && |calls| < |before| + MAX_ATTEMPTS
    ensures var o := upstream(|calls|);
            if Retryable(o) then
              Failing(upstream, key, before, calls + [key], if o.Status? then o.code else status)
            else
              Tried(upstream, key, before, calls + [key], Some(o.code), o.code)
    ensures before <= calls
  {
  }

  lemma SleepBounds()
    ensures SleepBound(1) == 0 && SleepBound(2) == 499_999_999 && SleepBound(3) == SleepBound(4) == 1_499_999_998
    ensures DelayBound(1) == 500_000_000 && DelayBound(2) == 1_000_000_000
  {
    DelayBounds(1);
    DelayBounds(2);
  }

  /** What the delay behind an attempt stays below: doubled each time, and capped. */
  function DelayBound(attempt: nat): int
    requires attempt >= 1
  {
    Min(RETRY_MAX_DELAY, RETRY_BASE_DELAY * Pow2(attempt - 1))
  }

  /** Half a second, one, two, and four from then on. */
  lemma DelayBounds(attempt: nat)
    requires attempt >= 1
    ensures DelayBound(attempt) == if attempt == 1 then 500_000_000
                                   else if attempt == 2 then 1_000_000_000
                                   else if attempt == 3 then 2_000_000_000
                                   else 4_000_000_000
  {
    assert Pow2(0) == 1 && Pow2(1) == 2 && Pow2(2) == 4;
    if attempt > 3 {
      DoublesToEight(attempt - 1);
    }
  }

  lemma {:induction false} DoublesToEight(n: nat)
    requires n >= 3
    ensures Pow2(n) >= 8
  {
    if n > 3 {
      DoublesToEight(n - 1);
    } else {
      assert Pow2(0) == 1 && Pow2(1) == 2 && Pow2(2) == 4;
    }
  }

  lemma RecordedNext(told: seq<Record>, upstream: nat -> Outcome, calls: seq<string>, from: nat, key: string)
    requires from <= |calls|
    ensures told + RecordsOf(upstream, calls, from) + [RecordOf(key, upstream(|calls|))] ==
            told + RecordsOf(upstream, calls + [key], from)
  {
    hide RecordsOf, RecordOf;
    RecordsOfSnoc(upstream, calls, from, key);
    var rs, r := RecordsOf(upstream, calls, from), [RecordOf(key, upstream(|calls|))];
    assert told + rs + r == told + (rs + r);
  }

  lemma FailedThrice(upstream: nat -> Outcome, key: Bytes, before: seq<string>, calls: seq<string>, status: int)
    requires Failing(upstream, key, before, calls, status) && |calls| == |before| + MAX_ATTEMPTS
    ensures Tried(upstream, key, before, calls, None, status)
  {
  }

  /** What one request through the chain did: the provider, model and status of the streamed response. */
  datatype Served = Served(key: Bytes, model: Bytes, status: int)

  /** A run through the chain: request j goes to entry j/3, only the last can have succeeded, a response is
      served exactly when it did, and nothing is served only when every entry failed three times; then the
      reported status is the last one of the last provider. */
  ghost predicate WentThrough(
    upstream: nat -> Outcome, chain: seq<Target>, before: seq<string>, calls: seq<string>,
    served: Option<Served>, attempted: seq<Bytes>, lastStatus: int)
  {
    && RequestsFollow(chain, before, calls)
    && AllRetryable(upstream, |before|, |calls| - 1)
    && |attempted| <= |chain| && (forall i :: 0 <= i < |attempted| ==> attempted[i] == chain[i].providerKey)
    && MAX_ATTEMPTS * |attempted| - 2 <= |calls| - |before| <= MAX_ATTEMPTS * |attempted|
    && match served
       case Some(s) =>
         && |before| < |calls| && !Retryable(upstream(|calls| - 1))
         && upstream(|calls| - 1) == Status(s.status) && s.key == calls[|calls| - 1]
       case None =>
         && |attempted| == |chain| && |calls| == |before| + MAX_ATTEMPTS * |chain|
         && AllRetryable(upstream, |before|, |calls|)
         && (chain != [] ==> lastStatus == LastStatus(upstream, |calls| - MAX_ATTEMPTS, |calls|))
  }

  /** When a run through the chain fails, the status that is reported is that of the latest response to any of
      its requests exactly when the last provider responded or nobody did. */
  lemma StatusIsLatestIff(
    upstream: nat -> Outcome, chain: seq<Target>, before: seq<string>, calls: seq<string>,
    attempted: seq<Bytes>, lastStatus: int)
    requires WentThrough(upstream, chain, before, calls, None, attempted, lastStatus) && chain != []
    ensures lastStatus == LastStatus(upstream, |before|, |calls|) <==>
            Responded(upstream, |calls| - MAX_ATTEMPTS, |calls|) || !Responded(upstream, |before|, |calls|)
  {
    hide LastStatus, Responded, RequestsFollow;
    LastThreeDecide(upstream, |before|, |calls|);
  }

  /** A run of two providers: the first answers 500, the second cannot be reached, and 0 is reported. */
  lemma LatestStatusLost(first: Target, second: Target)
    ensures var upstream := (j: nat) => if j < 3 then Status(500) else TransportError;
            var a, b := first.providerKey, second.providerKey;
            var calls := [a, a, a, b, b, b];
            && WentThrough(upstream, [first, second], [], calls, None, [a, b], 0)
            && LastStatus(upstream, 0, |calls|) == 500
  {
    var upstream := (j: nat) => if j < 3 then Status(500) else TransportError;
    assert LastStatus(upstream, 0, 3) == 500;
    assert LastStatus(upstream, 0, 4) == 500 && LastStatus(upstream, 3, 4) == 0;
    assert LastStatus(upstream, 0, 5) == 500 && LastStatus(upstream, 3, 5) == 0;
  }

  lemma FollowMore(chain: seq<Target>, before: seq<string>, mid: seq<string>, calls: seq<string>, i: nat)
    requires i < |chain| && RequestsFollow(chain, before, mid) && |mid| == |before| + MAX_ATTEMPTS * i
    requires mid <= calls && |calls| <= |mid| + MAX_ATTEMPTS
    requires forall j :: |mid| <= j < |calls| ==> calls[j] == chain[i].providerKey
    ensures RequestsFollow(chain, before, calls)
  {
    forall j | |before| <= j < |calls| ensures calls[j] == chain[(j - |before|) / MAX_ATTEMPTS].providerKey {
      if j < |mid| {
        assert calls[j] == mid[j];
      } else {
        assert (j - |before|) / MAX_ATTEMPTS == i;
      }
    }
  }

  lemma FollowPrefix(chain: seq<Target>, n: nat, before: seq<string>, calls: seq<string>)
    requires n <= |chain| && RequestsFollow(chain[..n], before, calls)
    ensures RequestsFollow(chain, before, calls)
  {}

  lemma WentNowhere(upstream: nat -> Outcome, chain: seq<Target>, calls: seq<string>)
    ensures WentThrough(upstream, chain[..0], calls, calls, None, [], 0)
    ensures RecordsOf(upstream, calls, |calls|) == []
  {}

  lemma TriedExtends(
    upstream: nat -> Outcome, key: Bytes, before: seq<string>, calls: seq<string>, answer: Option<int>, status: int)
    requires Tried(upstream, key, before, calls, answer, status)
    ensures before <= calls
  {}

  /** One more provider after i that all failed. */
  lemma WentFurther(
    upstream: nat -> Outcome, chain: seq<Target>, i: nat, before: seq<string>, mid: seq<string>, calls: seq<string>,
    attempted: seq<Bytes>, oldStatus: int, served: Option<Served>, status: int)
    requires i < |chain| && WentThrough(upstream, chain[..i], before, mid, None, attempted, oldStatus)
    requires Tried(upstream, chain[i].providerKey, mid, calls,
                   if served.Some? then Some(served.value.status) else None, status)
    requires served.Some? ==> served.value.key == chain[i].providerKey
    ensures served.Some? ==>
              WentThrough(upstream, chain, before, calls, served, attempted + [chain[i].providerKey], oldStatus)
    ensures served.None? ==>
              WentThrough(upstream, chain[..i + 1], before, calls, None, attempted + [chain[i].providerKey], status)
  {
    FollowPrefix(chain, i, before, mid);
    FollowMore(chain, before, mid, calls, i);
    if served.None? {
      FollowPrefix(chain[..i + 1], i, before, mid) by {
        assert chain[..i + 1][..i] == chain[..i];
      }
      FollowMore(chain[..i + 1], before, mid, calls, i);
    }
  }

  lemma WentBounds(
    upstream: nat -> Outcome, chain: seq<Target>, before: seq<string>, calls: seq<string>,
    served: Option<Served>, attempted: seq<Bytes>, lastStatus: int)
    requires WentThrough(upstream, chain, before, calls, served, attempted, lastStatus) && 1 <= |chain| <= 3
    ensures |before| < |calls| <= |before| + 9 && calls[|before|] == chain[0].providerKey
    ensures served.Some? <==> !Retryable(upstream(|calls| - 1))
    ensures AllRetryable(upstream, |before|, |calls| - 1)
  {
    assert (|before| - |before|) / MAX_ATTEMPTS == 0;
  }

  /** What is served and what is retried, by status: 408, 429, 500, 502, 503, 504 and transport errors are
      retried, everything else is served. */
  lemma ServedByStatus(
    upstream: nat -> Outcome, chain: seq<Target>, before: seq<string>, calls: seq<string>,
    served: Option<Served>, attempted: seq<Bytes>, lastStatus: int)
    requires WentThrough(upstream, chain, before, calls, served, attempted, lastStatus) && 1 <= |chain| <= 3
    ensures |before| < |calls|
    ensures served.Some? ==>
              served.value.status !in {408, 429, 500, 502, 503, 504} &&
              upstream(|calls| - 1) == Status(served.value.status)
    ensures upstream(|calls| - 1).Status? && upstream(|calls| - 1).code !in {408, 429, 500, 502, 503, 504} ==>
              served.Some?
    ensures forall j :: |before| <= j < |calls| - 1 ==>
              upstream(j).TransportError? || upstream(j).code in {408, 429, 500, 502, 503, 504}
    ensures forall j :: |before| <= j < |calls| ==> calls[j] == chain[(j - |before|) / 3].providerKey
    ensures served.None? ==> |calls| == |before| + 3 * |chain|
    ensures |attempted| == (|calls| - |before| + 2) / 3 <= |chain|
  {
    forall j | |before| <= j < |calls| - 1
      ensures upstream(j).TransportError? || upstream(j).code in {408, 429, 500, 502, 503, 504}
    {
      assert Retryable(upstream(j));
    }
  }

  lemma ChainLength(fallbacks: nat)
    ensures 1 <= Min(3, 1 + fallbacks) <= 3
  {
  }

  /** A served response leaves one momentum decision in its session, and none without a session. */
  ghost predicate Remembered(
    before: seq<M.Decision>, after: seq<M.Decision>, session: string, key: Bytes, model: Bytes)
  {
    if session == "" then after == before
    else
      && |after| == |before| + 1 && after[..|before|] == before
      && after[|before|].session == session && after[|before|].provider == key && after[|before|].model == model
  }

  // ---- the clock ----

  /** The readings in a breaker log are in order, and none is later than now. */
  ghost predicate InOrder(log: seq<Call>, now: int) {
    Monotone(log) && Clock(log) <= now
  }

  lemma InOrderStat(
    log: seq<Call>, before: int, key: string, success: bool, ms: int, status: int, now: int, later: int)
    requires InOrder(log, before) && before <= now <= later
    ensures InOrder(log + [StatCall(key, success, ms, status, now, later)], later)
  {
    var c := StatCall(key, success, ms, status, now, later);
    assert (log + [c])[..|log|] == log;
  }

  lemma StillInOrder(log: seq<Call>, now: int, later: int)
    requires InOrder(log, now) && now <= later
    ensures InOrder(log, later)
  {
  }

  lemma InOrderSilent(log: seq<Call>, now: int, c: Call)
    requires InOrder(log, now) && (c.UsageCall? || c.CostCall?)
    ensures InOrder(log + [c], now)
  {
    assert (log + [c])[..|log|] == log;
  }

  /** So the schedule of probes holds after any traffic: a probe that the breakers let start comes no earlier
      than its outage's opening plus the waits before it. */
  lemma ProbesAfterTraffic(log: seq<Call>, now: int, key: string, at: int, later: int)
    requires InOrder(log, now) && now <= at <= later
    requires ProbeStarts(log + [ProbeCall(key, at, later)], key)
    ensures var o := OutageOf(log + [ProbeCall(key, at, later)], key);
            o.Some? && o.value.probes >= 1 && at >= o.value.openedAt + WaitSum(o.value.probes)
  {
    hide ProbeStarts, OutageOf, WaitSum;
    var c := ProbeCall(key, at, later);
    assert (log + [c])[..|log|] == log;
    ProbeNotBefore(log + [c], key);
  }

  class Server {
    const resolver: Resolver
    const breakers: Breakers
    const momentum: M.Momentum
    const upstream: nat -> Outcome
    var calls: seq<string>
    var slept: int
    var now: int

    constructor (
      resolver: Resolver, breakers: Breakers, momentum: M.Momentum, upstream: nat -> Outcome, start: int)
      ensures this.resolver == resolver && this.breakers == breakers && this.momentum == momentum
      ensures this.upstream == upstream && calls == [] && slept == 0 && now == start
    {
      this.resolver, this.breakers, this.momentum, this.upstream := resolver, breakers, momentum, upstream;
      calls, slept, now := [], 0, start;
    }

    ghost predicate Valid()
      reads this`now, breakers, momentum
    {
      breakers.Valid() && momentum.Valid() && InOrder(breakers.log, now)
    }

    method ReadClock() returns (t: int)
      modifies this`now
      ensures t == now >= old(now)
    {
      t :| t >= now;
      now := t;
    }

    method DoRequest(t: Target) returns (o: Outcome)
      modifies this`calls
      ensures calls == old(calls) + [t.providerKey] && o == upstream(|old(calls)|)
    {
      o := upstream(|calls|);
      calls := calls + [t.providerKey];
    }

    /** Exponential backoff with full jitter: any delay below the capped base. The shift of the base overflows
        int64 from attempt 36 on, and only the first two are ever asked for. */
    method RetryBackoff(attempt: nat) returns (d: int)
      requires 1 <= attempt <= 35
      ensures 0 <= d < DelayBound(attempt)
    {
      DelayBounds(attempt);
      var base := RETRY_BASE_DELAY * Pow2(attempt - 1);
      if base > RETRY_MAX_DELAY {
        base := RETRY_MAX_DELAY;
      }
      d :| 0 <= d < base;
    }

    method Report(key: Bytes, success: bool, status: int)
      requires Valid()
      modifies breakers, this`now
      ensures Valid()
      ensures Records(breakers.log) == old(Records(breakers.log)) + [Record(key, success, status)]
    {
      hide InOrder, Run, Records;
      ghost var before := now;
      var start := ReadClock();
      var end := ReadClock();
      var later := ReadClock();
      InOrderStat(breakers.log, before, key, success, (end - start) / MILLISECOND, status, end, later);
      RecordsSnoc(breakers.log, StatCall(key, success, (end - start) / MILLISECOND, status, end, later));
      breakers.RecordStat(key, success, (end - start) / MILLISECOND, status, end, later);
    }

    /** One attempt: a request, reported at once when its outcome is retryable. */
    method Attempt(t: Target) returns (o: Outcome)
      requires Valid()
      modifies this`calls, this`now, breakers
      ensures Valid()
      ensures calls == old(calls) + [t.providerKey] && o == upstream(|old(calls)|)
      ensures Records(breakers.log) ==
              old(Records(breakers.log)) + (if Retryable(o) then [RecordOf(t.providerKey, o)] else [])
    {
      hide Run, Records, InOrder, M.History, M.LastN;
      o := DoRequest(t);
      if o.TransportError? {
        Report(t.providerKey, false, 0);
      } else if Retryable(o) {
        Report(t.providerKey, false, o.code);
      }
    }

    /** requestWithRetry: failed attempts are reported, an answer is left to the caller to report. */
    method RequestWithRetry(t: Target) returns (response: Option<int>, lastStatus: int)
      requires Valid()
      modifies this, breakers
      ensures Valid()
      ensures Tried(upstream, t.providerKey, old(calls), calls, response, lastStatus)
      ensures Records(breakers.log) ==
              old(Records(breakers.log)) +
              RecordsOf(upstream, if response.Some? then calls[..|calls| - 1] else calls, |old(calls)|)
      ensures 0 <= slept - old(slept) <= 1_499_999_999
    {
      hide Run, Records, InOrder, M.History, M.LastN, Valid, Failing, Tried, RecordsOf, RecordOf, SleepBound;
      hide DelayBound;
      lastStatus := 0;
      var attempt := 1;
      FailingStarts(upstream, t.providerKey, calls);
      SleepBounds();
      ghost var told := Records(breakers.log);
      assert told + [] == told;
      while attempt <= MAX_ATTEMPTS
        invariant 1 <= attempt <= MAX_ATTEMPTS + 1 && Valid()
        invariant |calls| == |old(calls)| + attempt - 1
        invariant Failing(upstream, t.providerKey, old(calls), calls, lastStatus)
        invariant Records(breakers.log) == told + RecordsOf(upstream, calls, |old(calls)|)
        invariant 0 <= slept - old(slept) <= SleepBound(attempt)
      {
        ghost var before := calls;
        RecordedNext(told, upstream, before, |old(calls)|, t.providerKey);
        FailingOn(upstream, t.providerKey, old(calls), before, lastStatus);
        var o := Attempt(t);
        if o.Status? {
          if !Retryable(o) {
            assert calls[..|calls| - 1] == before;
            return Some(o.code), o.code;
          }
          lastStatus := o.code;
        }
        if attempt < MAX_ATTEMPTS {
          var d := RetryBackoff(attempt);
          slept := slept + d;
        }
        attempt := attempt + 1;
      }
      FailedThrice(upstream, t.providerKey, old(calls), calls, lastStatus);
      return None, lastStatus;
    }

    /** What forward writes down after a response: its success, the momentum and the usage. */
    method Account(session: string, t: Target, status: int)
      requires Valid()
      modifies breakers, momentum, this`now
      ensures Valid()
      ensures Records(breakers.log) == old(Records(breakers.log)) + [Record(t.providerKey, true, status)]
      ensures Remembered(old(momentum.log), momentum.log, session, t.providerKey, t.model)
    {
      hide Run, Records, InOrder, M.History, M.LastN;
      Report(t.providerKey, true, status);
      ghost var before := now;
      var at := ReadClock();
      StillInOrder(breakers.log, before, at);
      momentum.Record(session, t.providerKey, t.model, at);
      var input: int, output: int, cost: real := *, *, *;
      if input != 0 || output != 0 {
        InOrderSilent(breakers.log, now, UsageCall(t.providerKey, input, output));
        RecordsSnoc(breakers.log, UsageCall(t.providerKey, input, output));
        breakers.RecordUsage(t.providerKey, input, output);
        if cost > 0.0 {
          InOrderSilent(breakers.log, now, CostCall(t.providerKey, cost));
          RecordsSnoc(breakers.log, CostCall(t.providerKey, cost));
          breakers.RecordCost(t.providerKey, cost);
        }
      }
    }

    /** One provider of the chain: its requests, and the bookkeeping if one of them is answered. */
    method TryProvider(t: Target, session: string) returns (served: Option<Served>, status: int)
      requires Valid()
      modifies this, breakers, momentum
      ensures Valid()
      ensures Tried(upstream, t.providerKey, old(calls), calls,
                    if served.Some? then Some(served.value.status) else None, status)
      ensures served.Some? ==> served.value.key == t.providerKey
      ensures if served.None? then momentum.log == old(momentum.log)
              else Remembered(old(momentum.log), momentum.log, session, served.value.key, served.value.model)
      ensures Records(breakers.log) == old(Records(breakers.log)) + RecordsOf(upstream, calls, |old(calls)|)
      ensures 0 <= slept - old(slept) <= 1_499_999_999
    {
      hide Run, Records, InOrder, M.History, M.LastN;
      var response;
      response, status := RequestWithRetry(t);
      if response.None? {
        return None, status;
      }
      RecordsOfSnoc(upstream, calls[..|calls| - 1], |old(calls)|, t.providerKey);
      assert calls == calls[..|calls| - 1] + [t.providerKey];
      Account(session, t, response.value);
      served := Some(Served(t.providerKey, t.model, response.value));
    }

    /** The loop of forward over a chain. */
    method ForwardChain(chain: seq<Target>, session: string)
      returns (served: Option<Served>, attempted: seq<Bytes>, lastStatus: int)
      requires Valid()
      modifies this, breakers, momentum
      ensures Valid()
      ensures WentThrough(upstream, chain, old(calls), calls, served, attempted, lastStatus)
      ensures if served.None? then momentum.log == old(momentum.log)
              else Remembered(old(momentum.log), momentum.log, session, served.value.key, served.value.model)
      ensures Records(breakers.log) == old(Records(breakers.log)) + RecordsOf(upstream, calls, |old(calls)|)
      ensures 0 <= slept - old(slept) <= 1_499_999_999 * |chain|
    {
      attempted, lastStatus := [], 0;
      WentNowhere(upstream, chain, calls);
      hide *;
      for i := 0 to |chain|
        invariant Valid() && momentum.log == old(momentum.log)
        invariant |old(calls)| <= |calls| && old(calls) <= calls
        invariant WentThrough(upstream, chain[..i], old(calls), calls, None, attempted, lastStatus)
        invariant Records(breakers.log) == old(Records(breakers.log)) + RecordsOf(upstream, calls, |old(calls)|)
        invariant 0 <= slept - old(slept) <= 1_499_999_999 * i
      {
        ghost var before := calls;
        var status;
        served, status := TryProvider(chain[i], session);
        TriedExtends(upstream, chain[i].providerKey, before, calls,
                     if served.Some? then Some(served.value.status) else None, status);
        WentFurther(upstream, chain, i, old(calls), before, calls, attempted, lastStatus, served, status);
        RecordsGrow(old(Records(breakers.log)), upstream, before, calls, |old(calls)|);
        attempted := attempted + [chain[i].providerKey];
        if served.Some? {
          return;
        }
        lastStatus := status;
      }
      assert chain[..|chain|] == chain;
      served := None;
    }

    /** The primary, the healthy fallbacks reordered by momentum, cut to three. */
    method BuildChain(target: Target, session: string) returns (chain: seq<Target>)
      requires Valid()
      ensures ChainOf(target, Fallbacks(resolver.cfg, target, target.fallbacks), chain, session,
                      momentum.Recent(session), Run(breakers.log))
    {
      hide Run, Records, InOrder, M.History, M.LastN, Reordered, Fallbacks;
      var ts := resolver.FallbackTargets(target);
      var healthy: seq<Target> := [];
      for i := 0 to |ts|
        invariant healthy == HealthyOnly(ts[..i], Run(breakers.log))
      {
        assert ts[..i + 1][..i] == ts[..i];
        var ok := breakers.IsHealthy(ts[i].providerKey);
        if ok {
          healthy := healthy + [ts[i]];
        }
      }
      assert ts[..|ts|] == ts;
      var full := [target] + healthy;
      var a := new Target[|full|](i requires 0 <= i < |full| => full[i]);
      assert a[..] == full;
      Reorder(a, session);
      ghost var reordered := a[..];
      if a.Length > MAX_CHAIN {
        chain := a[..MAX_CHAIN];
      } else {
        chain := a[..];
      }
      assert chain == Truncated(reordered);
    }

    method Reorder(chain: array<Target>, session: string)
      requires Valid()
      modifies chain
      ensures Reordered(old(chain[..]), chain[..], session, momentum.Recent(session), Run(breakers.log))
    {
      hide Run, Records, InOrder, M.History, M.LastN;
      if chain.Length > 1 && session != "" {
        var preferred, votes, known := momentum.Get(session);
        var healthy := breakers.IsHealthy(preferred);
        if known && preferred != "" && 5 * votes >= 2 * M.RING && healthy {
          assert Applies(Run(breakers.log), preferred, votes);
          MoveToIndex1(chain, preferred);
        } else {
          assert known ==> !Applies(Run(breakers.log), preferred, votes);
          MoveFreeToIndex1(chain);
        }
      }
    }

    /** forward: a run through the chain that buildChain made, with one record for each request. Never more
        than nine requests and 4.5 seconds of sleeping. Nothing served is the friendly error. */
    method Forward(target: Target, session: string)
      returns (served: Option<Served>, attempted: seq<Bytes>, lastStatus: int, ghost chain: seq<Target>)
      requires Valid()
      modifies this, breakers, momentum
      ensures Valid()
      ensures ChainOf(target, Fallbacks(resolver.cfg, target, target.fallbacks), chain, session,
                      old(momentum.Recent(session)), old(Run(breakers.log)))
      ensures WentThrough(upstream, chain, old(calls), calls, served, attempted, lastStatus)
      ensures Answered(RecordsOf(upstream, calls, |old(calls)|)) == if served.Some? then 1 else 0
      ensures if served.None? then momentum.log == old(momentum.log)
              else Remembered(old(momentum.log), momentum.log, session, served.value.key, served.value.model)
      ensures |old(calls)| < |calls| <= |old(calls)| + 9 && calls[|old(calls)|] == target.providerKey
      ensures served.Some? <==> !Retryable(upstream(|calls| - 1))
      ensures served.Some? ==>
                served.value.status !in {408, 429, 500, 502, 503, 504} &&
                upstream(|calls| - 1) == Status(served.value.status)
      ensures upstream(|calls| - 1).Status? && upstream(|calls| - 1).code !in {408, 429, 500, 502, 503, 504} ==>
                served.Some?
      ensures forall j :: |old(calls)| <= j < |calls| - 1 ==>
                upstream(j).TransportError? || upstream(j).code in {408, 429, 500, 502, 503, 504}
      ensures 0 <= slept - old(slept) < 4_500_000_000
      ensures Records(breakers.log) == old(Records(breakers.log)) + RecordsOf(upstream, calls, |old(calls)|)
    {
      hide *;
      var providers;
      providers := BuildChain(target, session);
      chain := providers;
      ghost var fallbacks := Fallbacks(resolver.cfg, target, target.fallbacks);
      ChainShape(target, fallbacks, chain, session, momentum.Recent(session), Run(breakers.log));
      ChainLength(|HealthyOnly(fallbacks, Run(breakers.log))|);
      served, attempted, lastStatus := ForwardChain(providers, session);
      WentBounds(upstream, chain, old(calls), calls, served, attempted, lastStatus);
      ServedByStatus(upstream, chain, old(calls), calls, served, attempted, lastStatus);
      OneAnswer(upstream, calls, |old(calls)|);
    }
  }

  lemma {:induction false} RecordsOfJoin(upstream: nat -> Outcome, calls: seq<string>, from: nat, mid: nat)
    requires from <= mid <= |calls|
    ensures RecordsOf(upstream, calls, from) ==
            RecordsOf(upstream, calls[..mid], from) + RecordsOf(upstream, calls, mid)
    decreases |calls|
  {
    if |calls| == mid {
      assert calls[..mid] == calls;
    } else {
      var n := |calls| - 1;
      RecordsOfJoin(upstream, calls[..n], from, mid);
      assert calls[..n][..mid] == calls[..mid];
    }
  }

  lemma RecordsGrow(told: seq<Record>, upstream: nat -> Outcome, mid: seq<string>, calls: seq<string>, from: nat)
    requires from <= |mid| && mid <= calls
    ensures told + RecordsOf(upstream, mid, from) + RecordsOf(upstream, calls, |mid|) ==
            told + RecordsOf(upstream, calls, from)
  {
    hide RecordsOf;
    RecordsOfJoin(upstream, calls, from, |mid|);
    assert calls[..|mid|] == mid;
    var a, b := RecordsOf(upstream, mid, from), RecordsOf(upstream, calls, |mid|);
    assert told + a + b == told + (a + b);
  }

  /** The number of recorded successes, of any provider. */
  function Answered(rs: seq<Record>): nat {
    if rs == [] then 0 else Answered(rs[..|rs| - 1]) + if rs[|rs| - 1].success then 1 else 0
  }

  /** When all requests but the last were retryable, there is one success if the last was answered, else none. */
  lemma {:induction false} OneAnswer(upstream: nat -> Outcome, calls: seq<string>, from: nat)
    requires from < |calls| && AllRetryable(upstream, from, |calls| - 1)
    ensures |RecordsOf(upstream, calls, from)| == |calls| - from
    ensures Answered(RecordsOf(upstream, calls, from)) == if Retryable(upstream(|calls| - 1)) then 0 else 1
    decreases |calls|
  {
    var n := |calls| - 1;
    var rs := RecordsOf(upstream, calls[..n], from);
    assert (rs + [RecordOf(calls[n], upstream(n))])[..|rs|] == rs;
    if from < n {
      OneAnswer(upstream, calls[..n], from);
    }
  }

  /** Requests to a provider from number `from` on, all of them or only the answered ones. */
  function Requests(upstream: nat -> Outcome, calls: seq<string>, from: nat, key: string, onlyAnswered: bool): nat
    requires from <= |calls|
    decreases |calls|
  {
    if |calls| == from then 0
    else
      var n := |calls| - 1;
      Requests(upstream, calls[..n], from, key, onlyAnswered) +
      if calls[n] == key && (onlyAnswered ==> !Retryable(upstream(n))) then 1 else 0
  }

  /** The counters of a provider grow by its requests, and its successes by its answered requests. */
  lemma CountersFollowRequests(before: seq<Call>, after: seq<Call>, upstream: nat -> Outcome, calls: seq<string>,
                               from: nat, key: string)
    requires from <= |calls| && key != ""
    requires Records(after) == Records(before) + RecordsOf(upstream, calls, from)
    ensures var s, s' := StatOf(Run(before), key), StatOf(Run(after), key);
            && s'.requests - s.requests == Requests(upstream, calls, from, key, false)
            && s'.successes - s.successes == Requests(upstream, calls, from, key, true)
  {
    var rs := RecordsOf(upstream, calls, from);
    StatsAreCounts(before, key);
    StatsAreCounts(after, key);
    TallyIsRecords(before, key);
    TallyIsRecords(after, key);
    CountRecordsConcat(Records(before), rs, key, false);
    CountRecordsConcat(Records(before), rs, key, true);
    RecordsCounted(upstream, calls, from, key, false);
    RecordsCounted(upstream, calls, from, key, true);
  }

  lemma {:induction false} RecordsCounted(
    upstream: nat -> Outcome, calls: seq<string>, from: nat, key: string, onlyAnswered: bool)
    requires from <= |calls|
    ensures CountRecords(RecordsOf(upstream, calls, from), key, onlyAnswered) ==
            Requests(upstream, calls, from, key, onlyAnswered)
    decreases |calls|
  {
    if |calls| > from {
      var n := |calls| - 1;
      RecordsCounted(upstream, calls[..n], from, key, onlyAnswered);
      CountRecordsConcat(RecordsOf(upstream, calls[..n], from), [RecordOf(calls[n], upstream(n))], key, onlyAnswered);
    }
  }
}
