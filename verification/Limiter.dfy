/** The concurrency limiter under every interleaving (internal/proxy/concurrency.go). Each atomic action
    of acquire and of the release function is one step of one thread; any thread may step at any time. */
module Limiter {

  /** Where a thread stands in acquire or release. */
  datatype Phase =
    | Idle        // before acquire, or after release or a timeout
    | Waiting     // waiting incremented, in the select
    | Sent        // its token is in the channel, active not yet incremented
    | Counted     // active incremented, the deferred waiting decrement still to run
    | Holding     // acquire returned a release function
    | Received    // release took a token out, active not yet decremented
    | TimedOut    // the timer won the select, the deferred waiting decrement still to run

  datatype Action = Enter | Send | CountIn | Return | Receive | CountOut | Expire | GiveUp

  type Thread = nat

  /** The channel's tokens, the two atomics, and every thread that is not idle. */
  datatype Pool = Pool(limit: nat, tokens: int, active: int, waiting: int, threads: map<Thread, Phase>)

  /** newSlotPool */
  function NewPool(limit: int): Pool {
    Pool(if limit < 1 then 1 else limit, 0, 0, 0, map[])
  }

  function PhaseOf(p: Pool, t: Thread): Phase {
    if t in p.threads then p.threads[t] else Idle
  }

  function From(a: Action): Phase {
    match a
    case Enter => Idle
    case Send => Waiting
    case CountIn => Sent
    case Return => Counted
    case Receive => Holding
    case CountOut => Received
    case Expire => Waiting
    case GiveUp => TimedOut
  }

  function To(a: Action): Phase {
    match a
    case Enter => Waiting
    case Send => Sent
    case CountIn => Counted
    case Return => Holding
    case Receive => Received
    case CountOut => Idle
    case Expire => TimedOut
    case GiveUp => Idle
  }

  /** A send blocks on a full channel, a receive on an empty one. */
  predicate Enabled(p: Pool, t: Thread, a: Action) {
    && PhaseOf(p, t) == From(a)
    && (a.Send? ==> p.tokens < p.limit)
    && (a.Receive? ==> p.tokens > 0)
  }

  function Effect(p: Pool, a: Action): Pool {
    match a
    case Enter => p.(waiting := p.waiting + 1)
    case Send => p.(tokens := p.tokens + 1)
    case CountIn => p.(active := p.active + 1)
    case Return => p.(waiting := p.waiting - 1)
    case Receive => p.(tokens := p.tokens - 1)
    case CountOut => p.(active := p.active - 1)
    case Expire => p
    case GiveUp => p.(waiting := p.waiting - 1)
  }

  /** A blocked action does not happen. */
  function Step(p: Pool, t: Thread, a: Action): Pool {
    if Enabled(p, t, a) then Effect(p, a).(threads := p.threads[t := To(a)]) else p
  }

  // ---- counting threads ----

  function InPhases(threads: map<Thread, Phase>, phases: set<Phase>): set<Thread> {
    set t | t in threads && threads[t] in phases
  }

  function Number(p: Pool, phases: set<Phase>): nat {
    |InPhases(p.threads, phases)|
  }

  lemma NumberStep(threads: map<Thread, Phase>, t: Thread, to: Phase, phases: set<Phase>)
    ensures |InPhases(threads[t := to], phases)| ==
            |InPhases(threads, phases)| + (if to in phases then 1 else 0) -
            (if t in threads && threads[t] in phases then 1 else 0)
  {
    var before, after := InPhases(threads, phases), InPhases(threads[t := to], phases);
    assert after - {t} == before - {t};
    assert after == if to in phases then (before - {t}) + {t} else before - {t};
  }

  const HAS_TOKEN := {Sent, Counted, Holding}
  const COUNTED_ACTIVE := {Counted, Holding, Received}
  const COUNTED_WAITING := {Waiting, Sent, Counted, TimedOut}

  /** Tokens, active and waiting each count the threads that stand between their increment and decrement. */
  ghost predicate Consistent(p: Pool) {
    && p.limit >= 1
    && 0 <= p.tokens <= p.limit
    && p.tokens == Number(p, HAS_TOKEN)
    && p.active == Number(p, COUNTED_ACTIVE)
    && p.waiting == Number(p, COUNTED_WAITING)
  }

  lemma StepConsistent(p: Pool, t: Thread, a: Action)
    requires Consistent(p)
    ensures Consistent(Step(p, t, a)) && Step(p, t, a).limit == p.limit
  {
    NumberStep(p.threads, t, To(a), HAS_TOKEN);
    NumberStep(p.threads, t, To(a), COUNTED_ACTIVE);
    NumberStep(p.threads, t, To(a), COUNTED_WAITING);
  }

  // ---- the two pools ----

  datatype System = System(defaultPool: Pool, subagentPool: Pool)

  datatype Move = Move(slot: string, thread: Thread, action: Action)

  predicate Subagent(slot: string) {
    slot == "sub" || slot == "subagent"
  }

  function NewSystem(defaultMax: int, subagentMax: int): System {
    System(NewPool(defaultMax), NewPool(subagentMax))
  }

  function Apply(s: System, m: Move): System {
    if Subagent(m.slot) then s.(subagentPool := Step(s.subagentPool, m.thread, m.action))
    else s.(defaultPool := Step(s.defaultPool, m.thread, m.action))
  }

  /** Any interleaving of any number of threads. */
  function Run(s: System, moves: seq<Move>): System {
    if moves == [] then s else Apply(Run(s, moves[..|moves| - 1]), moves[|moves| - 1])
  }

  lemma {:induction false} AlwaysConsistent(defaultMax: int, subagentMax: int, moves: seq<Move>)
    ensures var s := Run(NewSystem(defaultMax, subagentMax), moves);
            && Consistent(s.defaultPool) && Consistent(s.subagentPool)
            && s.defaultPool.limit == (if defaultMax < 1 then 1 else defaultMax)
            && s.subagentPool.limit == (if subagentMax < 1 then 1 else subagentMax)
  {
    if moves != [] {
      var n := |moves| - 1;
      AlwaysConsistent(defaultMax, subagentMax, moves[..n]);
      var s := Run(NewSystem(defaultMax, subagentMax), moves[..n]);
      StepConsistent(s.defaultPool, moves[n].thread, moves[n].action);
      StepConsistent(s.subagentPool, moves[n].thread, moves[n].action);
    }
  }

  lemma NumberSplit(p: Pool, a: set<Phase>, b: set<Phase>)
    requires a !! b
    ensures Number(p, a + b) == Number(p, a) + Number(p, b)
  {
    var x, y := InPhases(p.threads, a), InPhases(p.threads, b);
    assert InPhases(p.threads, a + b) == x + y;
    assert x !! y;
  }

  /** In every reachable state the monitored numbers are tied to the channel: active exceeds the tokens
      exactly by the threads in mid-release less those in mid-acquire. */
  lemma ActiveMeetsTokens(p: Pool)
    requires Consistent(p)
    ensures p.active + Number(p, {Sent}) == p.tokens + Number(p, {Received})
    ensures 0 <= p.active <= p.limit + Number(p, {Received})
    ensures p.active > p.limit <==> Number(p, {Received}) > (p.limit - p.tokens) + Number(p, {Sent})
    ensures p.waiting >= 0
  {
    var both := {Counted, Holding};
    NumberSplit(p, {Sent}, both);
    NumberSplit(p, {Received}, both);
    assert {Sent} + both == HAS_TOKEN && {Received} + both == COUNTED_ACTIVE;
  }

  /** At quiescence active is the number of holders, nobody is waiting, and no permit is lost: without
      holders every token is back and a waiting thread can take one. */
  lemma Quiescence(p: Pool)
    requires Consistent(p)
    requires forall t :: t in p.threads ==> p.threads[t].Idle? || p.threads[t].Holding?
    ensures p.active == p.tokens == Number(p, {Holding}) <= p.limit && p.waiting == 0
    ensures Number(p, {Holding}) == 0 ==> p.tokens < p.limit
  {
    assert InPhases(p.threads, HAS_TOKEN) == InPhases(p.threads, {Holding});
    assert InPhases(p.threads, COUNTED_ACTIVE) == InPhases(p.threads, {Holding});
    assert InPhases(p.threads, COUNTED_WAITING) == {};
  }

  /** A release never blocks: whoever holds a permit finds a token to take out. */
  lemma ReleaseEnabled(p: Pool, t: Thread)
    requires Consistent(p) && PhaseOf(p, t).Holding?
    ensures Enabled(p, t, Receive)
  {
    assert t in InPhases(p.threads, HAS_TOKEN);
  }

  /** An acquire is refused only while every permit is taken. */
  lemma BlockedOnlyWhenFull(p: Pool, t: Thread)
    requires Consistent(p) && PhaseOf(p, t).Waiting?
    ensures !Enabled(p, t, Send) <==> Number(p, HAS_TOKEN) == p.limit
  {}

  function OfPool(moves: seq<Move>, subagent: bool): seq<Move> {
    if moves == [] then []
    else
      var m := moves[|moves| - 1];
      OfPool(moves[..|moves| - 1], subagent) + (if Subagent(m.slot) == subagent then [m] else [])
  }

  /** Neither pool affects the other: each ends as if only its own moves had been made. */
  lemma {:induction false} PoolsIndependent(s: System, moves: seq<Move>)
    ensures Run(s, moves).defaultPool == Run(s, OfPool(moves, false)).defaultPool
    ensures Run(s, moves).subagentPool == Run(s, OfPool(moves, true)).subagentPool
  {
    if moves != [] {
      var init, m := moves[..|moves| - 1], moves[|moves| - 1];
      PoolsIndependent(s, init);
      RunSnoc(s, OfPool(init, Subagent(m.slot)), m);
      assert OfPool(init, !Subagent(m.slot)) + [] == OfPool(init, !Subagent(m.slot));
    }
  }

  lemma RunSnoc(s: System, moves: seq<Move>, m: Move)
    ensures Run(s, moves + [m]) == Apply(Run(s, moves), m)
  {
    assert (moves + [m])[..|moves|] == moves;
  }

  /** The bound on active is tight: with one permit, a release that has taken its token out but not yet
      decremented lets a second thread in, and both are counted active. */
  lemma ActiveCanExceedLimit()
    ensures var held := Step(Step(Step(Step(NewPool(1), 0, Enter), 0, Send), 0, CountIn), 0, Return);
            var releasing := Step(held, 0, Receive);
            var second := Step(Step(Step(releasing, 1, Enter), 1, Send), 1, CountIn);
            second.limit == 1 && second.active == 2 && second.tokens == 1
  {}

  /** Only the slots "sub" and "subagent" use the subagent pool, and they use no other. */
  lemma {:induction false} SlotPools(s: System, moves: seq<Move>)
    ensures (forall m :: m in moves ==> m.slot != "sub" && m.slot != "subagent") ==>
              Run(s, moves).subagentPool == s.subagentPool
    ensures (forall m :: m in moves ==> m.slot == "sub" || m.slot == "subagent") ==>
              Run(s, moves).defaultPool == s.defaultPool
  {
    hide Step;
    if moves != [] {
      var init, m := moves[..|moves| - 1], moves[|moves| - 1];
      assert m in moves;
      SlotPools(s, init);
    }
  }

  /** In every reachable state of a full pool the next acquire of the other pool is still possible. */
  lemma OtherPoolFree(defaultMax: int, subagentMax: int, moves: seq<Move>, t: Thread)
    requires forall m :: m in moves ==> m.slot == "sub" || m.slot == "subagent"
    ensures var s := Run(NewSystem(defaultMax, subagentMax), moves);
            var waiting := Apply(s, Move("opus", t, Enter));
            Apply(waiting, Move("opus", t, Send)).defaultPool.tokens == 1
  {
    SlotPools(NewSystem(defaultMax, subagentMax), moves);
  }
}
