/** Recent successful provider decisions per session (internal/resilience/momentum.go:12-73). */
module Momentum {

  const RING := 5

  datatype Decision = Decision(session: string, provider: string, model: string, at: int)

  /** The last n decisions. */
  function LastN<T>(s: seq<T>, n: nat): (r: seq<T>)
    ensures |r| <= n && |r| <= |s|
  {
    if |s| > n then s[|s| - n..] else s
  }

  /** All decisions of one session, oldest first. */
  function History(log: seq<Decision>, session: string): seq<Decision> {
    if log == [] then []
    else
      History(log[..|log| - 1], session) +
      (if log[|log| - 1].session == session then [log[|log| - 1]] else [])
  }

  function Votes(decisions: seq<Decision>, provider: string): nat {
    if decisions == [] then 0
    else
      Votes(decisions[..|decisions| - 1], provider) +
      (if decisions[|decisions| - 1].provider == provider then 1 else 0)
  }

  lemma {:induction false} VotesPositive(decisions: seq<Decision>, provider: string)
    ensures Votes(decisions, provider) > 0 <==> exists i :: 0 <= i < |decisions| && decisions[i].provider == provider
    ensures Votes(decisions, provider) <= |decisions|
  {
    if decisions != [] {
      VotesPositive(decisions[..|decisions| - 1], provider);
    }
  }

  lemma VotesNone()
    ensures forall p :: Votes([], p) == 0
  {
  }

  lemma VotesNext(decisions: seq<Decision>, i: nat)
    requires i < |decisions|
    ensures forall p :: Votes(decisions[..i + 1], p) ==
                        Votes(decisions[..i], p) + if decisions[i].provider == p then 1 else 0
  {
    assert decisions[..i + 1][..i] == decisions[..i];
  }

  lemma HistorySnoc(log: seq<Decision>, d: Decision, session: string)
    ensures History(log + [d], session) == History(log, session) + (if d.session == session then [d] else [])
  {
    assert (log + [d])[..|log|] == log;
  }

  /** Appending to a ring and trimming it is taking the last five of the longer history. */
  lemma RingStep(history: seq<Decision>, d: Decision)
    ensures LastN(history + [d], RING) == LastN(LastN(history, RING) + [d], RING)
  {}

  /** Of the last five decisions of the session, `preferred` made the most, `votes` of them. */
  ghost predicate Favourite(recent: seq<Decision>, preferred: string, votes: nat) {
    && votes == Votes(recent, preferred) > 0
    && forall p :: Votes(recent, p) <= votes
  }

  class Momentum {
    var entries: map<string, seq<Decision>>
    ghost var log: seq<Decision>

    /** Each ring holds the last five recorded decisions of its session. */
    ghost predicate Valid()
      reads this
    {
      && (forall s :: s in entries ==> entries[s] == LastN(History(log, s), RING))
      && (forall s :: s !in entries ==> History(log, s) == [])
      && "" !in entries
    }

    ghost function Recent(session: string): seq<Decision>
      reads this
    {
      LastN(History(log, session), RING)
    }

    constructor ()
      ensures Valid() && log == []
    {
      entries, log := map[], [];
    }

    method Record(session: string, provider: string, model: string, now: int)
      requires Valid()
      modifies this
      ensures Valid()
      ensures log == if session == "" then old(log) else old(log) + [Decision(session, provider, model, now)]
    {
      hide History;
      if session == "" {
        return;
      }
      var d := Decision(session, provider, model, now);
      RecordedHistory(d);
      var e := (if session in entries then entries[session] else []) + [d];
      if |e| > RING {
        e := e[|e| - RING..];
      }
      entries := entries[session := e];
      log := log + [d];
    }

    lemma RecordedHistory(d: Decision)
      requires Valid()
      ensures forall s :: s != d.session ==> History(log + [d], s) == History(log, s)
      ensures History(log + [d], d.session) == History(log, d.session) + [d]
      ensures LastN(History(log + [d], d.session), RING) ==
              LastN((if d.session in entries then entries[d.session] else []) + [d], RING)
    {
      forall s | s != d.session ensures History(log + [d], s) == History(log, s) {
        HistorySnoc(log, d, s);
      }
      HistorySnoc(log, d, d.session);
      RingStep(History(log, d.session), d);
    }

    /** The most frequent provider and its share of the ring; which of several is open, as the source
        ranges over a map. The confidence is votes / 5. */
    method Get(session: string) returns (preferred: string, votes: nat, ok: bool)
      requires Valid()
      ensures ok <==> session != "" && Recent(session) != []
      ensures ok ==> Favourite(Recent(session), preferred, votes) && votes <= RING
      ensures !ok ==> preferred == "" && votes == 0
    {
      if session == "" || session !in entries || |entries[session]| == 0 {
        return "", 0, false;
      }
      hide History, LastN, Votes;
      var e := entries[session];
      var counts: map<string, nat> := map[];
      VotesNone();
      assert e[..0] == [];
      for i := 0 to |e|
        invariant forall p :: p in counts ==> counts[p] == Votes(e[..i], p)
        invariant forall p :: p !in counts ==> Votes(e[..i], p) == 0
      {
        var p := e[i].provider;
        VotesNext(e, i);
        counts := counts[p := (if p in counts then counts[p] else 0) + 1];
      }
      assert e[..|e|] == e;
      var best, max := "", 0;
      var todo := counts.Keys;
      while todo != {}
        invariant todo <= counts.Keys
        invariant forall p :: p in counts && p !in todo ==> counts[p] <= max
        invariant max > 0 ==> best in counts && counts[best] == max
        decreases todo
      {
        var p :| p in todo;
        todo := todo - {p};
        if counts[p] > max {
          max := counts[p];
          best := p;
        }
      }
      VotesPositive(e, e[0].provider);
      VotesPositive(e, best);
      return best, max, true;
    }
  }

  /** The recent decisions are the last five of the session, or all of them if there are fewer. */
  lemma RecentIsLastFive(log: seq<Decision>, session: string)
    ensures var h, recent := History(log, session), LastN(History(log, session), RING);
            if |h| >= 5 then |recent| == 5 && recent == h[|h| - 5..] else recent == h
  {
  }
}
