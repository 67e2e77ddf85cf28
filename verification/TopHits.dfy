/** The ranking of search results in terms of the results that were read
    (internal/servertools/fanout.go:86-155). */
module TopHits {
  import opened MergeRank

  /** The sources that report a key. */
  function SourcesOf(normalize: string -> string, occs: seq<Occurrence>, key: string): set<string> {
    set i | 0 <= i < |occs| && Key(normalize, occs[i].result) == key :: occs[i].source
  }

  /** The weight of the best of some sources. */
  function BestWeight(sources: set<string>): real {
    if "exa" in sources || "parallel" in sources then 3.0
    else if "keenable" in sources then 2.5
    else if "wikipedia" in sources then 2.0
    else 1.0
  }

  /** More agreeing sources, or as many and none lighter. */
  predicate Outranks(a: set<string>, b: set<string>) {
    |a| > |b| || (|a| == |b| && BestWeight(a) >= BestWeight(b))
  }

  lemma HitSources(normalize: string -> string, occs: seq<Occurrence>, key: string, h: Hit)
    requires HitOf(normalize, occs, key, h)
    ensures h.sources == SourcesOf(normalize, occs, key) && h.sources != {}
  {
    hide SourceWeight, Key;
    var found := SourcesOf(normalize, occs, key);
    forall s ensures s in h.sources <==> s in found {
      if s in h.sources {
        var i :| At(normalize, occs, key, i) && occs[i].source == s;
      }
      if s in found {
        var i :| 0 <= i < |occs| && Key(normalize, occs[i].result) == key && occs[i].source == s;
        assert At(normalize, occs, key, i);
      }
    }
    var i :| At(normalize, occs, key, i);
    assert occs[i].source in h.sources;
  }

  /** A hit carries the weight of its best source. */
  lemma HitWeight(normalize: string -> string, occs: seq<Occurrence>, key: string, h: Hit)
    requires HitOf(normalize, occs, key, h)
    ensures h.weight == BestWeight(h.sources)
  {
    hide SourceWeight;
    var i :| At(normalize, occs, key, i) && SourceWeight(occs[i].source) == h.weight;
    assert occs[i].source in h.sources;
    forall s | s in h.sources ensures SourceWeight(s) <= h.weight {
      var j :| At(normalize, occs, key, j) && occs[j].source == s;
    }
    BestIs(h.sources, occs[i].source);
  }

  lemma BestIs(sources: set<string>, best: string)
    requires best in sources && forall s :: s in sources ==> SourceWeight(s) <= SourceWeight(best)
    ensures SourceWeight(best) == BestWeight(sources)
  {
    hide SourceWeight;
    Weights(best);
    Weights("exa");
    Weights("parallel");
    Weights("keenable");
    Weights("wikipedia");
  }

  lemma Weights(s: string)
    ensures SourceWeight(s) == if s == "exa" || s == "parallel" then 3.0
                               else if s == "keenable" then 2.5
                               else if s == "wikipedia" then 2.0
                               else 1.0
  {
  }

  lemma NotBetterOutranked(a: Hit, b: Hit)
    requires !Better(b, a) && a.weight == BestWeight(a.sources) && b.weight == BestWeight(b.sources)
    ensures Outranks(a.sources, b.sources)
  {
  }

  predicate Reported(normalize: string -> string, occs: seq<Occurrence>, key: string) {
    exists i :: 0 <= i < |occs| && Key(normalize, occs[i].result) == key
  }

  /** The kept keys, in the order of the output: distinct and reported, each with its merged result, none
      outranked by a later or a dropped one. */
  ghost predicate KeptBest(
    normalize: string -> string, occs: seq<Occurrence>, kept: seq<string>, out: seq<SearchResult>)
  {
    && |kept| == |out|
    && (forall i :: 0 <= i < |kept| ==>
          Reported(normalize, occs, kept[i]) &&
          exists h :: HitOf(normalize, occs, kept[i], h) && h.result == out[i])
    && (forall i, j :: 0 <= i < j < |kept| ==>
          kept[i] != kept[j] &&
          Outranks(SourcesOf(normalize, occs, kept[i]), SourcesOf(normalize, occs, kept[j])))
    && (forall i, k :: 0 <= i < |kept| && Reported(normalize, occs, k) && k !in kept ==>
          Outranks(SourcesOf(normalize, occs, kept[i]), SourcesOf(normalize, occs, k)))
  }

  lemma PairOutranks(normalize: string -> string, occs: seq<Occurrence>, byURL: map<string, Hit>, a: string, b: string)
    requires Merged(normalize, occs, byURL) && a in byURL && b in byURL && !Better(byURL[b], byURL[a])
    ensures Outranks(SourcesOf(normalize, occs, a), SourcesOf(normalize, occs, b))
  {
    hide HitOf, Better, Outranks, SourcesOf;
    HitSources(normalize, occs, a, byURL[a]);
    HitSources(normalize, occs, b, byURL[b]);
    HitWeight(normalize, occs, a, byURL[a]);
    HitWeight(normalize, occs, b, byURL[b]);
    NotBetterOutranked(byURL[a], byURL[b]);
  }

  lemma ReportedIsMerged(normalize: string -> string, occs: seq<Occurrence>, byURL: map<string, Hit>, k: string)
    requires Merged(normalize, occs, byURL)
    ensures Reported(normalize, occs, k) <==> k in byURL
  {
    hide SourceWeight, Key;
    if k in byURL {
      assert HitOf(normalize, occs, k, byURL[k]);
      var i :| At(normalize, occs, k, i);
    }
  }

  /** The output of a search: min(limit, reported keys) results of the keys that the most sources agree on, and
      among those of the keys with the heaviest source. */
  lemma OutputIsBest(normalize: string -> string, occs: seq<Occurrence>, limit: nat, out: seq<SearchResult>)
    requires IsTopK(normalize, occs, limit, out)
    ensures exists kept :: KeptBest(normalize, occs, kept, out)
    ensures |out| == if limit < |Distinct(normalize, occs)| then limit else |Distinct(normalize, occs)|
  {
    hide HitOf, Better, Outranks, SourcesOf, Reported, Distinct, IsTopK, Key;
    TopKIsBest(normalize, occs, limit, out);
    var byURL: map<string, Hit>, kept: seq<string> :|
      Merged(normalize, occs, byURL) && BestKept(byURL, kept) && |kept| == |out| && Leading(byURL, kept, |out|, out);
    forall i | 0 <= i < |kept|
      ensures Reported(normalize, occs, kept[i])
      ensures exists h :: HitOf(normalize, occs, kept[i], h) && h.result == out[i]
    {
      ReportedIsMerged(normalize, occs, byURL, kept[i]);
      assert HitOf(normalize, occs, kept[i], byURL[kept[i]]);
    }
    forall i, j | 0 <= i < j < |kept|
      ensures Outranks(SourcesOf(normalize, occs, kept[i]), SourcesOf(normalize, occs, kept[j]))
    {
      PairOutranks(normalize, occs, byURL, kept[i], kept[j]);
    }
    forall i, k | 0 <= i < |kept| && Reported(normalize, occs, k) && k !in kept
      ensures Outranks(SourcesOf(normalize, occs, kept[i]), SourcesOf(normalize, occs, k))
    {
      ReportedIsMerged(normalize, occs, byURL, k);
      PairOutranks(normalize, occs, byURL, kept[i], k);
    }
    assert KeptBest(normalize, occs, kept, out);
  }

  // ---- byte order ----

  /** One string stops inside the other, or they part at a byte. */
  ghost predicate Precedes(a: string, b: string) {
    exists k :: 0 <= k <= |a| && k < |b| && a[..k] == b[..k] && (k == |a| || a[k] < b[k])
  }

  lemma {:induction false} LessIsByteOrder(a: string, b: string)
    ensures Less(a, b) <==> Precedes(a, b)
  {
    if a != "" && b != "" && a[0] == b[0] {
      LessIsByteOrder(a[1..], b[1..]);
      if Less(a, b) {
        var k :| 0 <= k <= |a[1..]| && k < |b[1..]| && a[1..][..k] == b[1..][..k] &&
                 (k == |a[1..]| || a[1..][k] < b[1..][k]);
        assert a[..k + 1] == [a[0]] + a[1..][..k] && b[..k + 1] == [b[0]] + b[1..][..k];
        assert Precedes(a, b);
      }
      if Precedes(a, b) {
        var k :| 0 <= k <= |a| && k < |b| && a[..k] == b[..k] && (k == |a| || a[k] < b[k]);
        PrecedesTails(a, b, k);
      }
    } else {
      FirstBytesDiffer(a, b);
    }
  }

  lemma PrecedesTails(a: string, b: string, k: nat)
    requires a != "" && b != "" && a[0] == b[0]
    requires k <= |a| && k < |b| && a[..k] == b[..k] && (k == |a| || a[k] < b[k])
    ensures Precedes(a[1..], b[1..])
  {
    assert k > 0;
    assert a[1..][..k - 1] == a[..k][1..] && b[1..][..k - 1] == b[..k][1..];
  }

  lemma FirstBytesDiffer(a: string, b: string)
    requires a == "" || b == "" || a[0] != b[0]
    ensures Less(a, b) <==> Precedes(a, b)
  {
    if b != "" && (a == "" || a[0] < b[0]) {
      assert a[..0] == b[..0];
    }
    if Precedes(a, b) {
      var k :| 0 <= k <= |a| && k < |b| && a[..k] == b[..k] && (k == |a| || a[k] < b[k]);
      FirstSame(a, b, k);
    }
  }

  lemma FirstSame(a: string, b: string, k: nat)
    requires k <= |a| && k <= |b| && a[..k] == b[..k]
    ensures k > 0 ==> a != "" && b != "" && a[0] == b[0]
  {
    if k > 0 {
      assert a[..k][0] == b[..k][0];
    }
  }
}
