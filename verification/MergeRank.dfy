/** Merging and ranking of search results from several sources (internal/servertools/fanout.go:86-155). */
module MergeRank {

  datatype SearchResult = SearchResult(title: string, url: string, snippet: string)

  /** One result of one source, in the order in which the merge reads them. */
  datatype Occurrence = Occurrence(source: string, result: SearchResult)

  datatype Hit = Hit(result: SearchResult, sources: set<string>, weight: real)

  /** normalizeURL is net/url's work; any function will do. An empty normal form falls back to the URL. */
  function Key(normalize: string -> string, r: SearchResult): string {
    if normalize(r.url) == "" then r.url else normalize(r.url)
  }

  function SourceWeight(name: string): real {
    if name == "exa" || name == "parallel" then 3.0
    else if name == "keenable" then 2.5
    else if name == "wikipedia" then 2.0
    else 1.0
  }

  // ---- sorted source names ----

  /** Byte order of Go strings. */
  predicate Less(a: string, b: string) {
    b != "" && (a == "" || a[0] < b[0] || (a[0] == b[0] && Less(a[1..], b[1..])))
  }

  lemma {:induction false} LessTotal(a: string, b: string)
    ensures Less(a, b) || a == b || Less(b, a)
  {
    if a != "" && b != "" && a[0] == b[0] {
      LessTotal(a[1..], b[1..]);
      assert a == [a[0]] + a[1..] && b == [b[0]] + b[1..];
    }
  }

  lemma {:induction false} LessTransitive(a: string, b: string, c: string)
    requires Less(a, b) && Less(b, c)
    ensures Less(a, c)
  {
    if a != "" && a[0] == b[0] == c[0] {
      LessTransitive(a[1..], b[1..], c[1..]);
    }
  }

  ghost predicate SortedNames(names: seq<string>, all: set<string>) {
    && (forall i, j :: 0 <= i < j < |names| ==> Less(names[i], names[j]))
    && (forall n :: n in names <==> n in all)
  }

  /** The keys of a map in byte order: sort.Strings on its distinct keys. */
  method SortedKeys(all: set<string>) returns (names: seq<string>)
    ensures SortedNames(names, all)
  {
    names := [];
    var left := all;
    while left != {}
      invariant left <= all
      invariant SortedNames(names, all - left)
      invariant forall n, m :: n in names && m in left ==> Less(n, m)
      decreases left
    {
      var least :| least in left;
      var todo := left - {least};
      while todo != {}
        invariant todo <= left && least in left
        invariant forall m :: m in left && m !in todo && m != least ==> Less(least, m)
        decreases todo
      {
        var m :| m in todo;
        LessTotal(m, least);
        if Less(m, least) {
          forall x | x in left && x !in todo && x != least ensures Less(m, x) {
            LessTransitive(m, least, x);
          }
          least := m;
        }
        todo := todo - {m};
      }
      names := names + [least];
      left := left - {least};
    }
  }

  // ---- what a merged hit is ----

  /** All results in reading order: by sorted source name, then by position. */
  function Occurrences(collected: map<string, seq<SearchResult>>, names: seq<string>): seq<Occurrence>
    requires forall n :: n in names ==> n in collected
  {
    if names == [] then []
    else
      var n := |names| - 1;
      Occurrences(collected, names[..n]) + OfSource(names[n], collected[names[n]])
  }

  function OfSource(source: string, results: seq<SearchResult>): seq<Occurrence> {
    seq(|results|, i requires 0 <= i < |results| => Occurrence(source, results[i]))
  }

  ghost predicate At(normalize: string -> string, occs: seq<Occurrence>, key: string, i: int) {
    0 <= i < |occs| && Key(normalize, occs[i].result) == key
  }

  /** The hit of a key: URL of the first occurrence, first non-empty title, first longest snippet, exactly
      the sources that reported it, and the greatest of their weights. */
  ghost predicate HitOf(normalize: string -> string, occs: seq<Occurrence>, key: string, h: Hit) {
    && (exists i :: At(normalize, occs, key, i) && occs[i].result.url == h.result.url &&
                    forall j :: At(normalize, occs, key, j) ==> i <= j)
    && (if h.result.title == "" then forall j :: At(normalize, occs, key, j) ==> occs[j].result.title == ""
        else exists i :: At(normalize, occs, key, i) && occs[i].result.title == h.result.title &&
                         forall j :: At(normalize, occs, key, j) && j < i ==> occs[j].result.title == "")
    && (exists i :: At(normalize, occs, key, i) && occs[i].result.snippet == h.result.snippet &&
                    (forall j :: At(normalize, occs, key, j) ==> |occs[j].result.snippet| <= |h.result.snippet|) &&
                    (forall j :: At(normalize, occs, key, j) && j < i ==>
                       |occs[j].result.snippet| < |h.result.snippet|))
    && (forall s :: s in h.sources <==> exists i :: At(normalize, occs, key, i) && occs[i].source == s)
    && (exists i :: At(normalize, occs, key, i) && SourceWeight(occs[i].source) == h.weight)
    && (forall i :: At(normalize, occs, key, i) ==> SourceWeight(occs[i].source) <= h.weight)
  }

  /** The map holds exactly the keys that occur, each with its hit. */
  ghost predicate Merged(normalize: string -> string, occs: seq<Occurrence>, byURL: map<string, Hit>) {
    && (forall i :: 0 <= i < |occs| ==> Key(normalize, occs[i].result) in byURL)
    && (forall k :: k in byURL ==> HitOf(normalize, occs, k, byURL[k]))
  }

  // ---- ranking ----

  /** More agreeing sources first, then the heavier source. */
  predicate Better(a: Hit, b: Hit) {
    |a.sources| > |b.sources| || (|a.sources| == |b.sources| && a.weight > b.weight)
  }

  /** Some order of all keys in which no key is better than an earlier one. */
  ghost predicate Ranking(byURL: map<string, Hit>, ranked: seq<string>) {
    && (forall k :: k in ranked <==> k in byURL)
    && (forall i, j :: 0 <= i < j < |ranked| ==> ranked[i] != ranked[j])
    && (forall i, j :: 0 <= i < j < |ranked| ==>
          ranked[i] in byURL && ranked[j] in byURL && !Better(byURL[ranked[j]], byURL[ranked[i]]))
  }

  lemma {:induction false} DistinctCount(ranked: seq<string>, all: set<string>)
    requires forall k :: k in ranked <==> k in all
    requires forall i, j :: 0 <= i < j < |ranked| ==> ranked[i] != ranked[j]
    ensures |ranked| == |all|
    decreases |ranked|
  {
    if ranked != [] {
      var n := |ranked| - 1;
      assert ranked == ranked[..n] + [ranked[n]];
      DistinctCount(ranked[..n], all - {ranked[n]});
    } else {
      assert all == {};
    }
  }

  /** sort.Slice is not stable and says nothing about ties: pick any best remaining hit, again and again. */
  method RankHits(byURL: map<string, Hit>) returns (ranked: seq<string>)
    ensures Ranking(byURL, ranked)
  {
    ranked := [];
    var left := byURL.Keys;
    while left != {}
      invariant left <= byURL.Keys
      invariant forall k :: k in ranked <==> k in byURL && k !in left
      invariant forall i, j :: 0 <= i < j < |ranked| ==> ranked[i] != ranked[j]
      invariant forall i, j :: 0 <= i < j < |ranked| ==> !Better(byURL[ranked[j]], byURL[ranked[i]])
      invariant forall i, k :: 0 <= i < |ranked| && k in left ==> !Better(byURL[k], byURL[ranked[i]])
      decreases left
    {
      SomeBest(byURL, left);
      var best :| Best(byURL, left, best);
      ranked := ranked + [best];
      left := left - {best};
    }
  }

  /** No key of the set is better than b. */
  predicate Best(byURL: map<string, Hit>, keys: set<string>, b: string) {
    keys <= byURL.Keys && b in keys && forall k :: k in keys ==> !Better(byURL[k], byURL[b])
  }

  lemma BetterTransitive(a: Hit, b: Hit, c: Hit)
    requires Better(a, b) && Better(b, c)
    ensures Better(a, c)
  {}

  lemma {:induction false} SomeBest(byURL: map<string, Hit>, keys: set<string>)
    requires keys != {} && keys <= byURL.Keys
    ensures exists b :: Best(byURL, keys, b)
    decreases keys
  {
    var x :| x in keys;
    if keys == {x} {
      assert Best(byURL, keys, x);
    } else {
      SomeBest(byURL, keys - {x});
      var b :| Best(byURL, keys - {x}, b);
      if Better(byURL[x], byURL[b]) {
        forall k | k in keys ensures !Better(byURL[k], byURL[x]) {
          if k != x && Better(byURL[k], byURL[x]) {
            BetterTransitive(byURL[k], byURL[x], byURL[b]);
          }
        }
        assert Best(byURL, keys, x);
      } else {
        assert Best(byURL, keys, b);
      }
    }
  }

  // ---- merging ----

  /** One result read: the map stays merged. */
  method AddResult(normalize: string -> string, ghost occs: seq<Occurrence>, byURL: map<string, Hit>,
                   src: string, r: SearchResult) returns (byURL': map<string, Hit>)
    requires Merged(normalize, occs, byURL)
    ensures Merged(normalize, occs + [Occurrence(src, r)], byURL')
  {
    hide HitOf, SourceWeight, Merged;
    var key := normalize(r.url);
    if key == "" {
      key := r.url;
    }
    ghost var occ := Occurrence(src, r);
    if key !in byURL {
      byURL' := byURL[key := Hit(r, {src}, SourceWeight(src))];
      FirstHit(normalize, occs, byURL, occ);
    } else {
      var h := byURL[key];
      var title, snippet, weight := h.result.title, h.result.snippet, h.weight;
      var w := SourceWeight(src);
      if w > weight {
        weight := w;
      }
      if title == "" && r.title != "" {
        title := r.title;
      }
      if |r.snippet| > |snippet| {
        snippet := r.snippet;
      }
      var h' := Hit(SearchResult(title, h.result.url, snippet), h.sources + {src}, weight);
      byURL' := byURL[key := h'];
      MergedHit(normalize, occs, byURL, key);
      NextHit(normalize, occs, key, h, occ, h');
    }
    StillMerged(normalize, occs, byURL, occ, byURL'[key]);
  }

  lemma MergedHit(normalize: string -> string, occs: seq<Occurrence>, byURL: map<string, Hit>, key: string)
    requires Merged(normalize, occs, byURL) && key in byURL
    ensures HitOf(normalize, occs, key, byURL[key])
  {
    hide HitOf;
  }

  /** The hits of the other keys are untouched. */
  lemma StillMerged(
    normalize: string -> string, occs: seq<Occurrence>, byURL: map<string, Hit>, occ: Occurrence, h: Hit)
    requires Merged(normalize, occs, byURL)
    requires HitOf(normalize, occs + [occ], Key(normalize, occ.result), h)
    ensures Merged(normalize, occs + [occ], byURL[Key(normalize, occ.result) := h])
  {
    hide HitOf;
    var key := Key(normalize, occ.result);
    forall k | k in byURL && k != key ensures HitOf(normalize, occs + [occ], k, byURL[k]) {
      OtherHit(normalize, occs, k, byURL[k], occ);
    }
  }

  lemma AtSnoc(normalize: string -> string, occs: seq<Occurrence>, key: string, occ: Occurrence)
    ensures forall i :: At(normalize, occs + [occ], key, i) <==>
                        At(normalize, occs, key, i) || (i == |occs| && Key(normalize, occ.result) == key)
  {}

  lemma FirstHit(normalize: string -> string, occs: seq<Occurrence>, byURL: map<string, Hit>, occ: Occurrence)
    requires Merged(normalize, occs, byURL) && Key(normalize, occ.result) !in byURL
    ensures HitOf(normalize, occs + [occ], Key(normalize, occ.result),
                  Hit(occ.result, {occ.source}, SourceWeight(occ.source)))
  {
    var key := Key(normalize, occ.result);
    AtSnoc(normalize, occs, key, occ);
    assert forall i :: !At(normalize, occs, key, i);
    assert At(normalize, occs + [occ], key, |occs|);
  }

  lemma OtherHit(normalize: string -> string, occs: seq<Occurrence>, key: string, h: Hit, occ: Occurrence)
    requires HitOf(normalize, occs, key, h) && Key(normalize, occ.result) != key
    ensures HitOf(normalize, occs + [occ], key, h)
  {
    AtSnoc(normalize, occs, key, occ);
  }

  lemma NextHit(normalize: string -> string, occs: seq<Occurrence>, key: string, h: Hit, occ: Occurrence, h': Hit)
    requires HitOf(normalize, occs, key, h) && Key(normalize, occ.result) == key
    requires h'.result.url == h.result.url && h'.sources == h.sources + {occ.source}
    requires h'.result.title == if h.result.title == "" then occ.result.title else h.result.title
    requires h'.result.snippet ==
             if |occ.result.snippet| > |h.result.snippet| then occ.result.snippet else h.result.snippet
    requires h'.weight == if SourceWeight(occ.source) > h.weight then SourceWeight(occ.source) else h.weight
    ensures HitOf(normalize, occs + [occ], key, h')
  {
    hide SourceWeight, Key;
    AtSnoc(normalize, occs, key, occ);
    assert At(normalize, occs + [occ], key, |occs|);
  }

  /** The output is the results of the first `limit` keys of some ranking of the merged hits. */
  ghost predicate IsTopK(normalize: string -> string, occs: seq<Occurrence>, limit: nat, out: seq<SearchResult>) {
    exists byURL: map<string, Hit>, ranked: seq<string> ::
      Merged(normalize, occs, byURL) && Ranking(byURL, ranked) && Leading(byURL, ranked, limit, out)
  }

  ghost predicate Leading(byURL: map<string, Hit>, ranked: seq<string>, limit: nat, out: seq<SearchResult>) {
    && |out| == (if limit < |ranked| then limit else |ranked|)
    && (forall i :: 0 <= i < |out| ==> ranked[i] in byURL && out[i] == byURL[ranked[i]].result)
  }

  /** One source read. */
  method AddSource(normalize: string -> string, ghost occs: seq<Occurrence>, byURL: map<string, Hit>,
                   src: string, results: seq<SearchResult>) returns (byURL': map<string, Hit>)
    requires Merged(normalize, occs, byURL)
    ensures Merged(normalize, occs + OfSource(src, results), byURL')
  {
    hide Merged;
    byURL' := byURL;
    ghost var done := occs;
    assert occs + OfSource(src, results[..0]) == occs;
    for i := 0 to |results|
      invariant done == occs + OfSource(src, results[..i])
      invariant Merged(normalize, done, byURL')
    {
      byURL' := AddResult(normalize, done, byURL', src, results[i]);
      assert done + [Occurrence(src, results[i])] == occs + OfSource(src, results[..i + 1]);
      done := done + [Occurrence(src, results[i])];
    }
    assert results[..|results|] == results;
  }

  /** The answer to a search: sources are read in byte order of their names. */
  ghost predicate IsAnswer(normalize: string -> string, collected: map<string, seq<SearchResult>>,
                           names: seq<string>, limit: nat, out: seq<SearchResult>)
  {
    SortedNames(names, collected.Keys) && IsTopK(normalize, Occurrences(collected, names), limit, out)
  }

  method MergeAndRank(normalize: string -> string, collected: map<string, seq<SearchResult>>, limit: nat)
    returns (out: seq<SearchResult>)
    ensures exists names :: IsAnswer(normalize, collected, names, limit, out)
  {
    var byURL: map<string, Hit> := map[];
    var sorted := SortedKeys(collected.Keys);
    NothingMerged(normalize);
    hide Merged;
    for s := 0 to |sorted|
      invariant Merged(normalize, Occurrences(collected, sorted[..s]), byURL)
    {
      assert sorted[..s + 1][..s] == sorted[..s];
      byURL := AddSource(normalize, Occurrences(collected, sorted[..s]), byURL, sorted[s], collected[sorted[s]]);
    }
    assert sorted[..|sorted|] == sorted;
    var ranked := RankHits(byURL);
    out := TakeResults(byURL, ranked, limit);
    assert IsAnswer(normalize, collected, sorted, limit, out);
  }

  /** The source names in byte order are determined by the sources. */
  lemma {:induction false} NamesUnique(all: set<string>, a: seq<string>, b: seq<string>)
    requires SortedNames(a, all) && SortedNames(b, all)
    ensures a == b
    decreases |a|
  {
    NoNames(all, a);
    NoNames(all, b);
    if a != [] {
      SameFirstName(all, a, b);
      DropFirstName(all, a);
      DropFirstName(all, b);
      NamesUnique(all - {a[0]}, a[1..], b[1..]);
      assert a == [a[0]] + a[1..] && b == [b[0]] + b[1..];
    }
  }

  lemma {:induction false} LessIrreflexive(a: string, b: string)
    requires Less(a, b)
    ensures !Less(b, a) && a != b
  {
    if a != "" && a[0] == b[0] {
      LessIrreflexive(a[1..], b[1..]);
    }
  }

  lemma NoNames(all: set<string>, a: seq<string>)
    requires SortedNames(a, all)
    ensures a == [] <==> all == {}
  {
    hide Less;
    if a != [] {
      assert a[0] in a;
    }
    if all != {} {
      var n :| n in all;
      assert n in a;
    }
  }

  lemma SameFirstName(all: set<string>, a: seq<string>, b: seq<string>)
    requires SortedNames(a, all) && SortedNames(b, all) && a != []
    ensures b != [] && a[0] == b[0]
  {
    hide Less;
    assert a[0] in a && a[0] in b;
    assert b[0] in b && b[0] in a;
    if a[0] != b[0] {
      assert Less(b[0], a[0]);
      assert Less(a[0], b[0]);
      LessIrreflexive(a[0], b[0]);
    }
  }

  lemma DropFirstName(all: set<string>, a: seq<string>)
    requires SortedNames(a, all) && a != []
    ensures SortedNames(a[1..], all - {a[0]})
  {
    hide Less;
    forall n ensures n in a[1..] <==> n in all - {a[0]} {
      assert a == [a[0]] + a[1..];
      if n in a[1..] {
        var i :| 0 <= i < |a[1..]| && a[1..][i] == n;
        assert Less(a[0], a[i + 1]);
        LessIrreflexive(a[0], a[i + 1]);
        assert n in a;
      }
    }
  }

  lemma NothingMerged(normalize: string -> string)
    ensures Merged(normalize, [], map[])
  {}

  method TakeResults(byURL: map<string, Hit>, ranked: seq<string>, limit: nat) returns (out: seq<SearchResult>)
    requires Ranking(byURL, ranked)
    ensures Leading(byURL, ranked, limit, out)
  {
    out := [];
    var i := 0;
    while i < |ranked| && i < limit
      invariant 0 <= i <= |ranked| && i <= limit && |out| == i
      invariant forall j :: 0 <= j < i ==> out[j] == byURL[ranked[j]].result
    {
      out := out + [byURL[ranked[i]].result];
      i := i + 1;
    }
  }

  // ---- what the ranking determines ----

  function Distinct(normalize: string -> string, occs: seq<Occurrence>): set<string> {
    set i | 0 <= i < |occs| :: Key(normalize, occs[i].result)
  }

  /** The hit of a key is determined by the occurrences. */
  lemma HitUnique(normalize: string -> string, occs: seq<Occurrence>, key: string, a: Hit, b: Hit)
    requires HitOf(normalize, occs, key, a) && HitOf(normalize, occs, key, b)
    ensures a == b
  {
    hide SourceWeight;
    assert a.sources == b.sources;
    SnippetUnique(normalize, occs, key, a, b);
    TitleUnique(normalize, occs, key, a, b);
  }

  lemma SnippetUnique(normalize: string -> string, occs: seq<Occurrence>, key: string, a: Hit, b: Hit)
    requires HitOf(normalize, occs, key, a) && HitOf(normalize, occs, key, b)
    ensures a.result.snippet == b.result.snippet
  {
    hide Key, SourceWeight;
  }

  lemma TitleUnique(normalize: string -> string, occs: seq<Occurrence>, key: string, a: Hit, b: Hit)
    requires HitOf(normalize, occs, key, a) && HitOf(normalize, occs, key, b)
    ensures a.result.title == b.result.title
  {
    hide Key, SourceWeight;
  }

  lemma MergedUnique(normalize: string -> string, occs: seq<Occurrence>, a: map<string, Hit>, b: map<string, Hit>)
    requires Merged(normalize, occs, a) && Merged(normalize, occs, b)
    ensures a == b && a.Keys == Distinct(normalize, occs)
  {
    hide Distinct, HitOf;
    MergedKeys(normalize, occs, a);
    MergedKeys(normalize, occs, b);
    forall k | k in a ensures k in b && a[k] == b[k] {
      assert k in b.Keys;
      HitUnique(normalize, occs, k, a[k], b[k]);
    }
    assert forall k :: k in b ==> k in a.Keys;
  }

  lemma MergedKeys(normalize: string -> string, occs: seq<Occurrence>, m: map<string, Hit>)
    requires Merged(normalize, occs, m)
    ensures m.Keys == Distinct(normalize, occs)
  {
    hide SourceWeight, Key;
    forall k | k in m ensures k in Distinct(normalize, occs) {
      assert HitOf(normalize, occs, k, m[k]);
      var i :| At(normalize, occs, k, i);
    }
  }

  /** The kept keys: distinct, in order of score, and none of the dropped keys is better than any of them. */
  ghost predicate BestKept(byURL: map<string, Hit>, kept: seq<string>) {
    && (forall i :: 0 <= i < |kept| ==> kept[i] in byURL)
    && (forall i, j :: 0 <= i < j < |kept| ==> kept[i] != kept[j] && !Better(byURL[kept[j]], byURL[kept[i]]))
    && (forall i, k :: 0 <= i < |kept| && k in byURL && k !in kept ==> !Better(byURL[k], byURL[kept[i]]))
  }

  lemma PrefixBestKept(byURL: map<string, Hit>, ranked: seq<string>, n: nat)
    requires Ranking(byURL, ranked) && n <= |ranked|
    ensures BestKept(byURL, ranked[..n])
  {
    var kept := ranked[..n];
    forall i | 0 <= i < n ensures kept[i] in byURL {
      assert kept[i] in ranked;
    }
    forall i, k | 0 <= i < n && k in byURL && k !in kept ensures !Better(byURL[k], byURL[kept[i]]) {
      assert k in ranked;
      var j :| 0 <= j < |ranked| && ranked[j] == k;
      assert forall m :: 0 <= m < n ==> kept[m] == ranked[m];
    }
  }

  /** Correctness of the cut: min(limit, distinct keys) results, those of the best keys in order of score. */
  lemma TopKIsBest(normalize: string -> string, occs: seq<Occurrence>, limit: nat, out: seq<SearchResult>)
    requires IsTopK(normalize, occs, limit, out)
    ensures |out| == if limit < |Distinct(normalize, occs)| then limit else |Distinct(normalize, occs)|
    ensures exists byURL: map<string, Hit>, kept: seq<string> ::
              Merged(normalize, occs, byURL) && BestKept(byURL, kept) && |kept| == |out| &&
              Leading(byURL, kept, |out|, out)
  {
    hide Merged, Ranking, BestKept, Distinct;
    var byURL: map<string, Hit>, ranked: seq<string> :|
      Merged(normalize, occs, byURL) && Ranking(byURL, ranked) && Leading(byURL, ranked, limit, out);
    MergedUnique(normalize, occs, byURL, byURL);
    RankingSize(byURL, ranked);
    PrefixBestKept(byURL, ranked, |out|);
    var kept := ranked[..|out|];
    assert Leading(byURL, kept, |out|, out);
  }

  lemma RankingSize(byURL: map<string, Hit>, ranked: seq<string>)
    requires Ranking(byURL, ranked)
    ensures |ranked| == |byURL.Keys|
  {
    DistinctCount(ranked, byURL.Keys);
  }

  // ---- ties are the only freedom ----

  /** Neither is better: the same number of sources and the same weight. */
  predicate Tied(a: Hit, b: Hit) {
    !Better(a, b) && !Better(b, a)
  }

  /** In any ranking, the keys better than the one at rank r all stand before r, and every key before r
      is better or tied; so its rank lies between those two counts. */
  lemma RankBounds(byURL: map<string, Hit>, ranked: seq<string>, r: nat)
    requires Ranking(byURL, ranked) && r < |ranked|
    ensures ranked[r] in byURL
    ensures |set k | k in byURL && Better(byURL[k], byURL[ranked[r]])| <= r
    ensures r < |set k | k in byURL && !Better(byURL[ranked[r]], byURL[k])|
  {
    hide Better;
    assert ranked[r] in ranked;
    var h := byURL[ranked[r]];
    var better := set k | k in byURL && Better(byURL[k], h);
    var notWorse := set k | k in byURL && !Better(h, byURL[k]);
    var front, head := ranked[..r], ranked[..r + 1];
    var before, upTo := set k | k in front, set k | k in head;
    forall k | k in better ensures k in before {
      BetterStandsBefore(byURL, ranked, r, k);
    }
    forall k | k in upTo ensures k in notWorse {
      NotWorseUpTo(byURL, ranked, r, k);
    }
    PrefixSize(ranked, r);
    PrefixSize(ranked, r + 1);
    SubsetSize(better, before);
    SubsetSize(upTo, notWorse);
  }

  lemma BetterStandsBefore(byURL: map<string, Hit>, ranked: seq<string>, r: nat, k: string)
    requires Ranking(byURL, ranked) && r < |ranked| && ranked[r] in byURL
    requires k in byURL && Better(byURL[k], byURL[ranked[r]])
    ensures k in ranked[..r]
  {
    hide Better;
    NotBetterThanItself(byURL[k]);
    assert k in ranked;
    var j :| 0 <= j < |ranked| && ranked[j] == k;
    assert ranked[..r + 1][r] == ranked[r];
    assert j < r;
    assert ranked[..r][j] == k;
  }

  lemma NotWorseUpTo(byURL: map<string, Hit>, ranked: seq<string>, r: nat, k: string)
    requires Ranking(byURL, ranked) && r < |ranked| && ranked[r] in byURL && k in ranked[..r + 1]
    ensures k in byURL && !Better(byURL[ranked[r]], byURL[k])
  {
    hide Better;
    var i :| 0 <= i < r + 1 && ranked[..r + 1][i] == k;
    assert ranked[i] == k;
    assert k in ranked;
    NotBetterThanItself(byURL[k]);
  }

  lemma NotBetterThanItself(h: Hit)
    ensures !Better(h, h)
  {
  }

  lemma PrefixSize(ranked: seq<string>, n: nat)
    requires n <= |ranked| && forall i, j :: 0 <= i < j < |ranked| ==> ranked[i] != ranked[j]
    ensures |set k | k in ranked[..n]| == n
  {
    DistinctCount(ranked[..n], set k | k in ranked[..n]);
  }

  lemma {:induction false} SubsetSize(a: set<string>, b: set<string>)
    requires a <= b
    ensures |a| <= |b|
    decreases a
  {
    if a != {} {
      var x :| x in a;
      SubsetSize(a - {x}, b - {x});
    }
  }

  /** Two rankings of the same hits have equal scores at every rank. */
  lemma RankingsTie(byURL: map<string, Hit>, r1: seq<string>, r2: seq<string>, i: nat)
    requires Ranking(byURL, r1) && Ranking(byURL, r2) && i < |r1| && i < |r2|
    ensures r1[i] in byURL && r2[i] in byURL && Tied(byURL[r1[i]], byURL[r2[i]])
  {
    RankBounds(byURL, r1, i);
    RankBounds(byURL, r2, i);
    NotBetterAtSameRank(byURL, r1, r2, i);
    NotBetterAtSameRank(byURL, r2, r1, i);
  }

  lemma NotBetterAtSameRank(byURL: map<string, Hit>, r1: seq<string>, r2: seq<string>, i: nat)
    requires Ranking(byURL, r1) && Ranking(byURL, r2) && i < |r1| && i < |r2|
    requires r1[i] in byURL && r2[i] in byURL
    ensures !Better(byURL[r1[i]], byURL[r2[i]])
  {
    var a, b := byURL[r1[i]], byURL[r2[i]];
    if Better(a, b) {
      var notWorse := set k | k in byURL && !Better(a, byURL[k]);
      var better := set k | k in byURL && Better(byURL[k], b);
      assert notWorse <= better;
      RankBounds(byURL, r1, i);
      RankBounds(byURL, r2, i);
      SubsetSize(notWorse, better);
    }
  }
}
