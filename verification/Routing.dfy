/** Resolution of model names to providers (internal/routing/routing.go) and the launcher that writes
    those names (cmd/defiant-claude/launcher.go:12-34). */
module Routing {
  import opened Text

  datatype Provider = Provider(
    endpoint: Bytes, authHeader: Bytes, wireFormat: Bytes, extraHeaders: map<Bytes, Bytes>, fallback: seq<Bytes>,
    noAuth: bool, apiKey: Bytes)

  datatype SlotConfig = SlotConfig(opus: Bytes, sonnet: Bytes, haiku: Bytes, sub: Bytes, fable: Bytes)

  const NO_SLOTS := SlotConfig("", "", "", "", "")

  datatype Config = Config(
    providers: map<Bytes, Provider>, aliases: map<Bytes, Bytes>, configs: map<Bytes, SlotConfig>)

  datatype Target = Target(
    providerKey: Bytes, endpoint: Bytes, model: Bytes, slot: Bytes, authHeader: Bytes, apiKey: Bytes,
    wireFormat: Bytes, extraHeaders: map<Bytes, Bytes>, fallbacks: seq<Bytes>, noAuth: bool)

  const MARKER: Bytes := "[1m]"
  const SLOT_PREFIXES: seq<Bytes> := ["sonnet", "opus", "haiku", "subagent", "fable"]
  const MAX_EXPANSIONS := 8

  // ---- strings ----

  /** strings.ReplaceAll(s, "[1m]", "") */
  function RemoveMarker(s: Bytes): Bytes
    decreases |s|
  {
    if HasPrefix(s, MARKER) then RemoveMarker(s[4..])
    else if s == "" then ""
    else [s[0]] + RemoveMarker(s[1..])
  }

  /** strings.Cut(s, ":") */
  function Cut(s: Bytes): (r: Option<(Bytes, Bytes)>)
    ensures r.Some? ==> s == r.value.0 + ":" + r.value.1 && ':' !in r.value.0
    ensures r.None? ==> ':' !in s
  {
    var i := IndexByte(s, ':');
    if i < |s| then Some((s[..i], s[i + 1..])) else None
  }

  lemma CutPrefixed(p: Bytes, m: Bytes)
    requires ':' !in p
    ensures Cut(p + ":" + m) == Some((p, m))
  {
    var s := p + ":" + m;
    forall j | 0 <= j < |p| ensures s[j] != ':' {
      assert s[j] == p[j];
    }
    IndexByteUnique(s, ':', |p|);
    assert s[..|p|] == p && s[|p| + 1..] == m;
  }

  /** Appending the marker to a name without one is undone by removing markers. */
  lemma {:induction false} RemoveAppended(s: Bytes)
    requires !Contains(s, MARKER)
    ensures RemoveMarker(s) == s && RemoveMarker(s + MARKER) == s
    decreases |s|
  {
    if s == "" {
      assert "" + MARKER == MARKER && MARKER[4..] == "";
    } else {
      var t := s[1..];
      assert !Contains(t, MARKER) by {
        forall i | 0 <= i <= |t| ensures !HasPrefix(t[i..], MARKER) {
          assert t[i..] == s[i + 1..];
        }
      }
      RemoveAppended(t);
      assert s == s[0..];
      NoEarlyMarker(s);
      assert (s + MARKER)[1..] == t + MARKER;
    }
  }

  /** The marker has no border, so it cannot start inside s and end inside the appended copy. */
  lemma NoEarlyMarker(s: Bytes)
    requires s != "" && !HasPrefix(s, MARKER)
    ensures !HasPrefix(s + MARKER, MARKER)
  {
    var x := s + MARKER;
    if |s| >= 4 {
      assert forall i :: 0 <= i < 4 ==> x[i] == s[i];
    } else {
      assert x[|s|] == MARKER[0] && MARKER[|s|] != MARKER[0];
    }
  }

  // ---- aliases ----

  /** The alias chain of a model, followed at most n times. */
  function Expand(aliases: map<Bytes, Bytes>, model: Bytes, n: nat): Bytes
    decreases n
  {
    if n == 0 || model !in aliases then model else Expand(aliases, aliases[model], n - 1)
  }

  /** k steps along the alias chain, if it goes that far. */
  function Chain(aliases: map<Bytes, Bytes>, model: Bytes, k: nat): Option<Bytes>
    decreases k
  {
    if k == 0 then Some(model)
    else if model !in aliases then None
    else Chain(aliases, aliases[model], k - 1)
  }

  /** Expansion ends at the end of a chain of at most n steps, and after exactly n steps of a longer or
      cyclic one. */
  lemma {:induction false} ExpandEndsChain(aliases: map<Bytes, Bytes>, model: Bytes, n: nat)
    ensures exists k :: 0 <= k <= n && Chain(aliases, model, k) == Some(Expand(aliases, model, n)) &&
                        (Expand(aliases, model, n) in aliases ==> k == n)
    decreases n
  {
    if n == 0 || model !in aliases {
      assert Chain(aliases, model, 0) == Some(Expand(aliases, model, n));
    } else {
      ExpandEndsChain(aliases, aliases[model], n - 1);
      var k :| 0 <= k <= n - 1 && Chain(aliases, aliases[model], k) == Some(Expand(aliases, aliases[model], n - 1)) &&
               (Expand(aliases, aliases[model], n - 1) in aliases ==> k == n - 1);
      assert Chain(aliases, model, k + 1) == Some(Expand(aliases, model, n));
    }
  }

  /** Whether expansion reaches a real model name: exactly when the chain ends within eight steps. */
  lemma ExpandSettlesIff(aliases: map<Bytes, Bytes>, model: Bytes)
    ensures Expand(aliases, model, MAX_EXPANSIONS) !in aliases <==>
            exists k :: 0 <= k <= 8 && Chain(aliases, model, k).Some? && Chain(aliases, model, k).value !in aliases
  {
    ExpandEndsChain(aliases, model, MAX_EXPANSIONS);
    if k :| 0 <= k <= MAX_EXPANSIONS && Chain(aliases, model, k).Some? && Chain(aliases, model, k).value !in aliases {
      ChainEnd(aliases, model, k, MAX_EXPANSIONS);
    }
  }

  lemma {:induction false} ChainEnd(aliases: map<Bytes, Bytes>, model: Bytes, k: nat, n: nat)
    requires k <= n && Chain(aliases, model, k).Some? && Chain(aliases, model, k).value !in aliases
    ensures Expand(aliases, model, n) == Chain(aliases, model, k).value
    decreases k
  {
    if k > 0 {
      ChainEnd(aliases, aliases[model], k - 1, n - 1);
    }
  }

  // ---- slots and targets ----

  function SpecForSlot(sc: SlotConfig, slot: Bytes): Bytes {
    if slot == "opus" then sc.opus
    else if slot == "sonnet" then sc.sonnet
    else if slot == "haiku" then sc.haiku
    else if slot == "sub" || slot == "subagent" then sc.sub
    else if slot == "fable" then sc.fable
    else ""
  }

  /** resolve, with the slot the callers then set. */
  function Resolved(cfg: Config, provKey: Bytes, model: Bytes, slot: Bytes): Option<Target> {
    if provKey !in cfg.providers then None
    else
      var p := cfg.providers[provKey];
      Some(Target(provKey, p.endpoint, Expand(cfg.aliases, model, MAX_EXPANSIONS), slot, p.authHeader,
                  if p.noAuth then "" else p.apiKey, p.wireFormat, p.extraHeaders, p.fallback, p.noAuth))
  }

  /** The slot prefix of a name and what follows it. */
  function CutSlotPrefix(model: Bytes): Option<(Bytes, Bytes)> {
    match Cut(model)
    case None => None
    case Some((s, rest)) => if s in SLOT_PREFIXES then Some((s, rest)) else None
  }

  function Override(overrides: map<Bytes, Bytes>, slot: Bytes): Bytes {
    if slot in overrides then overrides[slot] else ""
  }

  function FallbackTarget(cfg: Config, primary: Target, key: Bytes): Option<Target> {
    var spec := if primary.slot != "" && key in cfg.configs then SpecForSlot(cfg.configs[key], primary.slot) else "";
    match Cut(spec)
    case Some((prov, m)) => Resolved(cfg, prov, m, primary.slot)
    case None => Resolved(cfg, key, primary.model, primary.slot)
  }

  /** The resolvable fallbacks of a primary, in the order of its fallback list. */
  function Fallbacks(cfg: Config, primary: Target, keys: seq<Bytes>): seq<Target> {
    if keys == [] then []
    else
      var t := FallbackTarget(cfg, primary, keys[|keys| - 1]);
      Fallbacks(cfg, primary, keys[..|keys| - 1]) + (if t.Some? then [t.value] else [])
  }

  /** Which fallback key each fallback target comes from. */
  function Sources(cfg: Config, primary: Target, keys: seq<Bytes>): (idx: seq<nat>)
    ensures |idx| == |Fallbacks(cfg, primary, keys)|
  {
    if keys == [] then []
    else
      Sources(cfg, primary, keys[..|keys| - 1]) +
      (if FallbackTarget(cfg, primary, keys[|keys| - 1]).Some? then [|keys| - 1] else [])
  }

  predicate Ascending(idx: seq<nat>, bound: nat) {
    && (forall i :: 0 <= i < |idx| ==> idx[i] < bound)
    && (forall i, j :: 0 <= i < j < |idx| ==> idx[i] < idx[j])
  }

  lemma {:induction false} SourcesAscend(cfg: Config, primary: Target, keys: seq<Bytes>)
    ensures Ascending(Sources(cfg, primary, keys), |keys|)
  {
    if keys != [] {
      SourcesAscend(cfg, primary, keys[..|keys| - 1]);
    }
  }

  lemma {:induction false} SourcesComplete(cfg: Config, primary: Target, keys: seq<Bytes>, k: nat)
    requires k < |keys|
    ensures k in Sources(cfg, primary, keys) <==> FallbackTarget(cfg, primary, keys[k]).Some?
  {
    var n := |keys| - 1;
    SourcesAscend(cfg, primary, keys[..n]);
    if k < n {
      SourcesComplete(cfg, primary, keys[..n], k);
    }
  }

  lemma {:induction false} FallbackSource(cfg: Config, primary: Target, keys: seq<Bytes>, i: nat)
    requires i < |Fallbacks(cfg, primary, keys)|
    ensures FromKey(cfg, primary, keys, Sources(cfg, primary, keys)[i], Fallbacks(cfg, primary, keys)[i])
  {
    var n := |keys| - 1;
    if i < |Fallbacks(cfg, primary, keys[..n])| {
      FallbackSource(cfg, primary, keys[..n], i);
    }
  }

  /** Whether t is the fallback target of the k-th key: it keeps the slot and names a known provider. */
  predicate FromKey(cfg: Config, primary: Target, keys: seq<Bytes>, k: nat, t: Target) {
    && k < |keys| && FallbackTarget(cfg, primary, keys[k]) == Some(t)
    && t.slot == primary.slot && t.providerKey in cfg.providers
  }

  /** Fallback targets keep the slot, name known providers, follow the fallback list in order, and leave
      out exactly the keys that do not resolve. */
  lemma FallbacksInOrder(cfg: Config, primary: Target, keys: seq<Bytes>)
    ensures var ts, idx := Fallbacks(cfg, primary, keys), Sources(cfg, primary, keys);
            && (forall i :: 0 <= i < |ts| ==> FromKey(cfg, primary, keys, idx[i], ts[i]))
            && Ascending(idx, |keys|)
            && (forall k :: 0 <= k < |keys| ==> (k in idx <==> FallbackTarget(cfg, primary, keys[k]).Some?))
  {
    SourcesAscend(cfg, primary, keys);
    forall i | 0 <= i < |Fallbacks(cfg, primary, keys)|
      ensures FromKey(cfg, primary, keys, Sources(cfg, primary, keys)[i], Fallbacks(cfg, primary, keys)[i])
    {
      FallbackSource(cfg, primary, keys, i);
    }
    forall k | 0 <= k < |keys|
      ensures k in Sources(cfg, primary, keys) <==> FallbackTarget(cfg, primary, keys[k]).Some?
    {
      SourcesComplete(cfg, primary, keys, k);
    }
  }

  class Resolver {
    const cfg: Config
    const backend: SlotConfig
    const reverseSlot: map<Bytes, Bytes>
    var overrides: map<Bytes, Bytes>

    ghost predicate Valid()
    {
      && (forall a :: a in reverseSlot ==>
            var s := reverseSlot[a]; s in {"opus", "sonnet", "haiku"} && s in cfg.aliases && cfg.aliases[s] == a)
      && (forall s :: s in {"opus", "sonnet", "haiku"} && s in cfg.aliases ==> cfg.aliases[s] in reverseSlot)
    }

    /** An unknown backend name selects any one of the configs; of two slots with the same alias, any one
        wins: the source ranges over maps. */
    constructor (cfg: Config, backendName: Bytes)
      ensures Valid() && this.cfg == cfg && overrides == map[]
      ensures backend in cfg.configs.Values || (cfg.configs.Keys == {} && backend == NO_SLOTS)
      ensures backendName in cfg.configs ==> backend == cfg.configs[backendName]
    {
      var chosen := NO_SLOTS;
      if backendName in cfg.configs {
        chosen := cfg.configs[backendName];
      } else if cfg.configs.Keys != {} {
        var name :| name in cfg.configs.Keys;
        chosen := cfg.configs[name];
      }
      var reverse: map<Bytes, Bytes> := map[];
      var todo := cfg.aliases.Keys;
      while todo != {}
        invariant todo <= cfg.aliases.Keys
        invariant forall a :: a in reverse ==>
                    reverse[a] in {"opus", "sonnet", "haiku"} && reverse[a] in cfg.aliases &&
                    cfg.aliases[reverse[a]] == a
        invariant forall s :: s in {"opus", "sonnet", "haiku"} && s in cfg.aliases && s !in todo ==>
                    cfg.aliases[s] in reverse
        decreases todo
      {
        var slot :| slot in todo;
        todo := todo - {slot};
        if slot == "opus" || slot == "sonnet" || slot == "haiku" {
          reverse := reverse[cfg.aliases[slot] := slot];
        }
      }
      this.cfg, this.backend, this.reverseSlot, this.overrides := cfg, chosen, reverse, map[];
    }

    method SetOverrides(m: map<Bytes, Bytes>)
      modifies this
      ensures overrides == m
    {
      overrides := m;
    }

    method ExpandAlias(model: Bytes) returns (r: Bytes)
      ensures r == Expand(cfg.aliases, model, MAX_EXPANSIONS)
    {
      r := model;
      for i := 0 to MAX_EXPANSIONS
        invariant Expand(cfg.aliases, model, MAX_EXPANSIONS) == Expand(cfg.aliases, r, MAX_EXPANSIONS - i)
      {
        if r !in cfg.aliases {
          return;
        }
        r := cfg.aliases[r];
      }
    }

    method ResolveTarget(provKey: Bytes, model: Bytes, slot: Bytes) returns (t: Option<Target>)
      ensures t == Resolved(cfg, provKey, model, slot)
    {
      if provKey !in cfg.providers {
        return None;
      }
      var p := cfg.providers[provKey];
      var expanded := ExpandAlias(model);
      t := Some(Target(provKey, p.endpoint, expanded, slot, p.authHeader,
                       if p.noAuth then "" else p.apiKey, p.wireFormat, p.extraHeaders, p.fallback, p.noAuth));
    }

    method CutSlot(model: Bytes) returns (r: Option<(Bytes, Bytes)>)
      ensures r == CutSlotPrefix(model)
    {
      for i := 0 to |SLOT_PREFIXES|
        invariant forall j :: 0 <= j < i ==> !HasPrefix(model, SLOT_PREFIXES[j] + ":")
      {
        var s := SLOT_PREFIXES[i];
        if HasPrefix(model, s + ":") {
          var rest := model[|s| + 1..];
          assert model == s + ":" + rest;
          CutPrefixed(s, rest);
          return Some((s, rest));
        }
      }
      return None;
    }

    function SlotSpec(slot: Bytes): Bytes
      reads this
    {
      if Override(overrides, slot) != "" then overrides[slot] else SpecForSlot(backend, slot)
    }

    /** What Resolve gives for a name whose markers and surrounding white space are gone. */
    function Meaning(model: Bytes): Option<Target>
      reads this
    {
      if model == "" then None
      else
        var cut := CutSlotPrefix(model);
        var slot := if cut.Some? then cut.value.0 else "";
        var name := if cut.None? then model
                    else if Override(overrides, slot) != "" then overrides[slot] else cut.value.1;
        match Cut(name)
        case Some((prov, m)) =>
          if prov in cfg.providers then Resolved(cfg, prov, m, slot)
          else Bare(Expand(cfg.aliases, name, MAX_EXPANSIONS))
        case None => Bare(Expand(cfg.aliases, name, MAX_EXPANSIONS))
    }

    /** A canonical model name goes to the active backend's spec for its slot. */
    function Bare(model: Bytes): Option<Target>
      reads this
    {
      if model !in reverseSlot then None
      else
        var s := reverseSlot[model];
        match Cut(SlotSpec(s))
        case Some((prov, m)) => Resolved(cfg, prov, m, s)
        case None => None
    }

    method Resolve(model: Bytes) returns (t: Option<Target>)
      ensures t == Meaning(TrimSpace(RemoveMarker(model)))
    {
      var name := TrimSpace(RemoveMarker(model));
      if name == "" {
        return None;
      }
      var slot: Bytes := "";
      var cut := CutSlot(name);
      if cut.Some? {
        slot := cut.value.0;
        if slot in overrides && overrides[slot] != "" {
          name := overrides[slot];
        } else {
          name := cut.value.1;
        }
      }
      var spec := Cut(name);
      if spec.Some? && spec.value.0 in cfg.providers {
        t := ResolveTarget(spec.value.0, spec.value.1, slot);
        return;
      }
      name := ExpandAlias(name);
      if name in reverseSlot {
        var s := reverseSlot[name];
        var backendSpec := SlotSpec(s);
        if backendSpec != "" {
          var parts := Cut(backendSpec);
          if parts.Some? {
            t := ResolveTarget(parts.value.0, parts.value.1, s);
            return;
          }
        }
      }
      return None;
    }

    method ResolveFallback(primary: Target, key: Bytes) returns (t: Option<Target>)
      ensures t == FallbackTarget(cfg, primary, key)
    {
      if primary.slot != "" && key in cfg.configs {
        var spec := SpecForSlot(cfg.configs[key], primary.slot);
        if spec != "" {
          var parts := Cut(spec);
          if parts.Some? {
            t := ResolveTarget(parts.value.0, parts.value.1, primary.slot);
            return;
          }
        }
      }
      t := ResolveTarget(key, primary.model, primary.slot);
    }

    method FallbackTargets(primary: Target) returns (out: seq<Target>)
      ensures out == Fallbacks(cfg, primary, primary.fallbacks)
    {
      out := [];
      var keys := primary.fallbacks;
      for i := 0 to |keys|
        invariant out == Fallbacks(cfg, primary, keys[..i])
      {
        assert keys[..i + 1][..i] == keys[..i];
        var t := ResolveFallback(primary, keys[i]);
        if t.None? {
          continue;
        }
        out := out + [t.value];
      }
      assert keys[..|keys|] == keys;
    }
  }

  // ---- the launcher ----

  /** A colon and then the part end the text. */
  predicate EndsWithPart(spec: Bytes, part: Bytes) {
    |part| < |spec| && spec[|spec| - |part| - 1] == ':' && spec[|spec| - |part|..] == part
  }

  /** modelIDOf: what follows the last colon. */
  function ModelIdOf(spec: Bytes): (id: Bytes)
    ensures ':' !in id
    ensures id == spec || EndsWithPart(spec, id)
    decreases |spec|
  {
    var i := IndexByte(spec, ':');
    if i < |spec| then
      var id := ModelIdOf(spec[i + 1..]);
      LastPart(spec, i, id);
      id
    else spec
  }

  lemma LastPart(spec: Bytes, i: nat, id: Bytes)
    requires i < |spec| && spec[i] == ':'
    requires id == spec[i + 1..] || EndsWithPart(spec[i + 1..], id)
    ensures EndsWithPart(spec, id)
  {
  }

  function Append1m(spec: Bytes, ctxLimits: map<Bytes, int>): Bytes {
    var id := ModelIdOf(spec);
    if id in ctxLimits && ctxLimits[id] >= 1_000_000 then spec + MARKER else spec
  }

  /** The names that the launcher writes resolve back: a slot and a "provider:model" spec come back as that
      slot and that provider, with the model alias-expanded, whether or not the marker was appended. An
      override of the slot, when set, takes the place of the spec. */
  lemma LauncherRoundTrip(r: Resolver, slot: Bytes, prov: Bytes, m: Bytes, ctxLimits: map<Bytes, int>)
    requires slot in SLOT_PREFIXES && ':' !in prov && prov in r.cfg.providers
    requires !Contains(slot + ":" + prov + ":" + m, MARKER)
    requires TrimSpace(slot + ":" + prov + ":" + m) == slot + ":" + prov + ":" + m
    requires slot !in r.overrides || r.overrides[slot] == ""
    ensures var name := Append1m(slot + ":" + prov + ":" + m, ctxLimits);
            r.Meaning(TrimSpace(RemoveMarker(name))) == Resolved(r.cfg, prov, m, slot)
    ensures Resolved(r.cfg, prov, m, slot).value.providerKey == prov
    ensures Resolved(r.cfg, prov, m, slot).value.slot == slot
  {
    var spec := prov + ":" + m;
    var name := slot + ":" + spec;
    assert name == slot + ":" + prov + ":" + m;
    RemoveAppended(name);
    SlotShape(slot);
    SlottedMeaning(r, slot, prov, m);
  }

  lemma SlottedMeaning(r: Resolver, slot: Bytes, prov: Bytes, m: Bytes)
    requires slot in SLOT_PREFIXES && ':' !in slot && ':' !in prov && prov in r.cfg.providers
    requires slot !in r.overrides || r.overrides[slot] == ""
    ensures r.Meaning(slot + ":" + (prov + ":" + m)) == Resolved(r.cfg, prov, m, slot)
  {
    CutPrefixed(slot, prov + ":" + m);
    CutPrefixed(prov, m);
  }

  lemma SlotShape(slot: Bytes)
    requires slot in SLOT_PREFIXES
    ensures ':' !in slot
  {}

  /** An override of the slot, when set, takes the place of the spec that the launcher wrote. */
  lemma OverrideReplacesSpec(
    r: Resolver, slot: Bytes, spec: Bytes, prov: Bytes, m: Bytes, ctxLimits: map<Bytes, int>)
    requires slot in SLOT_PREFIXES && ':' !in prov && prov in r.cfg.providers
    requires !Contains(slot + ":" + spec, MARKER) && TrimSpace(slot + ":" + spec) == slot + ":" + spec
    requires slot in r.overrides && r.overrides[slot] == prov + ":" + m
    ensures var name := Append1m(slot + ":" + spec, ctxLimits);
            r.Meaning(TrimSpace(RemoveMarker(name))) == Resolved(r.cfg, prov, m, slot)
  {
    RemoveAppended(slot + ":" + spec);
    SlotShape(slot);
    CutPrefixed(slot, spec);
    CutPrefixed(prov, m);
  }

  // ---- bare model names ----

  const ALIAS_SLOTS: set<Bytes> := {"opus", "sonnet", "haiku"}

  /** A name that carries no marker, no surrounding white space, and neither a slot nor a provider. */
  predicate Canonical(cfg: Config, name: Bytes) {
    && name != "" && TrimSpace(RemoveMarker(name)) == name && CutSlotPrefix(name).None?
    && (Cut(name).Some? ==> Cut(name).value.0 !in cfg.providers)
  }

  /** The target of the active backend's spec for a slot. */
  function SlotTarget(r: Resolver, slot: Bytes): Option<Target>
    reads r
  {
    match Cut(r.SlotSpec(slot))
    case Some((prov, m)) => Resolved(r.cfg, prov, m, slot)
    case None => None
  }

  /** Every slot alias is a canonical name, and the backend serves its slot. */
  predicate SlotsServed(r: Resolver)
    reads r
  {
    forall s :: s in ALIAS_SLOTS && s in r.cfg.aliases ==> Canonical(r.cfg, r.cfg.aliases[s]) && SlotTarget(r, s).Some?
  }

  /** The alias of a slot, as a model name, resolves to what the backend has for the slot. */
  predicate AliasResolves(r: Resolver, slot: Bytes)
    requires slot in r.cfg.aliases
    reads r
  {
    r.Meaning(TrimSpace(RemoveMarker(r.cfg.aliases[slot]))) == SlotTarget(r, slot)
  }

  predicate AliasesDistinct(aliases: map<Bytes, Bytes>) {
    forall s, t :: s in ALIAS_SLOTS && t in ALIAS_SLOTS && s in aliases && t in aliases && s != t ==>
                     aliases[s] != aliases[t]
  }

  /** Expansion leaves the alias alone. */
  predicate Settled(aliases: map<Bytes, Bytes>, slot: Bytes)
    requires slot in aliases
  {
    Expand(aliases, aliases[slot], MAX_EXPANSIONS) == aliases[slot]
  }

  lemma SlotTargetSlot(r: Resolver, slot: Bytes)
    ensures SlotTarget(r, slot).Some? ==> SlotTarget(r, slot).value.slot == slot
  {
    hide Expand;
  }

  /** One alias resolves to its slot exactly when it is no alias key itself (but for a cycle that expansion walks
      around) and the reverse map names its slot. */
  lemma AliasResolvesIff(r: Resolver, slot: Bytes)
    requires r.Valid() && slot in ALIAS_SLOTS && slot in r.cfg.aliases
    requires Canonical(r.cfg, r.cfg.aliases[slot]) && SlotTarget(r, slot).Some?
    ensures AliasResolves(r, slot) <==>
            Settled(r.cfg.aliases, slot) && r.reverseSlot[r.cfg.aliases[slot]] == slot
  {
    hide Expand, CutSlotPrefix, TrimSpace, RemoveMarker, SlotTarget;
    var a := r.cfg.aliases[slot];
    var e := Expand(r.cfg.aliases, a, MAX_EXPANSIONS);
    assert r.Meaning(a) == r.Bare(e);
    SlotTargetSlot(r, slot);
    BareTarget(r, e);
    if e in r.reverseSlot {
      SlotTargetSlot(r, r.reverseSlot[e]);
    }
  }

  lemma BareTarget(r: Resolver, name: Bytes)
    ensures r.Bare(name) == if name in r.reverseSlot then SlotTarget(r, r.reverseSlot[name]) else None
  {
  }

  /** All slot aliases resolve to what the backend has for their slots exactly when none of them is changed by
      alias expansion and no two are the same name. */
  lemma AllAliasesResolveIff(r: Resolver)
    requires r.Valid() && SlotsServed(r)
    ensures (forall s :: s in ALIAS_SLOTS && s in r.cfg.aliases ==> AliasResolves(r, s)) <==>
            AliasesDistinct(r.cfg.aliases) &&
            forall s :: s in ALIAS_SLOTS && s in r.cfg.aliases ==> Settled(r.cfg.aliases, s)
  {
    hide AliasResolves, Settled, SlotTarget, Canonical;
    var aliases := r.cfg.aliases;
    forall s | s in ALIAS_SLOTS && s in aliases
      ensures AliasResolves(r, s) <==> Settled(aliases, s) && r.reverseSlot[aliases[s]] == s
    {
      AliasResolvesIff(r, s);
    }
    if AliasesDistinct(aliases) {
      forall s | s in ALIAS_SLOTS && s in aliases ensures r.reverseSlot[aliases[s]] == s {
        ReverseNames(r, s);
      }
    }
  }

  lemma ReverseNames(r: Resolver, slot: Bytes)
    requires r.Valid() && AliasesDistinct(r.cfg.aliases) && slot in ALIAS_SLOTS && slot in r.cfg.aliases
    ensures r.cfg.aliases[slot] in r.reverseSlot && r.reverseSlot[r.cfg.aliases[slot]] == slot
  {
    var a := r.cfg.aliases[slot];
    assert a in r.reverseSlot;
    var t := r.reverseSlot[a];
    assert t in r.cfg.aliases && r.cfg.aliases[t] == a;
  }

  /** The failing configurations: two slots with one alias, and an alias that is an alias key. */
  lemma SharedAliasLost(r: Resolver, s: Bytes, t: Bytes)
    requires r.Valid() && SlotsServed(r) && s in ALIAS_SLOTS && t in ALIAS_SLOTS && s != t
    requires s in r.cfg.aliases && t in r.cfg.aliases && r.cfg.aliases[s] == r.cfg.aliases[t]
    ensures !AliasResolves(r, s) || !AliasResolves(r, t)
  {
    hide AliasResolves, SlotTarget, Canonical;
    AliasResolvesIff(r, s);
    AliasResolvesIff(r, t);
  }

  // ---- what a target is made of ----

  /** A target carries the provider's own data, the slot, the model at the end of its aliases, and a key only if
      the provider asks for one. */
  lemma TargetFields(cfg: Config, prov: Bytes, m: Bytes, slot: Bytes)
    requires prov in cfg.providers
    ensures Resolved(cfg, prov, m, slot).Some?
    ensures var t, p := Resolved(cfg, prov, m, slot).value, cfg.providers[prov];
            && t.providerKey == prov && t.slot == slot
            && t.endpoint == p.endpoint && t.authHeader == p.authHeader && t.wireFormat == p.wireFormat
            && t.extraHeaders == p.extraHeaders && t.fallbacks == p.fallback && t.noAuth == p.noAuth
            && t.apiKey == (if p.noAuth then "" else p.apiKey)
            && (m !in cfg.aliases ==> t.model == m)
            && (m in cfg.aliases && cfg.aliases[m] !in cfg.aliases ==> t.model == cfg.aliases[m])
  {
  }

  /** The five slot names that may stand before a spec. */
  lemma SlotName(slot: Bytes)
    ensures slot in SLOT_PREFIXES <==>
            slot == "opus" || slot == "sonnet" || slot == "haiku" || slot == "subagent" || slot == "fable"
  {
    assert slot in SLOT_PREFIXES ==> exists i :: 0 <= i < 5 && slot == SLOT_PREFIXES[i];
    assert SLOT_PREFIXES[0] == "sonnet" && SLOT_PREFIXES[1] == "opus" && SLOT_PREFIXES[2] == "haiku";
    assert SLOT_PREFIXES[3] == "subagent" && SLOT_PREFIXES[4] == "fable";
  }

  /** The launcher's name for a slot and a spec of a known provider resolves to that provider, that slot, and the
      very model of the spec unless it is an alias. */
  lemma LauncherTarget(r: Resolver, slot: Bytes, prov: Bytes, m: Bytes, ctxLimits: map<Bytes, int>)
    requires slot == "opus" || slot == "sonnet" || slot == "haiku" || slot == "subagent" || slot == "fable"
    requires ':' !in prov && prov in r.cfg.providers && m !in r.cfg.aliases
    requires !Contains(slot + ":" + prov + ":" + m, MARKER)
    requires TrimSpace(slot + ":" + prov + ":" + m) == slot + ":" + prov + ":" + m
    requires slot !in r.overrides || r.overrides[slot] == ""
    ensures var t := r.Meaning(TrimSpace(RemoveMarker(Append1m(slot + ":" + prov + ":" + m, ctxLimits))));
            && t.Some? && t.value.providerKey == prov && t.value.model == m && t.value.slot == slot
            && t.value.endpoint == r.cfg.providers[prov].endpoint
  {
    hide Append1m, RemoveMarker, TrimSpace, Contains, Resolved;
    SlotName(slot);
    LauncherRoundTrip(r, slot, prov, m, ctxLimits);
    TargetFields(r.cfg, prov, m, slot);
  }

  /** The field of a backend config that serves a slot. */
  predicate Serves(sc: SlotConfig, slot: Bytes, spec: Bytes) {
    || (slot == "opus" && spec == sc.opus)
    || (slot == "sonnet" && spec == sc.sonnet)
    || (slot == "haiku" && spec == sc.haiku)
    || ((slot == "sub" || slot == "subagent") && spec == sc.sub)
    || (slot == "fable" && spec == sc.fable)
  }

  lemma SpecServes(sc: SlotConfig, slot: Bytes, spec: Bytes)
    requires Serves(sc, slot, spec)
    ensures SpecForSlot(sc, slot) == spec
  {
  }

  /** A fallback is tier-matched: the provider and model that the fallback's own config has for the slot. */
  lemma FallbackTierMatched(cfg: Config, primary: Target, key: Bytes, prov: Bytes, m: Bytes)
    requires key in cfg.configs && ':' !in prov && prov in cfg.providers && m !in cfg.aliases
    requires Serves(cfg.configs[key], primary.slot, prov + ":" + m)
    ensures var t := FallbackTarget(cfg, primary, key);
            t.Some? && t.value.providerKey == prov && t.value.model == m && t.value.slot == primary.slot
  {
    hide Resolved, SpecForSlot;
    SpecServes(cfg.configs[key], primary.slot, prov + ":" + m);
    CutPrefixed(prov, m);
    TargetFields(cfg, prov, m, primary.slot);
  }

  /** A fallback without such a config gets the primary's model. */
  lemma FallbackSameModel(cfg: Config, primary: Target, key: Bytes)
    requires key in cfg.providers && primary.model !in cfg.aliases
    requires primary.slot == "" || key !in cfg.configs
    ensures var t := FallbackTarget(cfg, primary, key);
            t.Some? && t.value.providerKey == key && t.value.model == primary.model && t.value.slot == primary.slot
  {
    hide Resolved, SpecForSlot;
    TargetFields(cfg, key, primary.model, primary.slot);
    assert Cut("").None?;
  }

  /** A bare name that resolves as the alias of its slot goes to the provider and model of the slot's override, or
      of the active backend when there is none. */
  lemma BareNameServed(r: Resolver, slot: Bytes, prov: Bytes, m: Bytes)
    requires slot in ALIAS_SLOTS && slot in r.cfg.aliases && AliasResolves(r, slot)
    requires if slot in r.overrides && r.overrides[slot] != "" then r.overrides[slot] == prov + ":" + m
             else Serves(r.backend, slot, prov + ":" + m)
    requires ':' !in prov && prov in r.cfg.providers && m !in r.cfg.aliases
    ensures var t := r.Meaning(TrimSpace(RemoveMarker(r.cfg.aliases[slot])));
            t.Some? && t.value.providerKey == prov && t.value.model == m && t.value.slot == slot
  {
    hide Resolved, SpecForSlot, TrimSpace, RemoveMarker;
    if Serves(r.backend, slot, prov + ":" + m) {
      SpecServes(r.backend, slot, prov + ":" + m);
    }
    CutPrefixed(prov, m);
    TargetFields(r.cfg, prov, m, slot);
  }

  // ---- the marker ----

  lemma {:induction false} LastPartOnly(p: Bytes, id: Bytes)
    requires ':' !in id && (p == "" || p[|p| - 1] == ':')
    ensures ModelIdOf(p + id) == id
    decreases |p|
  {
    if p == "" {
      assert p + id == id;
      NoColon(id);
    } else {
      var s := p + id;
      var i := IndexByte(p, ':');
      assert p[|p| - 1] == ':';
      IndexByteUnique(s, ':', i);
      assert s[i + 1..] == p[i + 1..] + id;
      LastPartOnly(p[i + 1..], id);
    }
  }

  lemma NoColon(s: Bytes)
    requires ':' !in s
    ensures IndexByte(s, ':') == |s|
  {
    IndexByteUnique(s, ':', |s|);
  }

  /** A name gets the marker exactly when its last part has a context limit of a million tokens or more. */
  lemma MarkedIff(p: Bytes, id: Bytes, ctxLimits: map<Bytes, int>)
    requires ':' !in id && (p == "" || p[|p| - 1] == ':')
    ensures Append1m(p + id, ctxLimits) ==
            p + id + (if id in ctxLimits && ctxLimits[id] >= 1_000_000 then "[1m]" else "")
  {
    LastPartOnly(p, id);
    assert p + id + "" == p + id;
  }

  /** Every marker goes, wherever it stands: the first one, and those behind it. */
  lemma {:induction false} FirstMarkerGoes(a: Bytes, b: Bytes)
    requires forall i :: 0 <= i < |a| ==> !HasPrefix((a + MARKER + b)[i..], MARKER)
    ensures RemoveMarker(a + MARKER + b) == a + RemoveMarker(b)
    decreases |a|
  {
    var s := a + MARKER + b;
    if a == "" {
      assert s == MARKER + b && s[4..] == b;
      assert "" + RemoveMarker(b) == RemoveMarker(b);
    } else {
      assert s[0..] == s;
      assert s[1..] == a[1..] + MARKER + b;
      forall i | 0 <= i < |a[1..]| ensures !HasPrefix((a[1..] + MARKER + b)[i..], MARKER) {
        assert (a[1..] + MARKER + b)[i..] == s[i + 1..];
      }
      FirstMarkerGoes(a[1..], b);
      assert [a[0]] + (a[1..] + RemoveMarker(b)) == a + RemoveMarker(b);
    }
  }
}
