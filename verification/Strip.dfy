/** Removal of the parts of a request body that an upstream does not accept or that vary from turn to turn
    (internal/wire/strip.go). */
module Strip {
  import opened Text

  /** A decoded JSON value, as encoding/json yields it for `any`. */
  datatype Json =
    | Null
    | Bool(flag: bool)
    | Num(value: real)
    | Str(text: Bytes)
    | Arr(items: seq<Json>)
    | Obj(fields: Fields)

  type Fields = map<Bytes, Json>

  /** What a key holds; a missing key reads as nil, like a null. */
  function Get(m: Fields, key: Bytes): Json {
    if key in m then m[key] else Null
  }

  function StrippedFields(provider: Bytes): seq<Bytes> {
    if provider in {"ds", "oc"} then ["metadata"]
    else if provider in {"or", "al", "km", "mm", "gr", "mt", "mx", "za", "bp", "sf", "nv", "oa", "xa", "lo"} then
      ["top_k", "metadata"]
    else if provider == "gm" then ["top_k", "metadata", "stop_sequences"]
    else []
  }

  const BILLING := "x-anthropic-billing-header"

  // ---- the listed fields ----

  function WithoutFields(m: Fields, names: seq<Bytes>): Fields {
    map k | k in m && k !in names :: m[k]
  }

  // ---- the billing header ----

  predicate IsBilling(block: Json) {
    block.Obj? && Get(block.fields, "type") == Str("text") && Get(block.fields, "text").Str? &&
    Contains(Get(block.fields, "text").text, BILLING)
  }

  function WithoutBilling(system: seq<Json>): seq<Json> {
    if system == [] then []
    else if IsBilling(system[0]) then system[1..]
    else [system[0]] + WithoutBilling(system[1..])
  }

  predicate NoBilling(system: seq<Json>) {
    forall b :: b in system ==> !IsBilling(b)
  }

  lemma {:induction false} WithoutBillingSkip(system: seq<Json>, i: nat)
    requires i <= |system| && NoBilling(system[..i])
    ensures WithoutBilling(system) == system[..i] + WithoutBilling(system[i..])
    decreases i
  {
    if i > 0 {
      assert system[0] in system[..i];
      assert system[1..][..i - 1] == system[..i][1..];
      WithoutBillingSkip(system[1..], i - 1);
      assert system[1..][i - 1..] == system[i..];
      assert system[..i] == [system[0]] + system[1..][..i - 1];
    }
  }

  // ---- cache_control ----

  function CleanBlock(block: Json): Json {
    if block.Obj? then Obj(block.fields - {"cache_control"}) else block
  }

  function CleanBlocks(blocks: seq<Json>): (r: seq<Json>)
    ensures |r| == |blocks| && forall i :: 0 <= i < |r| ==> r[i] == CleanBlock(blocks[i])
  {
    seq(|blocks|, i requires 0 <= i < |blocks| => CleanBlock(blocks[i]))
  }

  function CleanMessage(msg: Json): Json {
    if msg.Obj? && Get(msg.fields, "content").Arr? then
      Obj(msg.fields["content" := Arr(CleanBlocks(msg.fields["content"].items))])
    else msg
  }

  function CleanMessages(msgs: seq<Json>): (r: seq<Json>)
    ensures |r| == |msgs| && forall i :: 0 <= i < |r| ==> r[i] == CleanMessage(msgs[i])
  {
    seq(|msgs|, i requires 0 <= i < |msgs| => CleanMessage(msgs[i]))
  }

  // ---- repeated messages ----

  predicate Repeats(prev: Json, curr: Json) {
    prev.Obj? && curr.Obj? && Get(prev.fields, "role") == Get(curr.fields, "role") &&
    Get(prev.fields, "content") == Get(curr.fields, "content")
  }

  /** Go cannot compare two maps or two slices with `==` and panics. */
  predicate Incomparable(prev: Json, curr: Json) {
    prev.Obj? && curr.Obj? &&
    var (p, c) := (Get(prev.fields, "role"), Get(curr.fields, "role"));
    (p.Obj? && c.Obj?) || (p.Arr? && c.Arr?)
  }

  predicate Comparable(msgs: seq<Json>) {
    forall i :: 0 < i < |msgs| ==> !Incomparable(msgs[i - 1], msgs[i])
  }

  /** The messages that do not repeat the message in front of them. */
  function Firsts(msgs: seq<Json>): seq<Json> {
    if |msgs| <= 1 then msgs
    else
      var (init, last) := (msgs[..|msgs| - 1], msgs[|msgs| - 1]);
      if Repeats(init[|init| - 1], last) then Firsts(init) else Firsts(init) + [last]
  }

  /** The last message kept stands for the last one seen. */
  lemma {:induction false} LastKept(msgs: seq<Json>)
    requires msgs != []
    ensures Firsts(msgs) != []
    ensures var kept := Firsts(msgs)[|Firsts(msgs)| - 1];
            kept == msgs[|msgs| - 1] || Repeats(kept, msgs[|msgs| - 1])
  {
    if |msgs| > 1 {
      LastKept(msgs[..|msgs| - 1]);
    }
  }

  predicate NoRepeats(msgs: seq<Json>) {
    forall i :: 0 < i < |msgs| ==> !Repeats(msgs[i - 1], msgs[i])
  }

  lemma {:induction false} FirstsDoNotRepeat(msgs: seq<Json>)
    ensures NoRepeats(Firsts(msgs))
  {
    if |msgs| > 1 {
      var init := msgs[..|msgs| - 1];
      FirstsDoNotRepeat(init);
      LastKept(init);
    }
  }

  lemma {:induction false} FirstsKeepsUnrepeated(msgs: seq<Json>)
    requires NoRepeats(msgs)
    ensures Firsts(msgs) == msgs
  {
    hide Repeats;
    if |msgs| > 1 {
      var init := msgs[..|msgs| - 1];
      assert NoRepeats(init) by {
        forall i | 0 < i < |init| ensures !Repeats(init[i - 1], init[i]) {
          assert !Repeats(msgs[i - 1], msgs[i]);
        }
      }
      FirstsKeepsUnrepeated(init);
      assert !Repeats(msgs[|msgs| - 2], msgs[|msgs| - 1]);
    }
  }

  /** Removing repetitions a second time changes nothing. */
  lemma FirstsIdempotent(msgs: seq<Json>)
    ensures Firsts(Firsts(msgs)) == Firsts(msgs)
  {
    FirstsDoNotRepeat(msgs);
    FirstsKeepsUnrepeated(Firsts(msgs));
  }

  /** A longer conversation keeps the messages of the shorter one in front. */
  lemma {:induction false} FirstsPrefix(xs: seq<Json>, ys: seq<Json>)
    ensures Firsts(xs) <= Firsts(xs + ys)
    decreases |ys|
  {
    if ys == [] {
      assert xs + ys == xs;
    } else {
      var all := xs + ys;
      assert all[..|all| - 1] == xs + ys[..|ys| - 1];
      FirstsPrefix(xs, ys[..|ys| - 1]);
    }
  }

  /** Every message is still there, or an equal one of the same role stands for it, in the same order. */
  lemma EachStaysOrRepeats(msgs: seq<Json>, i: nat)
    requires i < |msgs|
    ensures var k := |Firsts(msgs[..i + 1])|;
            0 < k <= |Firsts(msgs)| && (Firsts(msgs)[k - 1] == msgs[i] || Repeats(Firsts(msgs)[k - 1], msgs[i]))
  {
    hide Firsts, Repeats;
    LastKept(msgs[..i + 1]);
    FirstsPrefix(msgs[..i + 1], msgs[i + 1..]);
    assert msgs[..i + 1] + msgs[i + 1..] == msgs;
  }

  /** How the loop stands after it has seen `was[..n]`: it has found no incomparable neighbours, the first
      `i` messages are those kept, and the rest follows untouched. */
  predicate Walked(was: seq<Json>, n: nat, messages: seq<Json>, i: nat) {
    1 <= n <= |was| && i == |Firsts(was[..n])| && messages == Firsts(was[..n]) + was[n..] && Comparable(was[..n])
  }

  lemma WalkStarts(was: seq<Json>)
    requires was != []
    ensures Walked(was, 1, was, 1)
  {
    assert Firsts(was[..1]) == was[..1] && was[..1] + was[1..] == was;
  }

  /** The step compares `was[n]` with the message kept in place of `was[n - 1]`. */
  lemma WalkStep(was: seq<Json>, n: nat, messages: seq<Json>, i: nat)
    requires Walked(was, n, messages, i) && i < |messages|
    ensures n < |was| && 0 < i
    ensures Incomparable(messages[i - 1], messages[i]) ==> !Comparable(was)
    ensures !Incomparable(messages[i - 1], messages[i]) ==>
              if Repeats(messages[i - 1], messages[i]) then Walked(was, n + 1, messages[..i] + messages[i + 1..], i)
              else Walked(was, n + 1, messages, i + 1)
  {
    hide Comparable, Repeats, Incomparable;
    assert |messages| == i + |was[n..]|;
    var kept, x, rest := Firsts(was[..n]), was[n], was[n + 1..];
    assert was[n..] == [x] + rest;
    LastKept(was[..n]);
    ComparableNext(was, n);
    SameNeighbour(kept[|kept| - 1], was[n - 1], x);
    assert was[..n + 1][..n] == was[..n];
    assert messages[..i] == kept && messages[i] == x && messages[i + 1..] == rest;
    assert messages == kept + [x] + rest;
  }

  lemma SameNeighbour(kept: Json, prev: Json, curr: Json)
    requires kept == prev || Repeats(kept, prev)
    ensures Repeats(kept, curr) <==> Repeats(prev, curr)
    ensures Incomparable(kept, curr) <==> Incomparable(prev, curr)
  {
  }

  lemma WalkEnds(was: seq<Json>, n: nat, messages: seq<Json>, i: nat)
    requires Walked(was, n, messages, i) && i >= |messages|
    ensures messages == Firsts(was) && Comparable(was)
  {
    assert |messages| == i + |was[n..]|;
    assert was[..n] == was && was[n..] == [];
  }

  lemma ComparableNext(was: seq<Json>, n: nat)
    requires 1 <= n < |was|
    ensures Comparable(was[..n + 1]) <==> Comparable(was[..n]) && !Incomparable(was[n - 1], was[n])
    ensures Incomparable(was[n - 1], was[n]) ==> !Comparable(was)
  {
    hide Incomparable;
    var before, next := was[..n], was[..n + 1];
    if Comparable(next) {
      assert !Incomparable(next[n - 1], next[n]);
      forall i | 0 < i < n ensures !Incomparable(before[i - 1], before[i]) {
        assert !Incomparable(next[i - 1], next[i]);
      }
    }
    if Comparable(before) && !Incomparable(was[n - 1], was[n]) {
      forall i | 0 < i < |next| ensures !Incomparable(next[i - 1], next[i]) {
        assert i < n ==> !Incomparable(before[i - 1], before[i]);
      }
    }
  }

  // ---- the body, changed in place ----

  function Items(m: Fields, key: Bytes): seq<Json> {
    if Get(m, key).Arr? then m[key].items else []
  }

  function Billed(m: Fields): Fields {
    if Get(m, "system").Arr? then m["system" := Arr(WithoutBilling(Items(m, "system")))] else m
  }

  function Cleaned(m: Fields): Fields {
    if Get(m, "messages").Arr? then m["messages" := Arr(CleanMessages(Items(m, "messages")))] else m
  }

  function Deduplicated(m: Fields): Fields {
    if Get(m, "messages").Arr? then m["messages" := Arr(Firsts(Items(m, "messages")))] else m
  }

  /** The decoded request body. */
  class Body {
    var m: Fields

    constructor (fields: Fields)
      ensures m == fields
    {
      m := fields;
    }

    method DeleteFields(names: seq<Bytes>)
      modifies this
      ensures m == WithoutFields(old(m), names)
    {
      for i := 0 to |names|
        invariant m == WithoutFields(old(m), names[..i])
      {
        m := m - {names[i]};
        assert names[..i + 1] == names[..i] + [names[i]];
      }
      assert names[..|names|] == names;
    }

    method StripBillingHeader()
      modifies this
      ensures m == Billed(old(m))
    {
      if !Get(m, "system").Arr? {
        return;
      }
      var system := m["system"].items;
      for i := 0 to |system|
        invariant m == old(m) && NoBilling(system[..i])
      {
        var block := system[i];
        if block.Obj? && Get(block.fields, "type") == Str("text") {
          var text := Get(block.fields, "text");
          if text.Str? && Contains(text.text, BILLING) {
            WithoutBillingSkip(system, i);
            m := m["system" := Arr(system[..i] + system[i + 1..])];
            return;
          }
        }
        assert system[..i + 1] == system[..i] + [block];
      }
      assert system[..|system|] == system;
      WithoutBillingSkip(system, |system|);
      assert WithoutBilling(system) == system;
      assert m == m["system" := Arr(system)];
    }

    method StripCacheControl()
      modifies this
      ensures m == Cleaned(old(m))
    {
      hide CleanBlock;
      if !Get(m, "messages").Arr? {
        return;
      }
      var messages := m["messages"].items;
      ghost var was := messages;
      for i := 0 to |messages|
        invariant m == old(m) && |messages| == |was|
        invariant forall k :: 0 <= k < i ==> messages[k] == CleanMessage(was[k])
        invariant forall k :: i <= k < |was| ==> messages[k] == was[k]
      {
        var msg := messages[i];
        if msg.Obj? && Get(msg.fields, "content").Arr? {
          var content := StripBlocks(msg.fields["content"].items);
          messages := messages[i := Obj(msg.fields["content" := Arr(content)])];
        }
      }
      assert messages == CleanMessages(was);
      m := m["messages" := Arr(messages)];
    }

    /** The inner loop, over the content blocks of one message. */
    static method StripBlocks(content: seq<Json>) returns (r: seq<Json>)
      ensures r == CleanBlocks(content)
    {
      r := content;
      for j := 0 to |r|
        invariant |r| == |content|
        invariant forall k :: 0 <= k < j ==> r[k] == CleanBlock(content[k])
        invariant forall k :: j <= k < |content| ==> r[k] == content[k]
      {
        if r[j].Obj? {
          r := r[j := Obj(r[j].fields - {"cache_control"})];
        }
      }
    }

    /** The loop that shrinks the slice while it walks it; `panicked` when `==` meets two maps or two slices. */
    method StripDuplicateMessages() returns (panicked: bool)
      modifies this
      ensures panicked <==> !Comparable(Items(old(m), "messages"))
      ensures !panicked ==> m == Deduplicated(old(m))
    {
      if !Get(m, "messages").Arr? || |m["messages"].items| < 2 {
        assert Get(m, "messages").Arr? ==> m == m["messages" := Arr(m["messages"].items)];
        return false;
      }
      var messages := m["messages"].items;
      ghost var was, n := messages, 1;
      WalkStarts(was);
      assert m == m["messages" := Arr(was)];
      var i := 1;
      while i < |messages|
        invariant Walked(was, n, messages, i)
        invariant m == old(m)["messages" := Arr(messages)]
        decreases |messages| - i
      {
        hide Walked, Repeats, Incomparable, Firsts, Comparable;
        WalkStep(was, n, messages, i);
        var prev, curr := messages[i - 1], messages[i];
        if Incomparable(prev, curr) {
          return true;
        }
        if Repeats(prev, curr) {
          messages := messages[..i] + messages[i + 1..];
          m := m["messages" := Arr(messages)];
        } else {
          i := i + 1;
        }
        n := n + 1;
      }
      WalkEnds(was, n, messages, i);
      return false;
    }
  }

  // ---- the whole of Strip ----

  /** `Panicked` is a Go run-time panic. */
  datatype Outcome = Done(body: Bytes) | Failed | Panicked

  /** The fields after everything but the repeated messages is gone. */
  function Purged(m: Fields, provider: Bytes): Fields {
    Cleaned(Billed(WithoutFields(m, StrippedFields(provider))))
  }

  function Stripped(m: Fields, provider: Bytes): Fields {
    Deduplicated(Purged(m, provider))
  }

  predicate Panics(m: Fields, provider: Bytes) {
    !Comparable(Items(Purged(m, provider), "messages"))
  }

  function Rewritten(m: Fields, provider: Bytes, marshal: Json -> Bytes): Outcome {
    if Panics(m, provider) then Panicked else Done(marshal(Obj(Stripped(m, provider))))
  }

  function StripOutcome(
    body: Bytes, provider: Bytes, unmarshal: Bytes -> Option<Json>, marshal: Json -> Bytes): Outcome
  {
    if StrippedFields(provider) == [] then Done(body)
    else
      match unmarshal(body)
      case None => Failed
      case Some(Null) => Done(marshal(Null))
      case Some(Obj(m)) => Rewritten(m, provider, marshal)
      case Some(_) => Failed
  }

  /** A null body decodes to a nil map, which has no keys and is written back as null. */
  method Strip(body: Bytes, provider: Bytes, unmarshal: Bytes -> Option<Json>, marshal: Json -> Bytes)
    returns (r: Outcome)
    ensures r == StripOutcome(body, provider, unmarshal, marshal)
  {
    var fields := StrippedFields(provider);
    if fields == [] {
      return Done(body);
    }
    var parsed := unmarshal(body);
    if parsed == None || !(parsed.value.Obj? || parsed.value.Null?) {
      return Failed;
    }
    if parsed.value.Null? {
      return Done(marshal(Null));
    }
    var m := new Body(parsed.value.fields);
    m.DeleteFields(fields);
    m.StripBillingHeader();
    m.StripCacheControl();
    var panicked := m.StripDuplicateMessages();
    if panicked {
      return Panicked;
    }
    return Done(marshal(Obj(m.m)));
  }

  predicate SameRole(x: Json, y: Json) {
    x.Obj? == y.Obj? && (x.Obj? ==> Get(x.fields, "role") == Get(y.fields, "role"))
  }

  lemma CleaningKeepsRoles(msgs: seq<Json>)
    ensures Comparable(CleanMessages(msgs)) <==> Comparable(msgs)
  {
    hide CleanMessage, Incomparable;
    var clean := CleanMessages(msgs);
    forall i | 0 < i < |msgs| ensures Incomparable(clean[i - 1], clean[i]) <==> Incomparable(msgs[i - 1], msgs[i]) {
      CleaningKeepsRole(msgs[i - 1]);
      CleaningKeepsRole(msgs[i]);
      RolesDecide(clean[i - 1], msgs[i - 1], clean[i], msgs[i]);
    }
  }

  lemma CleaningKeepsRole(msg: Json)
    ensures SameRole(CleanMessage(msg), msg)
  {
  }

  lemma RolesDecide(a: Json, b: Json, c: Json, d: Json)
    requires SameRole(a, b) && SameRole(c, d)
    ensures Incomparable(a, c) <==> Incomparable(b, d)
  {
  }

  /** Strip panics exactly on a body with neighbouring messages whose roles are both objects or both arrays. */
  lemma PanicsIff(m: Fields, provider: Bytes)
    ensures Panics(m, provider) <==> !Comparable(Items(m, "messages"))
  {
    hide Purged, Comparable;
    PurgedMessages(m, provider);
    if Get(m, "messages").Arr? {
      CleaningKeepsRoles(Items(m, "messages"));
    } else {
      assert Items(Purged(m, provider), "messages") == Items(m, "messages") == [];
    }
  }

  /** Such a body: two messages whose role is an empty object. */
  lemma ObjectRolesPanic(marshal: Json -> Bytes)
    ensures var msg := Obj(map["role" := Obj(map[])]);
            Rewritten(map["messages" := Arr([msg, msg])], "or", marshal) == Panicked
  {
    var msg := Obj(map["role" := Obj(map[])]);
    var m: Fields := map["messages" := Arr([msg, msg])];
    PanicsIff(m, "or");
    assert Items(m, "messages") == [msg, msg];
    assert Incomparable([msg, msg][0], [msg, msg][1]);
  }

  // ---- bodies that strip alike ----

  predicate SameEntry(a: Fields, b: Fields, k: Bytes) {
    (k in a <==> k in b) && (k in a ==> a[k] == b[k])
  }

  /** Equal but for cache_control. */
  ghost predicate BlocksAlike(x: Json, y: Json) {
    x == y || (x.Obj? && y.Obj? && forall k :: k != "cache_control" ==> SameEntry(x.fields, y.fields, k))
  }

  ghost predicate AllBlocksAlike(xs: seq<Json>, ys: seq<Json>) {
    |xs| == |ys| && forall i :: 0 <= i < |xs| ==> BlocksAlike(xs[i], ys[i])
  }

  /** Equal but for cache_control on content blocks. */
  ghost predicate MessagesAlike(x: Json, y: Json) {
    x == y ||
    (&& x.Obj? && y.Obj? && Get(x.fields, "content").Arr? && Get(y.fields, "content").Arr?
     && (forall k :: k != "content" ==> SameEntry(x.fields, y.fields, k))
     && AllBlocksAlike(Items(x.fields, "content"), Items(y.fields, "content")))
  }

  /** `ys` starts with messages alike to `xs`. */
  ghost predicate StartsAlike(xs: seq<Json>, ys: seq<Json>) {
    |xs| <= |ys| && forall i :: 0 <= i < |xs| ==> MessagesAlike(xs[i], ys[i])
  }

  /** The first billing blocks are at the same place, and everything else is equal. */
  ghost predicate SystemsAlike(x: Json, y: Json) {
    x == y || (x.Arr? && y.Arr? && exists i :: BilledAt(x.items, y.items, i))
  }

  predicate BilledAt(xs: seq<Json>, ys: seq<Json>, i: nat) {
    && i < |xs| == |ys| && NoBilling(xs[..i]) && IsBilling(xs[i]) && IsBilling(ys[i])
    && xs[..i] == ys[..i] && xs[i + 1..] == ys[i + 1..]
  }

  /** Equal outside the messages, but for the listed fields and the first billing block. */
  ghost predicate FrameAlike(a: Fields, b: Fields, provider: Bytes) {
    && (forall k :: k !in StrippedFields(provider) && k != "system" && k != "messages" ==> SameEntry(a, b, k))
    && ("system" in a <==> "system" in b) && SystemsAlike(Get(a, "system"), Get(b, "system"))
  }

  ghost predicate Alike(a: Fields, b: Fields, provider: Bytes) {
    && FrameAlike(a, b, provider)
    && ("messages" in a <==> "messages" in b)
    && (Get(a, "messages") == Get(b, "messages") ||
        (Get(a, "messages").Arr? && Get(b, "messages").Arr? &&
         |Items(a, "messages")| == |Items(b, "messages")| &&
         StartsAlike(Items(a, "messages"), Items(b, "messages"))))
  }

  /** `b` continues the conversation of `a`. */
  ghost predicate Continues(a: Fields, b: Fields, provider: Bytes) {
    FrameAlike(a, b, provider) && Get(a, "messages").Arr? && Get(b, "messages").Arr? &&
    StartsAlike(Items(a, "messages"), Items(b, "messages"))
  }

  lemma CleanBlocksAlike(x: Json, y: Json)
    requires BlocksAlike(x, y)
    ensures CleanBlock(x) == CleanBlock(y)
  {
    if x != y {
      var p, q := x.fields - {"cache_control"}, y.fields - {"cache_control"};
      forall k ensures SameEntry(p, q, k) {
        assert k != "cache_control" ==> SameEntry(x.fields, y.fields, k);
      }
      SameMap(p, q);
    }
  }

  lemma SameMap(a: Fields, b: Fields)
    requires forall k :: SameEntry(a, b, k)
    ensures a == b
  {
    assert forall k :: k in a <==> k in b by {
      forall k ensures k in a <==> k in b {
        assert SameEntry(a, b, k);
      }
    }
    forall k | k in a ensures a[k] == b[k] {
      assert SameEntry(a, b, k);
    }
  }

  lemma CleanMessagesAlike(x: Json, y: Json)
    requires MessagesAlike(x, y)
    ensures CleanMessage(x) == CleanMessage(y)
  {
    hide BlocksAlike, CleanBlock;
    if x != y {
      var xs, ys := Items(x.fields, "content"), Items(y.fields, "content");
      forall i | 0 <= i < |xs| ensures CleanBlock(xs[i]) == CleanBlock(ys[i]) {
        CleanBlocksAlike(xs[i], ys[i]);
      }
      assert CleanBlocks(xs) == CleanBlocks(ys);
      var p, q := CleanMessage(x).fields, CleanMessage(y).fields;
      forall k ensures SameEntry(p, q, k) {
        assert k != "content" ==> SameEntry(x.fields, y.fields, k);
      }
      SameMap(p, q);
    }
  }

  lemma StartsClean(xs: seq<Json>, ys: seq<Json>)
    requires StartsAlike(xs, ys)
    ensures |xs| <= |ys| && CleanMessages(xs) == CleanMessages(ys)[..|xs|]
  {
    hide MessagesAlike, CleanMessage;
    forall i | 0 <= i < |xs| ensures CleanMessage(xs[i]) == CleanMessage(ys[i]) {
      CleanMessagesAlike(xs[i], ys[i]);
    }
  }

  lemma WithoutBillingAt(system: seq<Json>, i: nat)
    requires i < |system| && NoBilling(system[..i]) && IsBilling(system[i])
    ensures WithoutBilling(system) == system[..i] + system[i + 1..]
  {
    WithoutBillingSkip(system, i);
    assert system[i..][1..] == system[i + 1..];
  }

  lemma SystemsStripAlike(x: Json, y: Json)
    requires SystemsAlike(x, y) && x.Arr?
    ensures y.Arr? && WithoutBilling(x.items) == WithoutBilling(y.items)
  {
    if x != y {
      var i :| BilledAt(x.items, y.items, i);
      WithoutBillingAt(x.items, i);
      WithoutBillingAt(y.items, i);
    }
  }

  lemma PurgedMessages(m: Fields, provider: Bytes)
    ensures "messages" in Purged(m, provider) <==> "messages" in m
    ensures Get(m, "messages").Arr? ==>
              Get(Purged(m, provider), "messages") == Arr(CleanMessages(Items(m, "messages")))
    ensures !Get(m, "messages").Arr? ==> Get(Purged(m, provider), "messages") == Get(m, "messages")
  {
  }

  lemma PurgedOthers(m: Fields, provider: Bytes, k: Bytes)
    requires k != "messages"
    ensures k in Purged(m, provider) <==> k in m && k !in StrippedFields(provider)
    ensures k in Purged(m, provider) ==>
              Purged(m, provider)[k] ==
              if k == "system" && m[k].Arr? then Arr(WithoutBilling(m[k].items)) else m[k]
  {
  }

  lemma FramesPurgeAlike(a: Fields, b: Fields, provider: Bytes, k: Bytes)
    requires FrameAlike(a, b, provider) && k != "messages"
    ensures SameEntry(Purged(a, provider), Purged(b, provider), k)
  {
    hide Purged, SystemsAlike, WithoutBilling;
    PurgedOthers(a, provider, k);
    PurgedOthers(b, provider, k);
    if k == "system" {
      if "system" in a {
        if a[k].Arr? {
          SystemsStripAlike(a[k], b[k]);
        } else if b[k].Arr? {
          SystemsSymmetric(a[k], b[k]);
        } else {
          SystemsSymmetric(a[k], b[k]);
        }
      }
    } else if k !in StrippedFields(provider) {
      assert SameEntry(a, b, k);
    }
  }

  lemma SystemsSymmetric(x: Json, y: Json)
    requires SystemsAlike(x, y) && !x.Arr?
    ensures x == y
  {
  }

  /** What differs only in the volatile parts strips to the same body, byte for byte. */
  lemma CacheStable(a: Fields, b: Fields, provider: Bytes, marshal: Json -> Bytes)
    requires Alike(a, b, provider)
    ensures Rewritten(a, provider, marshal) == Rewritten(b, provider, marshal)
  {
    hide Purged, FrameAlike, StartsAlike;
    var p, q := Purged(a, provider), Purged(b, provider);
    PurgedMessages(a, provider);
    PurgedMessages(b, provider);
    if Get(a, "messages").Arr? && Get(a, "messages") != Get(b, "messages") {
      var xs, ys := Items(a, "messages"), Items(b, "messages");
      StartsClean(xs, ys);
      assert CleanMessages(ys)[..|xs|] == CleanMessages(ys);
    }
    forall k ensures SameEntry(p, q, k) {
      if k != "messages" {
        FramesPurgeAlike(a, b, provider, k);
      }
    }
    SameMap(p, q);
  }

  lemma ComparablePrefix(xs: seq<Json>, n: nat)
    requires n <= |xs| && Comparable(xs)
    ensures Comparable(xs[..n])
  {
    forall i | 0 < i < n ensures !Incomparable(xs[..n][i - 1], xs[..n][i]) {
      assert !Incomparable(xs[i - 1], xs[i]);
    }
  }

  lemma StrippedMessages(m: Fields, provider: Bytes)
    requires Get(m, "messages").Arr?
    ensures Items(Purged(m, provider), "messages") == CleanMessages(Items(m, "messages"))
    ensures Items(Stripped(m, provider), "messages") == Firsts(CleanMessages(Items(m, "messages")))
  {
    hide Purged;
    PurgedMessages(m, provider);
  }

  lemma StrippedOthers(m: Fields, provider: Bytes, k: Bytes)
    requires k != "messages"
    ensures SameEntry(Stripped(m, provider), Purged(m, provider), k)
  {
    hide Purged;
  }

  /** The next turn of a conversation strips to a body whose messages start with the previous turn's and whose
      other fields are the same. */
  lemma TurnsExtend(a: Fields, b: Fields, provider: Bytes)
    requires Continues(a, b, provider) && !Panics(b, provider)
    ensures !Panics(a, provider)
    ensures Items(Stripped(a, provider), "messages") <= Items(Stripped(b, provider), "messages")
    ensures forall k :: k != "messages" ==> SameEntry(Stripped(a, provider), Stripped(b, provider), k)
  {
    hide Purged, Stripped, FrameAlike, StartsAlike, Comparable, CleanMessages, Firsts;
    StrippedMessages(a, provider);
    StrippedMessages(b, provider);
    var xs, ys := CleanMessages(Items(a, "messages")), CleanMessages(Items(b, "messages"));
    StartsClean(Items(a, "messages"), Items(b, "messages"));
    ComparablePrefix(ys, |xs|);
    FirstsPrefix(xs, ys[|xs|..]);
    assert xs + ys[|xs|..] == ys;
    forall k | k != "messages" ensures SameEntry(Stripped(a, provider), Stripped(b, provider), k) {
      FramesPurgeAlike(a, b, provider, k);
      StrippedOthers(a, provider, k);
      StrippedOthers(b, provider, k);
    }
  }

  // ---- stripping twice ----

  function MarkedBlocks(system: seq<Json>): nat {
    if system == [] then 0 else (if IsBilling(system[0]) then 1 else 0) + MarkedBlocks(system[1..])
  }

  lemma {:induction false} OneFewerMarked(system: seq<Json>)
    ensures MarkedBlocks(WithoutBilling(system)) == if MarkedBlocks(system) > 0 then MarkedBlocks(system) - 1 else 0
    ensures WithoutBilling(system) == system <==> MarkedBlocks(system) == 0
  {
    hide IsBilling;
    if system != [] {
      OneFewerMarked(system[1..]);
      if !IsBilling(system[0]) {
        var rest := WithoutBilling(system[1..]);
        assert ([system[0]] + rest)[1..] == rest;
        assert system == [system[0]] + system[1..];
      }
    }
  }

  lemma CleanTwice(msgs: seq<Json>)
    ensures CleanMessages(CleanMessages(msgs)) == CleanMessages(msgs)
  {
    hide CleanMessage;
    forall i | 0 <= i < |msgs| ensures CleanMessage(CleanMessage(msgs[i])) == CleanMessage(msgs[i]) {
      CleanMessageTwice(msgs[i]);
    }
  }

  lemma CleanMessageTwice(msg: Json)
    ensures CleanMessage(CleanMessage(msg)) == CleanMessage(msg)
  {
    if msg.Obj? && Get(msg.fields, "content").Arr? {
      var once := CleanBlocks(msg.fields["content"].items);
      forall i | 0 <= i < |once| ensures CleanBlock(once[i]) == once[i] {
        CleanBlockTwice(msg.fields["content"].items[i]);
      }
      assert CleanBlocks(once) == once;
    }
  }

  lemma CleanBlockTwice(block: Json)
    ensures CleanBlock(CleanBlock(block)) == CleanBlock(block)
  {
    if block.Obj? {
      var once := block.fields - {"cache_control"};
      assert once - {"cache_control"} == once;
    }
  }

  /** Removing repetitions commutes with staying clean, and keeps neighbours comparable. */
  lemma {:induction false} FirstsStayClean(msgs: seq<Json>)
    requires forall i :: 0 <= i < |msgs| ==> CleanMessage(msgs[i]) == msgs[i]
    ensures forall i :: 0 <= i < |Firsts(msgs)| ==> CleanMessage(Firsts(msgs)[i]) == Firsts(msgs)[i]
  {
    hide CleanMessage, Repeats;
    if |msgs| > 1 {
      FirstsStayClean(msgs[..|msgs| - 1]);
    }
  }

  lemma {:induction false} FirstsStayComparable(msgs: seq<Json>)
    requires Comparable(msgs)
    ensures Comparable(Firsts(msgs))
  {
    hide Incomparable, Repeats;
    if |msgs| > 1 {
      var init, last := msgs[..|msgs| - 1], msgs[|msgs| - 1];
      ComparablePrefix(msgs, |msgs| - 1);
      FirstsStayComparable(init);
      LastKept(init);
      var kept := Firsts(init);
      SameNeighbour(kept[|kept| - 1], init[|init| - 1], last);
      assert !Incomparable(msgs[|msgs| - 2], msgs[|msgs| - 1]);
    }
  }

  /** The messages a second pass sees are already clean and without repetitions. */
  lemma SettledMessages(msgs: seq<Json>)
    requires Comparable(CleanMessages(msgs))
    ensures var once := Firsts(CleanMessages(msgs));
            CleanMessages(once) == once && Firsts(once) == once && Comparable(once)
  {
    hide CleanMessage, Firsts, Comparable, Repeats;
    CleanTwice(msgs);
    var clean := CleanMessages(msgs);
    assert forall i :: 0 <= i < |clean| ==> CleanMessage(clean[i]) == CleanMessages(clean)[i];
    FirstsStayClean(clean);
    FirstsStayComparable(clean);
    FirstsIdempotent(clean);
  }

  /** Stripping a stripped body again changes nothing exactly when its system prompt held at most one billing
      block: the source removes only the first one it finds. */
  lemma StripTwiceIff(m: Fields, provider: Bytes)
    requires !Panics(m, provider)
    ensures !Panics(Stripped(m, provider), provider)
    ensures Stripped(Stripped(m, provider), provider) == Stripped(m, provider) <==>
            MarkedBlocks(Items(m, "system")) <= 1
  {
    hide Purged, Stripped, Comparable, CleanMessages, Firsts, WithoutBilling, MarkedBlocks;
    var once := Stripped(m, provider);
    MessagesTwice(m, provider);
    SystemTwice(m, provider);
    forall k | k != "system" ensures SameEntry(Stripped(once, provider), once, k) {
      if k != "messages" {
        OthersTwice(m, provider, k);
      }
    }
    if SameEntry(Stripped(once, provider), once, "system") {
      SameMap(Stripped(once, provider), once);
    }
  }

  /** A body that changes when it is stripped again: two marked blocks. */
  lemma TwoMarkedBlocksRemain()
    ensures var marked := Obj(map["type" := Str("text"), "text" := Str(BILLING)]);
            var m: Fields := map["system" := Arr([marked, marked])];
            Stripped(Stripped(m, "or"), "or") != Stripped(m, "or")
  {
    var marked := Obj(map["type" := Str("text"), "text" := Str(BILLING)]);
    var two := [marked, marked];
    var m: Fields := map["system" := Arr(two)];
    assert HasPrefix(BILLING[0..], BILLING);
    assert IsBilling(marked);
    assert two[1..] == [marked] && two[1..][1..] == [];
    assert MarkedBlocks(two[1..]) == 1 && MarkedBlocks(two) == 2;
    assert Items(m, "system") == two;
    assert Items(m, "messages") == [];
    PanicsIff(m, "or");
    StripTwiceIff(m, "or");
  }

  lemma MessagesTwice(m: Fields, provider: Bytes)
    requires !Panics(m, provider)
    ensures var once := Stripped(m, provider);
            !Panics(once, provider) && SameEntry(Stripped(once, provider), once, "messages")
  {
    hide Purged, Comparable, CleanMessages, Firsts;
    var once := Stripped(m, provider);
    PurgedMessages(m, provider);
    PurgedMessages(once, provider);
    if Get(m, "messages").Arr? {
      SettledMessages(Items(m, "messages"));
    }
  }

  lemma OthersTwice(m: Fields, provider: Bytes, k: Bytes)
    requires k != "messages" && k != "system"
    ensures SameEntry(Stripped(Stripped(m, provider), provider), Stripped(m, provider), k)
  {
    hide Purged, Stripped;
    var once := Stripped(m, provider);
    PurgedOthers(m, provider, k);
    PurgedOthers(once, provider, k);
    StrippedOthers(m, provider, k);
    StrippedOthers(once, provider, k);
  }

  lemma SystemTwice(m: Fields, provider: Bytes)
    ensures var once := Stripped(m, provider);
            SameEntry(Stripped(once, provider), once, "system") <==> MarkedBlocks(Items(m, "system")) <= 1
  {
    hide Purged, Stripped, WithoutBilling, IsBilling;
    var once := Stripped(m, provider);
    PurgedOthers(m, provider, "system");
    PurgedOthers(once, provider, "system");
    StrippedOthers(m, provider, "system");
    StrippedOthers(once, provider, "system");
    OneFewerMarked(Items(m, "system"));
    OneFewerMarked(WithoutBilling(Items(m, "system")));
  }

  // ---- cache_control, everywhere or in messages only ----

  predicate Marks(block: Json) {
    block.Obj? && "cache_control" in block.fields
  }

  predicate Unmarked(blocks: seq<Json>) {
    forall b :: b in blocks ==> !Marks(b)
  }

  predicate UnmarkedMessage(msg: Json) {
    msg.Obj? ==> Unmarked(Items(msg.fields, "content"))
  }

  predicate UnmarkedMessages(msgs: seq<Json>) {
    forall msg :: msg in msgs ==> UnmarkedMessage(msg)
  }

  /** No content block, of the system prompt or of a message, holds cache_control. */
  predicate CacheFree(m: Fields) {
    Unmarked(Items(m, "system")) && UnmarkedMessages(Items(m, "messages"))
  }

  lemma CleanMessageUnmarked(msg: Json)
    ensures UnmarkedMessage(CleanMessage(msg))
  {
    if msg.Obj? && Get(msg.fields, "content").Arr? {
      var blocks := CleanBlocks(msg.fields["content"].items);
      forall b | b in blocks ensures !Marks(b) {
        var i :| 0 <= i < |blocks| && blocks[i] == b;
        assert b == CleanBlock(msg.fields["content"].items[i]);
      }
    }
  }

  lemma CleanMessagesUnmarked(msgs: seq<Json>)
    ensures UnmarkedMessages(CleanMessages(msgs))
  {
    hide CleanMessage, UnmarkedMessage;
    var clean := CleanMessages(msgs);
    forall msg | msg in clean ensures UnmarkedMessage(msg) {
      var i :| 0 <= i < |clean| && clean[i] == msg;
      CleanMessageUnmarked(msgs[i]);
    }
  }

  lemma {:induction false} FirstsAreMembers(msgs: seq<Json>)
    ensures forall msg :: msg in Firsts(msgs) ==> msg in msgs
  {
    if |msgs| > 1 {
      FirstsAreMembers(msgs[..|msgs| - 1]);
    }
  }

  lemma StrippedSystem(m: Fields, provider: Bytes)
    ensures Items(Stripped(m, provider), "system") == WithoutBilling(Items(m, "system"))
  {
    hide Purged, Stripped;
    PurgedOthers(m, provider, "system");
    StrippedOthers(m, provider, "system");
  }

  lemma StrippedMessagesUnmarked(m: Fields, provider: Bytes)
    ensures UnmarkedMessages(Items(Stripped(m, provider), "messages"))
  {
    hide UnmarkedMessage, CleanMessages, Firsts;
    if Get(m, "messages").Arr? {
      var clean := CleanMessages(Items(m, "messages"));
      StrippedMessages(m, provider);
      CleanMessagesUnmarked(Items(m, "messages"));
      FirstsAreMembers(clean);
    } else {
      NoMessages(m, provider);
    }
  }

  lemma NoMessages(m: Fields, provider: Bytes)
    requires !Get(m, "messages").Arr?
    ensures Items(Stripped(m, provider), "messages") == []
  {
    hide Purged;
    PurgedMessages(m, provider);
  }

  /** A stripped body is free of cache_control exactly when the system blocks that stay had none: messages are
      cleaned, the system prompt is not. */
  lemma CacheFreeIff(m: Fields, provider: Bytes)
    ensures CacheFree(Stripped(m, provider)) <==>
            forall b :: b in WithoutBilling(Items(m, "system")) && b.Obj? ==> "cache_control" !in b.fields
  {
    hide Stripped, WithoutBilling, UnmarkedMessages;
    StrippedSystem(m, provider);
    StrippedMessagesUnmarked(m, provider);
  }

  /** A system block that keeps its cache_control. */
  lemma SystemStaysMarked()
    ensures var block := Obj(map["type" := Str("text"), "text" := Str(""), "cache_control" := Obj(map[])]);
            !CacheFree(Stripped(map["system" := Arr([block])], "or"))
  {
    var block := Obj(map["type" := Str("text"), "text" := Str(""), "cache_control" := Obj(map[])]);
    var m: Fields := map["system" := Arr([block])];
    CacheFreeIff(m, "or");
    assert !HasPrefix(""[0..], BILLING);
    assert !IsBilling(block);
    assert [block][1..] == [];
    assert WithoutBilling([block]) == [block] + WithoutBilling([]);
    assert Items(m, "system") == [block];
    assert block in WithoutBilling(Items(m, "system"));
  }
}
