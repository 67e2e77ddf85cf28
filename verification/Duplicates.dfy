/** What removing repeated messages does, said of roles and contents, and what each provider is spared
    (internal/wire/strip.go:9-55, 102-121). */
module Duplicates {
  import opened Text
  import opened Strip

  /** Two messages with the same role and the same content, a missing one being like a null. */
  predicate SameMessage(x: Json, y: Json) {
    && x.Obj? && y.Obj?
    && At(x.fields, "role") == At(y.fields, "role") && At(x.fields, "content") == At(y.fields, "content")
  }

  function At(m: Fields, key: Bytes): Json {
    if key in m.Keys then m[key] else Null
  }

  /** `ys` are the messages of `xs` with each run of equal neighbours shrunk to one: message i is stood for by
      number at[i], and the numbers go up in steps of at most one from the first to the last. */
  ghost predicate Shrinks(xs: seq<Json>, ys: seq<Json>, at: seq<nat>) {
    && |at| == |xs| && (xs == [] <==> ys == [])
    && (forall i :: 0 <= i < |at| ==> at[i] < |ys| && (ys[at[i]] == xs[i] || SameMessage(ys[at[i]], xs[i])))
    && (xs != [] ==> at[0] == 0 && at[|at| - 1] == |ys| - 1)
    && (forall i :: 0 < i < |at| ==> at[i - 1] <= at[i] <= at[i - 1] + 1)
  }

  predicate NoEqualNeighbours(msgs: seq<Json>) {
    forall i :: 0 < i < |msgs| ==> !SameMessage(msgs[i - 1], msgs[i])
  }

  lemma RepeatsIsSame(x: Json, y: Json)
    ensures Repeats(x, y) <==> SameMessage(x, y)
  {
  }

  lemma NoRepeatsIsNoEqual(msgs: seq<Json>)
    ensures NoRepeats(msgs) <==> NoEqualNeighbours(msgs)
  {
    hide Repeats, SameMessage;
    forall i | 0 < i < |msgs| ensures Repeats(msgs[i - 1], msgs[i]) <==> SameMessage(msgs[i - 1], msgs[i]) {
      RepeatsIsSame(msgs[i - 1], msgs[i]);
    }
  }

  /** The number of the message that stands for message i. */
  function Place(msgs: seq<Json>, i: nat): nat
    requires i < |msgs|
  {
    if |Firsts(msgs[..i + 1])| == 0 then 0 else |Firsts(msgs[..i + 1])| - 1
  }

  function Places(msgs: seq<Json>): (r: seq<nat>)
    ensures |r| == |msgs| && forall i :: 0 <= i < |msgs| ==> r[i] == Place(msgs, i)
  {
    seq(|msgs|, i requires 0 <= i < |msgs| => Place(msgs, i))
  }

  lemma PlaceStands(msgs: seq<Json>, i: nat)
    requires i < |msgs|
    ensures var k := Place(msgs, i);
            k < |Firsts(msgs)| && (Firsts(msgs)[k] == msgs[i] || SameMessage(Firsts(msgs)[k], msgs[i]))
  {
    hide Firsts, Repeats, SameMessage;
    EachStaysOrRepeats(msgs, i);
    RepeatsIsSame(Firsts(msgs)[Place(msgs, i)], msgs[i]);
  }

  lemma PlaceSteps(msgs: seq<Json>, i: nat)
    requires 0 < i < |msgs|
    ensures Place(msgs, i - 1) <= Place(msgs, i) <= Place(msgs, i - 1) + 1
  {
    hide Repeats;
    var t := msgs[..i + 1];
    assert t[..|t| - 1] == msgs[..i];
    LastKept(msgs[..i]);
  }

  lemma FirstsShrink(msgs: seq<Json>)
    ensures Shrinks(msgs, Firsts(msgs), Places(msgs))
  {
    hide Firsts, SameMessage, Repeats;
    forall i | 0 <= i < |msgs|
      ensures Place(msgs, i) < |Firsts(msgs)|
      ensures Firsts(msgs)[Place(msgs, i)] == msgs[i] || SameMessage(Firsts(msgs)[Place(msgs, i)], msgs[i])
    {
      PlaceStands(msgs, i);
    }
    forall i | 0 < i < |msgs| ensures Place(msgs, i - 1) <= Place(msgs, i) <= Place(msgs, i - 1) + 1 {
      PlaceSteps(msgs, i);
    }
    if msgs == [] {
      FirstsOfFew(msgs);
    } else {
      FirstsOfFew(msgs[..1]);
      LastKept(msgs);
      assert msgs[..|msgs|] == msgs;
    }
  }

  lemma FirstsOfFew(msgs: seq<Json>)
    requires |msgs| <= 1
    ensures Firsts(msgs) == msgs
  {
  }

  /** After the pass over repeated messages every message is there, or one of equal role and content stands for
      it, in the same order; neighbours differ in role or content; and nothing has changed exactly when no two
      neighbouring objects were equal in both. */
  lemma OnlyRepetitionsGo(m: Fields)
    ensures var xs, ys := Items(m, "messages"), Items(Deduplicated(m), "messages");
            && (exists at :: Shrinks(xs, ys, at))
            && NoEqualNeighbours(ys)
            && (ys == xs <==> NoEqualNeighbours(xs))
  {
    hide Firsts, Shrinks, NoEqualNeighbours;
    var xs := Items(m, "messages");
    assert Get(m, "messages").Arr? ==> Items(Deduplicated(m), "messages") == Firsts(xs);
    if !Get(m, "messages").Arr? {
      FirstsOfFew(xs);
    }
    FirstsShrink(xs);
    FirstsDoNotRepeat(xs);
    NoRepeatsIsNoEqual(Firsts(xs));
    NoRepeatsIsNoEqual(xs);
    if NoEqualNeighbours(xs) {
      FirstsKeepsUnrepeated(xs);
    }
  }

  /** In a stripped body no message is lost: the messages of the cleaned body shrink to those that are left. */
  lemma StrippedKeepsMessages(m: Fields, provider: Bytes)
    ensures var xs, ys := Items(Purged(m, provider), "messages"), Items(Stripped(m, provider), "messages");
            (exists at :: Shrinks(xs, ys, at)) && NoEqualNeighbours(ys) && (ys == xs <==> NoEqualNeighbours(xs))
  {
    hide Purged, Deduplicated, Shrinks, NoEqualNeighbours;
    OnlyRepetitionsGo(Purged(m, provider));
  }

  /** Two neighbouring user messages with different contents both stay. */
  lemma DifferentContentsStay()
    ensures var a := Obj(map["role" := Str("user"), "content" := Str("first")]);
            var b := Obj(map["role" := Str("user"), "content" := Str("second")]);
            Items(Stripped(map["messages" := Arr([a, b])], "or"), "messages") == [a, b]
  {
    var a := Obj(map["role" := Str("user"), "content" := Str("first")]);
    var b := Obj(map["role" := Str("user"), "content" := Str("second")]);
    var m: Fields := map["messages" := Arr([a, b])];
    assert !SameMessage(a, b) by {
      assert At(a.fields, "content") == Str("first") && At(b.fields, "content") == Str("second");
    }
    PurgedMessages(m, "or");
    assert Items(m, "messages") == [a, b];
    assert CleanMessages([a, b]) == [a, b];
    StrippedKeepsMessages(m, "or");
  }

  /** The role values on which Go's comparison panics: both objects or both arrays. */
  predicate RolesClash(x: Json, y: Json) {
    x.Obj? && y.Obj? &&
    ((At(x.fields, "role").Obj? && At(y.fields, "role").Obj?) ||
     (At(x.fields, "role").Arr? && At(y.fields, "role").Arr?))
  }

  /** Strip panics exactly if two neighbouring messages of the body have such roles. */
  lemma PanicsOnClash(m: Fields, provider: Bytes)
    ensures Panics(m, provider) <==>
            var xs := Items(m, "messages");
            exists i :: 0 < i < |xs| && RolesClash(xs[i - 1], xs[i])
  {
    hide Panics;
    PanicsIff(m, provider);
    var xs := Items(m, "messages");
    forall i | 0 < i < |xs| ensures Incomparable(xs[i - 1], xs[i]) <==> RolesClash(xs[i - 1], xs[i]) {
      ClashIsIncomparable(xs[i - 1], xs[i]);
    }
  }

  lemma ClashIsIncomparable(x: Json, y: Json)
    ensures Incomparable(x, y) <==> RolesClash(x, y)
  {
  }

  // ---- the billing header ----

  /** The text of a block, if it is one. */
  predicate TextIs(block: Json, t: Bytes) {
    block.Obj? && "type" in block.fields && block.fields["type"] == Str("text") &&
    "text" in block.fields && block.fields["text"] == Str(t)
  }

  /** Some part of the text is the name of the header. */
  ghost predicate NamesBilling(t: Bytes) {
    exists before, after :: t == before + "x-anthropic-billing-header" + after
  }

  /** The block that goes is the first text block that names the header, wherever in its text it does. */
  lemma BillingMeans(block: Json)
    ensures IsBilling(block) <==> exists t :: TextIs(block, t) && NamesBilling(t)
  {
    if IsBilling(block) {
      var t := Get(block.fields, "text").text;
      ContainsParts(t, BILLING);
      assert TextIs(block, t) && NamesBilling(t);
    }
    if t :| TextIs(block, t) && NamesBilling(t) {
      ContainsParts(t, BILLING);
    }
  }

  lemma ContainsParts(s: Bytes, part: Bytes)
    ensures Contains(s, part) <==> exists before, after :: s == before + part + after
  {
    if Contains(s, part) {
      var i :| 0 <= i <= |s| && HasPrefix(s[i..], part);
      var before, after := s[..i], s[i + |part|..];
      assert s == before + part + after;
    }
    if before, after :| s == before + part + after {
      assert s[|before|..] == part + after;
    }
  }

  // ---- the fields of each provider ----

  predicate LosesMetadata(provider: Bytes) {
    provider in {"ds", "or", "oc", "al", "km", "mm", "gr", "mt", "mx", "za", "bp", "sf", "nv", "oa", "xa", "lo", "gm"}
  }

  /** Which fields a stripped body lacks: metadata for the providers above, top_k for those but ds and oc, and
      stop_sequences for gm; every other field stays. */
  lemma FieldsLost(m: Fields, provider: Bytes, k: Bytes)
    ensures k in Stripped(m, provider) <==>
            && k in m
            && (k == "metadata" ==> !LosesMetadata(provider))
            && (k == "top_k" ==> !LosesMetadata(provider) || provider == "ds" || provider == "oc")
            && (k == "stop_sequences" ==> provider != "gm")
  {
    hide Purged, Stripped;
    if k == "messages" {
      PurgedMessages(m, provider);
      MessagesStay(m, provider);
    } else {
      PurgedOthers(m, provider, k);
      StrippedOthers(m, provider, k);
      Listed(provider, k);
    }
  }

  lemma MessagesStay(m: Fields, provider: Bytes)
    ensures "messages" in Stripped(m, provider) <==> "messages" in Purged(m, provider)
  {
    hide Purged;
  }

  lemma Listed(provider: Bytes, k: Bytes)
    ensures k in StrippedFields(provider) <==>
            || (k == "metadata" && LosesMetadata(provider))
            || (k == "top_k" && LosesMetadata(provider) && provider != "ds" && provider != "oc")
            || (k == "stop_sequences" && provider == "gm")
  {
    var one: seq<Bytes> := ["metadata"];
    var two: seq<Bytes> := ["top_k", "metadata"];
    var three: seq<Bytes> := ["top_k", "metadata", "stop_sequences"];
    assert k in one <==> k == "metadata";
    assert k in two <==> k == "top_k" || k == "metadata";
    assert k in three <==> k == "top_k" || k == "metadata" || k == "stop_sequences";
  }

  /** The body of any other provider is passed on byte for byte. */
  lemma OthersUntouched(body: Bytes, provider: Bytes, unmarshal: Bytes -> Option<Json>, marshal: Json -> Bytes)
    requires !LosesMetadata(provider)
    ensures StripOutcome(body, provider, unmarshal, marshal) == Done(body)
  {
  }
}
