/** Pinning of Responses item ids (internal/shim/responses_item_id.go).  Payloads are decoded JSON;
    encoding a decoded object and decoding it again is taken to be the identity. */
module ItemIds {
  import opened Wrappers

  datatype Json = Null | Text(text: string) | Int(number: int) | Obj(fields: map<string, Json>) | Arr(items: seq<Json>) | Other(raw: string)

  type Object = map<string, Json>

  type Pins = map<int, string>

  datatype Outcome = Unchanged | Changed | Uncertain

  // An optional string member: absent, not a string, or its value.
  datatype Member = Absent | Malformed | Id(id: string)

  function MemberOf(o: Object, key: string): Member {
    if key !in o then Absent else if o[key].Text? then Id(o[key].text) else Malformed
  }

  predicate IsTerminal(eventType: string) {
    eventType == "response.completed" || eventType == "response.failed" || eventType == "response.incomplete" || eventType == "error"
  }

  // ------------------------------------------------------------- one item per event

  /** The item object of an event, empty when there is none. */
  function ItemOf(top: Object): Option<Object> {
    if "item" !in top then Some(map[]) else if top["item"].Obj? then Some(top["item"].fields) else None
  }

  /** Both id members of an event are absent or strings. */
  predicate Readable(top: Object) {
    ItemOf(top).Some? && !MemberOf(ItemOf(top).value, "id").Malformed? && !MemberOf(top, "item_id").Malformed?
  }

  function ItemId(top: Object): Member
    requires Readable(top)
  {
    MemberOf(ItemOf(top).value, "id")
  }

  function TopId(top: Object): Member { MemberOf(top, "item_id") }

  /** The first id of an event, the item's before the event's own. */
  function FirstId(top: Object): Option<string>
    requires Readable(top)
  {
    if ItemId(top).Id? then Some(ItemId(top).id) else if TopId(top).Id? then Some(TopId(top).id) else None
  }

  /** Both ids, where present, replaced. */
  function WithIds(top: Object, id: string): Object
    requires Readable(top)
  {
    var inner := if ItemId(top).Id? then top["item" := Obj(ItemOf(top).value["id" := Text(id)])] else top;
    if TopId(top).Id? then inner["item_id" := Text(id)] else inner
  }

  // --------------------------------------------------------------- whole envelopes

  predicate ReadableItem(item: Json) { item.Obj? && !MemberOf(item.fields, "id").Malformed? }

  predicate ReadableItems(items: seq<Json>) { forall i :: 0 <= i < |items| ==> ReadableItem(items[i]) }

  function Pinned(pins: Pins, i: int, item: Json): Json
    requires ReadableItem(item)
  {
    if i in pins && MemberOf(item.fields, "id").Id? then Obj(item.fields["id" := Text(pins[i])]) else item
  }

  function PinnedItems(pins: Pins, items: seq<Json>): seq<Json>
    requires ReadableItems(items)
  {
    seq(|items|, i requires 0 <= i < |items| => Pinned(pins, i, items[i]))
  }

  /** The output items of an envelope that can be read with confidence. */
  function OutputOf(top: Object): Option<seq<Json>> {
    if "response" !in top || !top["response"].Obj? then None
    else
      var response := top["response"].fields;
      if "output" !in response || !response["output"].Arr? || !ReadableItems(response["output"].items) then None
      else Some(response["output"].items)
  }

  /** An envelope whose response or output cannot be read with confidence. */
  predicate Doubtful(top: Object) {
    && "response" in top
    && (top["response"].Obj? ==>
          && "output" in top["response"].fields
          && (top["response"].fields["output"].Arr? ==> !ReadableItems(top["response"].fields["output"].items)))
  }

  function WithOutput(top: Object, items: seq<Json>): Object
    requires OutputOf(top).Some?
  {
    top["response" := Obj(top["response"].fields["output" := Arr(items)])]
  }

  // ---------------------------------------------------------------------- the step

  /** What one payload becomes, and the pins after it. */
  function Rewrite(pins: Pins, payload: Json): (Json, Pins) {
    if !payload.Obj? then (payload, pins)
    else
      var top := payload.fields;
      if MemberOf(top, "type").Malformed? then (payload, pins)
      else
        var (out, after) := if "output_index" in top then RewriteItem(pins, top) else (RewriteEnvelope(pins, top), pins);
        (Obj(out), if IsTerminalEvent(payload) then map[] else after)
  }

  predicate IsTerminalEvent(payload: Json) {
    payload.Obj? && MemberOf(payload.fields, "type").Id? && IsTerminal(MemberOf(payload.fields, "type").id)
  }

  function RewriteItem(pins: Pins, top: Object): (Object, Pins)
    requires "output_index" in top
  {
    if !top["output_index"].Int? || !Readable(top) || FirstId(top).None? then (top, pins)
    else
      var i := top["output_index"].number;
      if i !in pins then (top, pins[i := FirstId(top).value]) else (WithIds(top, pins[i]), pins)
  }

  function RewriteEnvelope(pins: Pins, top: Object): Object {
    if OutputOf(top).None? then top else WithOutput(top, PinnedItems(pins, OutputOf(top).value))
  }

  // ---------------------------------------------------------------------- the code

  class Stabilizer {
    var pinnedByOutputIndex: map<int, string>

    constructor ()
      ensures pinnedByOutputIndex == map[]
    {
      pinnedByOutputIndex := map[];
    }

    /** rewrite. */
    method RewritePayload(payload: Json) returns (out: Json)
      modifies this
      ensures (out, pinnedByOutputIndex) == Rewrite(old(pinnedByOutputIndex), payload)
    {
      hide Readable, WithIds, OutputOf, WithOutput, PinnedItems, FirstId;
      if !payload.Obj? {
        return payload;
      }
      var top := payload.fields;
      var eventType := MemberOf(top, "type");
      if eventType.Malformed? {
        return payload;
      }
      var outcome := Unchanged;
      if "output_index" in top {
        if !top["output_index"].Int? {
          outcome := Uncertain;
        } else {
          top, outcome := RewritePerItem(top, top["output_index"].number);
        }
      } else {
        top, outcome := RewriteWhole(top);
      }
      if eventType.Id? && IsTerminal(eventType.id) {
        pinnedByOutputIndex := map[];
      }
      if outcome != Changed {
        return payload;
      }
      return Obj(top);
    }

    /** rewritePerItem. */
    method RewritePerItem(top: Object, outputIndex: int) returns (out: Object, outcome: Outcome)
      requires "output_index" in top && top["output_index"] == Int(outputIndex)
      modifies this
      ensures (out, pinnedByOutputIndex) == RewriteItem(old(pinnedByOutputIndex), top)
      ensures (outcome.Changed? <==> out != top) && (outcome.Uncertain? <==> !Readable(top))
    {
      out := top;
      var item: Object := map[];
      if "item" in top {
        if !top["item"].Obj? {
          return top, Uncertain;
        }
        item := top["item"].fields;
      }
      var itemId, topItemId := MemberOf(item, "id"), MemberOf(top, "item_id");
      if itemId.Malformed? || topItemId.Malformed? {
        return top, Uncertain;
      }
      if itemId.Absent? && topItemId.Absent? {
        return top, Unchanged;
      }
      if outputIndex !in pinnedByOutputIndex {
        if itemId.Id? {
          pinnedByOutputIndex := pinnedByOutputIndex[outputIndex := itemId.id];
        } else {
          pinnedByOutputIndex := pinnedByOutputIndex[outputIndex := topItemId.id];
        }
        return top, Unchanged;
      }
      var pinned := pinnedByOutputIndex[outputIndex];
      SameIds(top, pinned);
      var changed := false;
      if itemId.Id? && itemId.id != pinned {
        item := item["id" := Text(pinned)];
        out := out["item" := Obj(item)];
        changed := true;
      }
      if topItemId.Id? && topItemId.id != pinned {
        out := out["item_id" := Text(pinned)];
        changed := true;
      }
      outcome := if changed then Changed else Unchanged;
    }

    /** rewriteEnvelope: every item is validated before any is changed. */
    method RewriteWhole(top: Object) returns (out: Object, outcome: Outcome)
      ensures out == RewriteEnvelope(pinnedByOutputIndex, top)
      ensures (outcome.Changed? <==> out != top) && (outcome.Uncertain? <==> Doubtful(top))
    {
      out := top;
      if "response" !in top {
        return top, Unchanged;
      }
      if !top["response"].Obj? {
        return top, Uncertain;
      }
      var response := top["response"].fields;
      if "output" !in response {
        return top, Unchanged;
      }
      if !response["output"].Arr? {
        return top, Uncertain;
      }
      var output := response["output"].items;
      for index := 0 to |output|
        invariant forall k :: 0 <= k < index ==> ReadableItem(output[k])
      {
        if !output[index].Obj? || MemberOf(output[index].fields, "id").Malformed? {
          return top, Uncertain;
        }
      }
      var items := output;
      var changed := false;
      for index := 0 to |items|
        invariant |output| == |items|
        invariant forall k :: 0 <= k < |items| ==> output[k] == if k < index then Pinned(pinnedByOutputIndex, k, items[k]) else items[k]
        invariant if changed then exists k :: 0 <= k < |items| && output[k] != items[k] else output == items
      {
        SameItem(pinnedByOutputIndex, index, items[index]);
        if index !in pinnedByOutputIndex {
          continue;
        }
        var id := MemberOf(items[index].fields, "id");
        if !id.Id? || id.id == pinnedByOutputIndex[index] {
          continue;
        }
        output := output[index := Obj(items[index].fields["id" := Text(pinnedByOutputIndex[index])])];
        changed := true;
        OtherMember(items[index].fields, "id", Text(pinnedByOutputIndex[index]));
        assert output[index] != items[index];
      }
      assert output == PinnedItems(pinnedByOutputIndex, items);
      if !changed {
        SameOutput(top);
        return top, Unchanged;
      }
      response := response["output" := Arr(output)];
      out := top["response" := Obj(response)];
      OtherMember(top["response"].fields, "output", Arr(output));
      OtherMember(top, "response", Obj(response));
      outcome := Changed;
    }
  }

  lemma OtherMember(o: Object, key: string, value: Json)
    requires key in o && o[key] != value
    ensures o[key := value] != o
  {
    assert o[key := value][key] == value;
  }

  lemma SameMember(o: Object, key: string)
    requires key in o
    ensures o[key := o[key]] == o
  {}

  /** Writing an id that is already there changes nothing. */
  lemma SameIds(top: Object, id: string)
    requires Readable(top)
    ensures ItemId(top) == Id(id) ==> top["item" := Obj(ItemOf(top).value["id" := Text(id)])] == top
    ensures TopId(top) == Id(id) ==> top["item_id" := Text(id)] == top
    ensures WithIds(top, id) == (
      var inner := if ItemId(top).Id? && ItemId(top).id != id then top["item" := Obj(ItemOf(top).value["id" := Text(id)])] else top;
      if TopId(top).Id? && TopId(top).id != id then inner["item_id" := Text(id)] else inner)
  {
    if ItemId(top) == Id(id) {
      SameMember(ItemOf(top).value, "id");
      SameMember(top, "item");
    }
    if TopId(top) == Id(id) {
      SameMember(top, "item_id");
      var inner := if ItemId(top).Id? then top["item" := Obj(ItemOf(top).value["id" := Text(id)])] else top;
      SameMember(inner, "item_id");
    }
  }

  lemma SameItem(pins: Pins, i: int, item: Json)
    requires ReadableItem(item)
    ensures i in pins && MemberOf(item.fields, "id") == Id(pins[i]) ==> Pinned(pins, i, item) == item
  {
    if MemberOf(item.fields, "id").Id? { SameMember(item.fields, "id"); }
  }

  lemma SameOutput(top: Object)
    requires OutputOf(top).Some?
    ensures WithOutput(top, OutputOf(top).value) == top
  {
    SameMember(top["response"].fields, "output");
    SameMember(top, "response");
  }

  // ----------------------------------------------------- a second stabilizer is idle

  lemma WithIdsRead(top: Object, id: string)
    requires Readable(top)
    ensures var out := WithIds(top, id);
      Readable(out) && (ItemId(out) == if ItemId(top).Id? then Id(id) else ItemId(top))
      && (TopId(out) == if TopId(top).Id? then Id(id) else TopId(top))
  {}

  lemma WithIdsTwice(top: Object, id: string)
    requires Readable(top)
    ensures Readable(WithIds(top, id)) && WithIds(WithIds(top, id), id) == WithIds(top, id)
  {
    WithIdsRead(top, id);
    SameIds(WithIds(top, id), id);
  }

  lemma WithIdsElsewhere(top: Object, id: string, key: string)
    requires Readable(top) && key != "item" && key != "item_id"
    ensures key in WithIds(top, id) <==> key in top
    ensures key in top ==> WithIds(top, id)[key] == top[key]
  {}

  lemma PinnedTwice(pins: Pins, i: int, item: Json)
    requires ReadableItem(item)
    ensures ReadableItem(Pinned(pins, i, item)) && Pinned(pins, i, Pinned(pins, i, item)) == Pinned(pins, i, item)
  {
    SameItem(pins, i, Pinned(pins, i, item));
  }

  lemma EnvelopeTwice(pins: Pins, top: Object)
    requires OutputOf(top).Some?
    ensures var out := WithOutput(top, PinnedItems(pins, OutputOf(top).value));
      OutputOf(out) == Some(PinnedItems(pins, OutputOf(top).value)) && RewriteEnvelope(pins, out) == out
  {
    var items := OutputOf(top).value;
    var pinned := PinnedItems(pins, items);
    forall i | 0 <= i < |items| ensures ReadableItem(pinned[i]) && Pinned(pins, i, pinned[i]) == pinned[i] {
      PinnedTwice(pins, i, items[i]);
    }
    assert PinnedItems(pins, pinned) == pinned;
    SameOutput(WithOutput(top, pinned));
  }

  lemma SecondItem(pins: Pins, top: Object)
    requires "output_index" in top
    ensures var (out, after) := RewriteItem(pins, top);
      "output_index" in out && RewriteItem(pins, out) == (out, after) && MemberOf(out, "type") == MemberOf(top, "type")
  {
    hide WithIds;
    if Readable(top) && FirstId(top).Some? && top["output_index"].Int? && top["output_index"].number in pins {
      var id := pins[top["output_index"].number];
      WithIdsRead(top, id);
      WithIdsTwice(top, id);
      WithIdsElsewhere(top, id, "output_index");
      WithIdsElsewhere(top, id, "type");
    }
  }

  lemma SecondEnvelope(pins: Pins, top: Object)
    requires "output_index" !in top
    ensures var out := RewriteEnvelope(pins, top);
      "output_index" !in out && RewriteEnvelope(pins, out) == out && MemberOf(out, "type") == MemberOf(top, "type")
  {
    if OutputOf(top).Some? { EnvelopeTwice(pins, top); }
  }

  /** One payload through a second stabilizer with the same pins. */
  lemma SecondIsIdle(pins: Pins, payload: Json)
    ensures var (out, after) := Rewrite(pins, payload); Rewrite(pins, out) == (out, after)
  {
    hide RewriteItem, RewriteEnvelope;
    if payload.Obj? {
      if "output_index" in payload.fields {
        SecondItem(pins, payload.fields);
      } else {
        SecondEnvelope(pins, payload.fields);
      }
    }
  }

  function RewriteAll(pins: Pins, payloads: seq<Json>): (seq<Json>, Pins)
    decreases |payloads|
  {
    if payloads == [] then ([], pins)
    else
      var (out, after) := Rewrite(pins, payloads[0]);
      var (rest, last) := RewriteAll(after, payloads[1..]);
      ([out] + rest, last)
  }

  /** Over any sequence of payloads a stabilizer's output passes through a second one, fresh or
      with equal pins, unchanged, and the two keep equal pins. */
  lemma {:induction false} SecondAlwaysIdle(pins: Pins, payloads: seq<Json>)
    ensures var (outs, last) := RewriteAll(pins, payloads); RewriteAll(pins, outs) == (outs, last)
    decreases |payloads|
  {
    hide Rewrite;
    if payloads != [] {
      var (out, after) := Rewrite(pins, payloads[0]);
      var (rest, last) := RewriteAll(after, payloads[1..]);
      SecondIsIdle(pins, payloads[0]);
      SecondAlwaysIdle(after, payloads[1..]);
      assert ([out] + rest)[1..] == rest;
    }
  }

  // ------------------------------------------------------------ where ids come from

  /** The ids a payload carries for an output index, where the code reads them. */
  function IdsAt(payload: Json, i: int): set<string> {
    if !payload.Obj? || MemberOf(payload.fields, "type").Malformed? then {}
    else
      var top := payload.fields;
      if "output_index" in top then
        if top["output_index"] == Int(i) && Readable(top) then MemberIds(ItemId(top)) + MemberIds(TopId(top)) else {}
      else if OutputOf(top).Some? && 0 <= i < |OutputOf(top).value| then
        MemberIds(MemberOf(OutputOf(top).value[i].fields, "id"))
      else {}
  }

  function MemberIds(m: Member): set<string> { if m.Id? then {m.id} else {} }

  /** After the step an index that was pinned carries only its pin, and one that was not is
      passed through. */
  lemma PinnedIdsOnly(pins: Pins, payload: Json, i: int)
    ensures var out := Rewrite(pins, payload).0;
      IdsAt(out, i) == if i in pins && IdsAt(payload, i) != {} then {pins[i]} else IdsAt(payload, i)
  {
    hide WithIds, PinnedItems, WithOutput;
    if payload.Obj? {
      var top := payload.fields;
      if "output_index" in top {
        if Readable(top) && FirstId(top).Some? && top["output_index"].Int? && top["output_index"].number in pins {
          var id := pins[top["output_index"].number];
          WithIdsRead(top, id);
          WithIdsElsewhere(top, id, "output_index");
          WithIdsElsewhere(top, id, "type");
        }
      } else if OutputOf(top).Some? {
        EnvelopeIds(pins, top, i);
      }
    }
  }

  lemma EnvelopeIds(pins: Pins, top: Object, i: int)
    requires OutputOf(top).Some? && "output_index" !in top
    ensures var out := WithOutput(top, PinnedItems(pins, OutputOf(top).value)); var items := OutputOf(top).value;
      "output_index" !in out && MemberOf(out, "type") == MemberOf(top, "type")
      && OutputOf(out).Some? && |OutputOf(out).value| == |items|
      && (0 <= i < |items| ==>
            var ids := MemberIds(MemberOf(items[i].fields, "id"));
            OutputOf(out).value[i].Obj? && MemberIds(MemberOf(OutputOf(out).value[i].fields, "id")) ==
              if i in pins && ids != {} then {pins[i]} else ids)
  {
    EnvelopeTwice(pins, top);
    var items := OutputOf(top).value;
    if 0 <= i < |items| { PinnedTwice(pins, i, items[i]); }
  }

  /** Payloads since the last turn terminal. */
  function Turn(turn: seq<Json>, payload: Json): seq<Json> { if IsTerminalEvent(payload) then [] else turn + [payload] }

  /** Every pin arrived with an earlier payload of the same turn, for that very index. */
  ghost predicate PinsArrived(pins: Pins, turn: seq<Json>) {
    forall i <- pins :: exists p <- turn :: pins[i] in IdsAt(p, i)
  }

  lemma NewPin(pins: Pins, payload: Json, i: int)
    requires i in Rewrite(pins, payload).1 && i !in pins
    ensures !IsTerminalEvent(payload) && Rewrite(pins, payload).1[i] in IdsAt(payload, i)
  {
    hide WithIds, RewriteEnvelope, OutputOf;
  }

  lemma PinsStayArrived(pins: Pins, turn: seq<Json>, payload: Json)
    requires PinsArrived(pins, turn)
    ensures PinsArrived(Rewrite(pins, payload).1, Turn(turn, payload))
  {
    hide Rewrite, IdsAt, IsTerminalEvent;
    var after := Rewrite(pins, payload).1;
    PinsOfATurn(pins, payload);
    if !IsTerminalEvent(payload) {
      var longer := turn + [payload];
      assert payload in longer;
      forall i | i in after ensures exists p <- longer :: after[i] in IdsAt(p, i) {
        if i in pins {
          var p :| p in turn && pins[i] in IdsAt(p, i);
          assert p in longer;
        } else {
          NewPin(pins, payload, i);
        }
      }
    }
  }

  function TurnOf(turn: seq<Json>, payloads: seq<Json>): seq<Json>
    decreases |payloads|
  {
    if payloads == [] then turn else TurnOf(Turn(turn, payloads[0]), payloads[1..])
  }

  lemma {:induction false} AllPinsArrived(pins: Pins, turn: seq<Json>, payloads: seq<Json>)
    requires PinsArrived(pins, turn)
    ensures PinsArrived(RewriteAll(pins, payloads).1, TurnOf(turn, payloads))
    decreases |payloads|
  {
    hide Rewrite, PinsArrived, Turn;
    if payloads != [] {
      PinsStayArrived(pins, turn, payloads[0]);
      AllPinsArrived(Rewrite(pins, payloads[0]).1, Turn(turn, payloads[0]), payloads[1..]);
    }
  }

  /** From a fresh stabilizer: the only id a rewritten payload carries for a pinned index, written
      there or there already, arrived earlier in the same turn, for that very index; an id that
      was not there can only be that one. */
  lemma WrittenIdsArrived(payloads: seq<Json>, payload: Json, i: int)
    ensures var pins := RewriteAll(map[], payloads).1; var out := Rewrite(pins, payload).0;
      && (i in pins && IdsAt(payload, i) != {} ==>
            IdsAt(out, i) == {pins[i]} && exists p <- TurnOf([], payloads) :: pins[i] in IdsAt(p, i))
      && (forall id <- IdsAt(out, i) :: id !in IdsAt(payload, i) ==> i in pins && IdsAt(payload, i) != {} && id == pins[i])
  {
    hide Rewrite, RewriteAll, TurnOf, IdsAt;
    var pins := RewriteAll(map[], payloads).1;
    AllPinsArrived(map[], [], payloads);
    PinnedIdsOnly(pins, payload, i);
    if i in pins {
      var p :| p in TurnOf([], payloads) && pins[i] in IdsAt(p, i);
    }
  }

  /** Pins never change within a turn, and a turn terminal clears them all, however malformed
      the rest of the payload is. */
  lemma PinsOfATurn(pins: Pins, payload: Json)
    ensures IsTerminalEvent(payload) ==> Rewrite(pins, payload).1 == map[]
    ensures !IsTerminalEvent(payload) ==>
      (forall i <- pins :: i in Rewrite(pins, payload).1 && Rewrite(pins, payload).1[i] == pins[i])
  {}

  // ------------------------------------------------------------- what is not touched

  predicate SameObjectBut(a: Object, b: Object, keys: set<string>) {
    a.Keys == b.Keys && forall k <- a :: k !in keys ==> a[k] == b[k]
  }

  /** The two payloads differ at most in ids that both have. */
  predicate DiffersInIds(a: Json, b: Json) {
    a == b ||
    (a.Obj? && b.Obj? && SameObjectBut(a.fields, b.fields, {"item", "item_id", "response"})
     && ("item" in a.fields ==> SameItemBut(a.fields["item"], b.fields["item"]))
     && ("item_id" in a.fields ==> a.fields["item_id"] == b.fields["item_id"] || (a.fields["item_id"].Text? && b.fields["item_id"].Text?))
     && ("response" in a.fields ==> SameResponse(a.fields["response"], b.fields["response"])))
  }

  predicate SameItemBut(a: Json, b: Json) {
    a == b || (a.Obj? && b.Obj? && SameObjectBut(a.fields, b.fields, {"id"})
               && ("id" in a.fields ==> a.fields["id"].Text? && b.fields["id"].Text?))
  }

  predicate SameResponse(a: Json, b: Json) {
    a == b || (a.Obj? && b.Obj? && SameObjectBut(a.fields, b.fields, {"output"}) && "output" in a.fields
               && a.fields["output"].Arr? && b.fields["output"].Arr?
               && |a.fields["output"].items| == |b.fields["output"].items|
               && forall i :: 0 <= i < |a.fields["output"].items| ==>
                    SameItemBut(a.fields["output"].items[i], b.fields["output"].items[i]))
  }

  lemma PinnedSameBut(pins: Pins, i: int, item: Json)
    requires ReadableItem(item)
    ensures SameItemBut(item, Pinned(pins, i, item))
  {}

  lemma EnvelopeKeeps(pins: Pins, top: Object)
    requires OutputOf(top).Some?
    ensures DiffersInIds(Obj(top), Obj(WithOutput(top, PinnedItems(pins, OutputOf(top).value))))
  {
    hide SameItemBut, Pinned;
    var items := OutputOf(top).value;
    var pinned := PinnedItems(pins, items);
    forall i | 0 <= i < |items| ensures SameItemBut(items[i], pinned[i]) { PinnedSameBut(pins, i, items[i]); }
    assert SameResponse(top["response"], Obj(top["response"].fields["output" := Arr(pinned)]));
    assert "item" in top ==> SameItemBut(top["item"], top["item"]) by { SameItself(); }
  }

  lemma SameItself()
    ensures forall j :: SameItemBut(j, j)
  {}

  /** Nothing but existing ids is ever changed: no id is minted and no other member moves. */
  lemma OnlyIdsChange(pins: Pins, payload: Json)
    ensures DiffersInIds(payload, Rewrite(pins, payload).0)
  {
    hide WithOutput, PinnedItems, OutputOf;
    if payload.Obj? {
      var top := payload.fields;
      if "output_index" !in top && OutputOf(top).Some? {
        hide DiffersInIds;
        EnvelopeKeeps(pins, top);
      }
    }
  }

  // ----------------------------------------------------------------- the exception

  /** An event for an index without a pin passes through as it came, whatever its two ids are;
      unless it ends the turn, its first id becomes the pin. */
  lemma FirstEventPassesThrough(pins: Pins, payload: Json, i: int)
    requires payload.Obj? && "output_index" in payload.fields && payload.fields["output_index"] == Int(i) && i !in pins
    ensures Rewrite(pins, payload).0 == payload
    ensures IdsAt(payload, i) != {} && !IsTerminalEvent(payload) ==>
      && Readable(payload.fields) && FirstId(payload.fields).Some? && FirstId(payload.fields).value in IdsAt(payload, i)
      && Rewrite(pins, payload).1 == pins[i := FirstId(payload.fields).value]
    ensures IdsAt(payload, i) == {} && !IsTerminalEvent(payload) ==> Rewrite(pins, payload).1 == pins
  {
    hide WithIds;
  }

  /** Exactly then an id can survive that differs from the pin its own event sets: with both ids
      present and different, the pin is the item's and the event's own id stays as it was. */
  lemma DifferentIdsSurvive(pins: Pins, payload: Json, i: int)
    requires payload.Obj? && "output_index" in payload.fields && payload.fields["output_index"] == Int(i) && i !in pins
    requires !IsTerminalEvent(payload) && IdsAt(payload, i) != {}
    ensures var (out, after) := Rewrite(pins, payload);
      i in after && (IdsAt(out, i) != {after[i]} <==>
        ItemId(payload.fields).Id? && TopId(payload.fields).Id? && ItemId(payload.fields) != TopId(payload.fields))
  {
    hide Rewrite, Readable, IsTerminalEvent;
    FirstEventPassesThrough(pins, payload, i);
  }

  /** Such an event, and the next one for its index, whose id is then rewritten. */
  lemma DifferentIdsOccur()
    ensures var first := Obj(map["output_index" := Int(0), "item" := Obj(map["id" := Text("a")]), "item_id" := Text("b")]);
      var next := Obj(map["output_index" := Int(0), "item_id" := Text("b")]);
      Rewrite(map[], first) == (first, map[0 := "a"]) && IdsAt(first, 0) == {"a", "b"}
      && Rewrite(map[0 := "a"], next) == (Obj(map["output_index" := Int(0), "item_id" := Text("a")]), map[0 := "a"])
  {
    var next := map["output_index" := Int(0), "item_id" := Text("b")];
    assert Readable(next) && FirstId(next) == Some("b");
    assert next["item_id" := Text("a")] == map["output_index" := Int(0), "item_id" := Text("a")];
  }

  // ------------------------------------------------------ said of the JSON itself

  /** An optional id that the code reads: absent or a string. */
  predicate Optional(o: Object, key: string) { key in o ==> o[key].Text? }

  /** An event whose ids can be read: its type, its own id and its item's. */
  predicate PlainEvent(top: Object) {
    Optional(top, "type") && Optional(top, "item_id") && ("item" in top ==> top["item"].Obj? && Optional(top["item"].fields, "id"))
  }

  /** In an event for a pinned index every id that is there becomes the pin: its own and its item's. */
  lemma EventIsPinned(pins: Pins, top: Object, i: int)
    requires PlainEvent(top) && "output_index" in top && top["output_index"] == Int(i) && i in pins
    ensures var out := Rewrite(pins, Obj(top)).0;
      && out.Obj? && out.fields.Keys == top.Keys
      && ("item_id" in top ==> out.fields["item_id"] == Text(pins[i]))
      && ("item" in top && "id" in top["item"].fields ==> out.fields["item"] == Obj(top["item"].fields["id" := Text(pins[i])]))
      && ("item" in top && "id" !in top["item"].fields ==> out.fields["item"] == top["item"])
      && forall key <- top :: key != "item" && key != "item_id" ==> out.fields[key] == top[key]
  {}

  /** In an event for an index without a pin nothing changes, and its item's id, or else its own,
      becomes the pin unless the event ends the turn. */
  lemma EventSetsPin(pins: Pins, top: Object, i: int)
    requires PlainEvent(top) && "output_index" in top && top["output_index"] == Int(i) && i !in pins && !IsTerminalEvent(Obj(top))
    ensures var (out, after) := Rewrite(pins, Obj(top));
      && out == Obj(top)
      && after ==
         if "item" in top && "id" in top["item"].fields then pins[i := top["item"].fields["id"].text]
         else if "item_id" in top then pins[i := top["item_id"].text]
         else pins
  {}

  /** An envelope lists items, each an object whose id can be read. */
  predicate Lists(top: Object, items: seq<Json>) {
    && "response" in top && top["response"].Obj? && "output" in top["response"].fields
    && top["response"].fields["output"] == Arr(items)
  }

  predicate PlainItems(items: seq<Json>) { forall i :: 0 <= i < |items| ==> items[i].Obj? && Optional(items[i].fields, "id") }

  /** In an envelope the id of every listed item whose place is pinned becomes the pin; the others and
      everything around them stay. */
  lemma EnvelopeIsPinned(pins: Pins, top: Object, items: seq<Json>, i: nat)
    requires Optional(top, "type") && "output_index" !in top && Lists(top, items) && PlainItems(items) && i < |items|
    ensures var out := Rewrite(pins, Obj(top)).0;
      && out.Obj? && out.fields.Keys == top.Keys && (forall key <- top :: key != "response" ==> out.fields[key] == top[key])
      && out.fields["response"].Obj? && "output" in out.fields["response"].fields && out.fields["response"].fields["output"].Arr?
      && var outs := out.fields["response"].fields["output"].items;
         && out.fields["response"] == Obj(top["response"].fields["output" := Arr(outs)]) && |outs| == |items|
         && outs[i] == if i in pins && "id" in items[i].fields then Obj(items[i].fields["id" := Text(pins[i])]) else items[i]
  {
    assert ReadableItems(items);
    assert OutputOf(top) == Some(items);
  }

  /** Whatever cannot be read with confidence passes through as it came. */
  lemma UncertainPasses(pins: Pins, payload: Json)
    requires
      || !payload.Obj? || !Optional(payload.fields, "type")
      || ("output_index" in payload.fields && (!payload.fields["output_index"].Int? || !PlainEvent(payload.fields)))
      || ("output_index" !in payload.fields && !(exists items :: Lists(payload.fields, items) && PlainItems(items)))
    ensures Rewrite(pins, payload).0 == payload
  {
    if payload.Obj? && "output_index" !in payload.fields && OutputOf(payload.fields).Some? {
      assert Lists(payload.fields, OutputOf(payload.fields).value) && PlainItems(OutputOf(payload.fields).value);
    }
  }

  /** The four events that end a turn, and no others, clear the pins. */
  lemma TerminalsClear(pins: Pins, top: Object)
    requires Optional(top, "type") && "type" in top
    ensures var ends := {Text("response.completed"), Text("response.failed"), Text("response.incomplete"), Text("error")};
      if top["type"] in ends then Rewrite(pins, Obj(top)).1 == map[]
      else forall i <- pins :: i in Rewrite(pins, Obj(top)).1 && Rewrite(pins, Obj(top)).1[i] == pins[i]
  {
    hide RewriteItem, RewriteEnvelope, IsTerminal;
    PinsOfATurn(pins, Obj(top));
    TerminalTypes(top["type"].text);
  }

  lemma TerminalTypes(name: string)
    ensures IsTerminal(name) <==>
      Text(name) == Text("response.completed") || Text(name) == Text("response.failed") || Text(name) == Text("response.incomplete")
      || Text(name) == Text("error")
  {}
}
