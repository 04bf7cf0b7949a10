/** The OpenCode event-stream machine, `consumeRenderEvents` in bot/opencode_generator.go.

    Inputs are decoded server-sent events.  `Next` is the state after one event and `Emit`
    the events it sends; `StreamConsumer` is the loop over mutable maps that refines them.
    Go ranges over a map in any order: an `Order` is one such choice.  The state after an
    event does not depend on it, the order of the events sent does. */
module EventStream {
  import opened Text
  import opened RenderEvents

  datatype ToolUpdate = ToolUpdate(
    sessionID: string, messageID: string, partID: string, callID: string,
    tool: string, status: string, detail: ToolDetail)

  datatype TextUpdate = TextUpdate(
    sessionID: string, messageID: string, partID: string, partType: string,
    text: string, isDelta: bool)

  datatype PermissionReply = NoRequestID | Replied | ReplyFailed

  datatype Body =
    | SessionIdle
    | PermissionAsked(reply: PermissionReply)
    | AssistantMessage(messageID: string)   // message.updated with role assistant and an id
    | ToolPart(tool: ToolUpdate)
    | TextPart(txt: TextUpdate)
    | Ignored                               // any other event type, or one that does not decode

  datatype Wire = Wire(sessionID: string, body: Body)

  datatype Pending = Pending(messageID: string, text: string)

  datatype State = State(
    assistants: set<string>,
    partText: map<string, string>,
    partTypes: map<string, string>,
    pending: map<string, Pending>,
    pendingTools: map<string, ToolUpdate>,
    seenCalls: set<string>)

  const Initial := State({}, map[], map[], map[], map[], {})

  ghost predicate IsRangeOrder(s: State, o: Order) {
    IsOrder(o.texts, s.pending.Keys) && IsOrder(o.tools, s.pendingTools.Keys)
  }

  datatype Order = Order(texts: seq<string>, tools: seq<string>)

  // ----- tool events -----

  function FirstNonEmpty(names: seq<string>): string {
    if names == [] then "tool" else if names[0] != "" then names[0] else FirstNonEmpty(names[1..])
  }

  function ToolCallKey(u: ToolUpdate): string {
    FirstNonEmpty([u.callID, u.partID, u.tool])
  }

  /** The call an emitted tool event is about. */
  function CallKey(e: RenderEvent): string
    requires e.Tool?
  {
    FirstNonEmpty([e.callID, e.partID, e.toolName])
  }

  function KindFor(seen: bool, status: string): ToolKind {
    var st := Lower(Trim(status));
    if st == "completed" then Finish
    else if st == "error" then Error
    else if seen then Update
    else Start
  }

  function MapTool(seenCalls: set<string>, u: ToolUpdate): RenderEvent {
    Tool(KindFor(ToolCallKey(u) in seenCalls, u.status),
         u.messageID, u.partID, u.callID, u.tool, u.status, u.detail)
  }

  function CallKeys(us: seq<ToolUpdate>): set<string> {
    set u | u in us :: ToolCallKey(u)
  }

  /** The events for several tool updates in turn. */
  function MapTools(seenCalls: set<string>, us: seq<ToolUpdate>): seq<RenderEvent> {
    if us == [] then []
    else
      var before := us[..|us| - 1];
      MapTools(seenCalls, before) + [MapTool(seenCalls + CallKeys(before), us[|us| - 1])]
  }

  // ----- flushing what waited for a role announcement -----

  predicate Releases(pp: Pending, id: string) {
    pp.messageID == id && pp.text != ""
  }

  function FlushTexts(pending: map<string, Pending>, id: string, order: seq<string>): seq<RenderEvent> {
    if order == [] then []
    else
      var k := order[|order| - 1];
      FlushTexts(pending, id, order[..|order| - 1]) +
      if k in pending && Releases(pending[k], id) then [TextSet(id, k, pending[k].text)] else []
  }

  function ReleasedTools(pendingTools: map<string, ToolUpdate>, id: string, order: seq<string>): seq<ToolUpdate> {
    if order == [] then []
    else
      var k := order[|order| - 1];
      ReleasedTools(pendingTools, id, order[..|order| - 1]) +
      if k in pendingTools && pendingTools[k].messageID == id then [pendingTools[k]] else []
  }

  // What a flush keeps and what it moves; `left` are the keys its range has still to visit.

  function KeptTexts(pending: map<string, Pending>, id: string, left: set<string>): map<string, Pending> {
    map k | k in pending && (k in left || !Releases(pending[k], id)) :: pending[k]
  }

  function MovedTexts(pending: map<string, Pending>, id: string, left: set<string>): map<string, string> {
    map k | k in pending && k !in left && Releases(pending[k], id) :: pending[k].text
  }

  function KeptTools(pendingTools: map<string, ToolUpdate>, id: string, left: set<string>): map<string, ToolUpdate> {
    map k | k in pendingTools && (k in left || pendingTools[k].messageID != id) :: pendingTools[k]
  }

  function ReleasedCalls(pendingTools: map<string, ToolUpdate>, id: string, left: set<string>): set<string> {
    set k | k in pendingTools && k !in left && pendingTools[k].messageID == id :: ToolCallKey(pendingTools[k])
  }

  function Announce(s: State, id: string): State {
    s.(assistants := s.assistants + {id},
       partText := s.partText + MovedTexts(s.pending, id, {}),
       pending := KeptTexts(s.pending, id, {}),
       pendingTools := KeptTools(s.pendingTools, id, {}),
       seenCalls := s.seenCalls + ReleasedCalls(s.pendingTools, id, {}))
  }

  // ----- text parts -----

  function RecordType(types: map<string, string>, u: TextUpdate): map<string, string> {
    if u.partID != "" && u.partType != "" then types[u.partID := u.partType] else types
  }

  /** Snapshots always count; a delta counts when its part is known to be text. */
  predicate Accepted(knownType: string, u: TextUpdate) {
    u.isDelta ==>
      var partType := Trim(u.partType);
      (if partType == "" then knownType else partType) == "text"
  }

  function Extend(previous: string, u: TextUpdate): string {
    if u.isDelta then previous + u.text else u.text
  }

  function PendingText(s: State, p: string): string {
    if p in s.pending then s.pending[p].text else ""
  }

  function NextText(s0: State, u: TextUpdate): State {
    var s := s0.(partTypes := RecordType(s0.partTypes, u));
    if !Accepted(Get(s.partTypes, u.partID), u) then s
    else if u.messageID !in s.assistants then
      s.(pending := s.pending[u.partID := Pending(u.messageID, Extend(PendingText(s, u.partID), u))])
    else
      s.(partText := s.partText[u.partID := Extend(Get(s.partText, u.partID), u)])
  }

  function EmitText(s: State, u: TextUpdate): seq<RenderEvent> {
    if !Accepted(Get(RecordType(s.partTypes, u), u.partID), u) || u.messageID !in s.assistants || u.text == "" then []
    else if u.isDelta then [TextDelta(u.messageID, u.partID, u.text)]
    else
      var previous := Get(s.partText, u.partID);
      if previous == "" || !(previous <= u.text) then [TextSet(u.messageID, u.partID, u.text)]
      else if previous == u.text then []
      else [TextDelta(u.messageID, u.partID, u.text[|previous|..])]
  }

  // ----- one event -----

  /** Events of other sessions are dropped; a part names its session once more. */
  predicate Concerns(sid: string, w: Wire) {
    && w.sessionID == sid
    && (w.body.ToolPart? ==> w.body.tool.sessionID == sid)
    && (w.body.TextPart? ==> w.body.txt.sessionID == sid)
  }

  /** The event ends the stream. */
  predicate Halts(sid: string, w: Wire) {
    Concerns(sid, w) && (w.body.SessionIdle? || w.body == PermissionAsked(ReplyFailed))
  }

  function NextTool(s: State, u: ToolUpdate): State {
    var s1 := if u.partID != "" then s.(partTypes := s.partTypes[u.partID := "tool"]) else s;
    if u.messageID !in s.assistants then s1.(pendingTools := s.pendingTools[u.partID := u])
    else s1.(seenCalls := s.seenCalls + {ToolCallKey(u)})
  }

  function Next(sid: string, s: State, w: Wire): State {
    if !Concerns(sid, w) then s
    else match w.body
      case AssistantMessage(id) => Announce(s, id)
      case ToolPart(u) => NextTool(s, u)
      case TextPart(u) => NextText(s, u)
      case _ => s
  }

  function Emit(sid: string, s: State, w: Wire, o: Order): seq<RenderEvent> {
    if !Concerns(sid, w) then []
    else match w.body
      case SessionIdle => [Done]
      case AssistantMessage(id) =>
        FlushTexts(s.pending, id, o.texts) + MapTools(s.seenCalls, ReleasedTools(s.pendingTools, id, o.tools))
      case ToolPart(u) => if u.messageID in s.assistants then MapTools(s.seenCalls, [u]) else []
      case TextPart(u) => EmitText(s, u)
      case _ => []
  }

  // ----- runs -----

  function StateAfter(sid: string, ws: seq<Wire>): State {
    if ws == [] then Initial else Next(sid, StateAfter(sid, ws[..|ws| - 1]), ws[|ws| - 1])
  }

  function Output(sid: string, ws: seq<Wire>, os: seq<Order>): seq<RenderEvent>
    requires |os| == |ws|
  {
    if ws == [] then []
    else
      var n := |ws| - 1;
      Output(sid, ws[..n], os[..n]) + Emit(sid, StateAfter(sid, ws[..n]), ws[n], os[n])
  }

  /** Each order is one the map ranges of that step may take. */
  ghost predicate AreRangeOrders(sid: string, ws: seq<Wire>, os: seq<Order>) {
    && |os| == |ws|
    && (ws == [] ||
        var n := |ws| - 1;
        AreRangeOrders(sid, ws[..n], os[..n]) && IsRangeOrder(StateAfter(sid, ws[..n]), os[n]))
  }

  ghost predicate IsRun(sid: string, ws: seq<Wire>, os: seq<Order>, s: State, out: seq<RenderEvent>) {
    && AreRangeOrders(sid, ws, os)
    && s == StateAfter(sid, ws)
    && out == Output(sid, ws, os)
  }

  /** The stream was cancelled just before its event number `n`, or while sending for it. */
  ghost predicate IsCancelledRun(sid: string, ws: seq<Wire>, os: seq<Order>, n: nat, out: seq<RenderEvent>) {
    && n <= |ws| && n <= |os|
    && AreRangeOrders(sid, ws[..n], os[..n])
    && var sent := Output(sid, ws[..n], os[..n]);
       || out == sent
       || (&& n < |ws| && n < |os|
           && var s := StateAfter(sid, ws[..n]);
              && IsPartialOrder(os[n].texts, s.pending.Keys)
              && IsPartialOrder(os[n].tools, s.pendingTools.Keys)
              && out == sent + Emit(sid, s, ws[n], os[n]))
  }

  // ----- the loop over mutable maps -----

  datatype Status = Continue | Finished | Cancelled | Failed

  class StreamConsumer {
    const sessionID: string
    var assistants: set<string>
    var partText: map<string, string>
    var partTypes: map<string, string>
    var pending: map<string, Pending>
    var pendingTools: map<string, ToolUpdate>
    var seenCalls: set<string>
    ghost var out: seq<RenderEvent>   // what the receiver got

    ghost function Model(): State
      reads this
    {
      State(assistants, partText, partTypes, pending, pendingTools, seenCalls)
    }

    constructor (sid: string)
      ensures sessionID == sid && Model() == Initial && out == []
    {
      sessionID := sid;
      assistants, partText, partTypes := {}, map[], map[];
      pending, pendingTools, seenCalls := map[], map[], {};
      out := [];
    }

    /** `sendRenderEvent`: the receiver takes the event, or the context is cancelled. */
    method Send(e: RenderEvent) returns (ok: bool)
      modifies this`out
      ensures out == if ok then old(out) + [e] else old(out)
    {
      ok := *;
      if ok { out := out + [e]; }
    }

    method EmitTool(u: ToolUpdate) returns (ok: bool)
      modifies this`seenCalls, this`out
      ensures seenCalls == old(seenCalls) + {ToolCallKey(u)}
      ensures out == if ok then old(out) + [MapTool(old(seenCalls), u)] else old(out)
    {
      var key := ToolCallKey(u);
      var status := Lower(Trim(u.status));
      var kind := Update;
      var seen := key in seenCalls;
      if status == "completed" {
        kind, seenCalls := Finish, seenCalls + {key};
      } else if status == "error" {
        kind, seenCalls := Error, seenCalls + {key};
      } else if !seen {
        kind, seenCalls := Start, seenCalls + {key};
      }
      ok := Send(Tool(kind, u.messageID, u.partID, u.callID, u.tool, u.status, u.detail));
    }

    /** Flushes what waited for `id`; a cancelled send cuts the range short after `order`. */
    method FlushPendingTexts(id: string) returns (ok: bool, ghost order: seq<string>)
      modifies this`partText, this`pending, this`out
      ensures IsPartialOrder(order, old(pending).Keys)
      ensures out == old(out) + FlushTexts(old(pending), id, order)
      ensures ok ==> IsOrder(order, old(pending).Keys)
      ensures ok ==> pending == KeptTexts(old(pending), id, {})
      ensures ok ==> partText == old(partText) + MovedTexts(old(pending), id, {})
    {
      hide KeptTexts, MovedTexts, FlushTexts, IsOrder, IsPartialOrder;
      var keys := pending.Keys;
      order := [];
      ghost var before := pending;
      TextsStart(before, id);
      while keys != {}
        invariant keys <= before.Keys && IsOrder(order, before.Keys - keys)
        invariant pending == KeptTexts(before, id, keys)
        invariant partText == old(partText) + MovedTexts(before, id, keys)
        invariant out == old(out) + FlushTexts(before, id, order)
      {
        var k :| k in keys;
        TextsStep(old(partText), before, id, keys, k);
        var pp := pending[k];
        FlushTextsStep(before, id, order, k);
        if pp.messageID == id && pp.text != "" {
          partText := partText[k := pp.text];
          ok := Send(TextSet(pp.messageID, k, pp.text));
          if !ok {
            PartialOrder(order, before.Keys - keys, before.Keys);
            return;
          }
          pending := pending - {k};
        }
        OrderStep(order, before.Keys - keys, k);
        Visited(before.Keys, keys, k);
        keys, order := keys - {k}, order + [k];
      }
      assert before.Keys - keys == before.Keys;
      PartialOrder(order, before.Keys, before.Keys);
      ok := true;
    }

    /** The body of the range over the buffered tool updates. */
    method ReleaseTool(id: string, k: string) returns (ok: bool)
      requires k in pendingTools
      modifies this`pendingTools, this`seenCalls, this`out
      ensures var u := old(pendingTools[k]);
              if u.messageID != id then
                ok && pendingTools == old(pendingTools) && seenCalls == old(seenCalls) && out == old(out)
              else
                && seenCalls == old(seenCalls) + {ToolCallKey(u)}
                && (ok ==> pendingTools == old(pendingTools) - {k})
                && out == if ok then old(out) + [MapTool(old(seenCalls), u)] else old(out)
    {
      ok := true;
      var u := pendingTools[k];
      if u.messageID == id {
        ok := EmitTool(u);
        if ok {
          pendingTools := pendingTools - {k};
        }
      }
    }

    method FlushPendingTools(id: string) returns (ok: bool, ghost order: seq<string>)
      modifies this`pendingTools, this`seenCalls, this`out
      ensures IsPartialOrder(order, old(pendingTools).Keys)
      ensures out == old(out) + MapTools(old(seenCalls), ReleasedTools(old(pendingTools), id, order))
      ensures ok ==> IsOrder(order, old(pendingTools).Keys)
      ensures ok ==> pendingTools == KeptTools(old(pendingTools), id, {})
      ensures ok ==> seenCalls == old(seenCalls) + ReleasedCalls(old(pendingTools), id, {})
    {
      hide KeptTools, ReleasedCalls, ReleasedTools, MapTools, MapTool, IsOrder, IsPartialOrder;
      var keys := pendingTools.Keys;
      order := [];
      ghost var before := pendingTools;
      ToolsStart(before, seenCalls, id);
      while keys != {}
        invariant keys <= before.Keys && IsOrder(order, before.Keys - keys)
        invariant pendingTools == KeptTools(before, id, keys)
        invariant seenCalls == old(seenCalls) + ReleasedCalls(before, id, keys)
        invariant out == old(out) + MapTools(old(seenCalls), ReleasedTools(before, id, order))
      {
        var k :| k in keys;
        KeptToolsStep(before, id, keys, k);
        ReleasedCallsStep(before, id, keys, k);
        MapToolsStep(before, old(seenCalls), id, keys, order, k);
        ok := ReleaseTool(id, k);
        if !ok {
          PartialOrder(order, before.Keys - keys, before.Keys);
          return;
        }
        OrderStep(order, before.Keys - keys, k);
        Visited(before.Keys, keys, k);
        keys, order := keys - {k}, order + [k];
      }
      assert before.Keys - keys == before.Keys;
      PartialOrder(order, before.Keys, before.Keys);
      ok := true;
    }

    /** One pass of the event loop.  `order` is the order its map ranges took; when a send
        was cancelled it is what they had covered. */
    method Consume(w: Wire) returns (status: Status, ghost order: Order)
      modifies this
      ensures status == Cancelled ==>
                && Concerns(sessionID, w)
                && IsPartialOrder(order.texts, old(pending).Keys)
                && IsPartialOrder(order.tools, old(pendingTools).Keys)
                && (out == old(out) || out == old(out) + Emit(sessionID, old(Model()), w, order))
      ensures status != Cancelled ==>
                && IsRangeOrder(old(Model()), order)
                && Model() == Next(sessionID, old(Model()), w)
                && (status == Continue <==> !Halts(sessionID, w))
                && out == old(out) + Emit(sessionID, old(Model()), w, order)
    {
      hide Announce, FlushTexts, ReleasedTools, MapTools, NextTool, NextText, EmitText, AnyOrder, IsOrder,
           IsPartialOrder, KeptTexts, MovedTexts, KeptTools, ReleasedCalls;
      PartialOrder(AnyOrder(pending.Keys), pending.Keys, pending.Keys);
      PartialOrder(AnyOrder(pendingTools.Keys), pendingTools.Keys, pendingTools.Keys);
      status, order := Continue, Order(AnyOrder(pending.Keys), AnyOrder(pendingTools.Keys));
      if w.sessionID != sessionID {
        return;
      }
      var ok := true;
      match w.body {
      case SessionIdle =>
        ok := Send(Done);
        status := Finished;
      case PermissionAsked(reply) =>
        if reply == ReplyFailed { status := Failed; }
      case AssistantMessage(id) =>
        AnnounceFields(Model(), id);
        ok, order := ConsumeAnnouncement(id);
      case ToolPart(u) =>
        if u.sessionID == sessionID {
          ok := ConsumeTool(u);
        }
      case TextPart(u) =>
        if u.sessionID == sessionID {
          ok := ConsumeText(u);
        }
      case Ignored =>
      }
      if !ok {
        status := Cancelled;
      }
    }

    method ConsumeAnnouncement(id: string) returns (ok: bool, ghost order: Order)
      modifies this
      ensures ok ==> IsOrder(order.texts, old(pending).Keys) && IsOrder(order.tools, old(pendingTools).Keys)
      ensures assistants == old(assistants) + {id} && partTypes == old(partTypes)
      ensures ok ==> pending == KeptTexts(old(pending), id, {})
      ensures ok ==> partText == old(partText) + MovedTexts(old(pending), id, {})
      ensures ok ==> pendingTools == KeptTools(old(pendingTools), id, {})
      ensures ok ==> seenCalls == old(seenCalls) + ReleasedCalls(old(pendingTools), id, {})
      ensures IsPartialOrder(order.texts, old(pending).Keys) && IsPartialOrder(order.tools, old(pendingTools).Keys)
      ensures out == old(out) + FlushTexts(old(pending), id, order.texts) +
                     MapTools(old(seenCalls), ReleasedTools(old(pendingTools), id, order.tools))
    {
      hide FlushTexts, MapTools, ReleasedTools, KeptTexts, MovedTexts, KeptTools, ReleasedCalls, IsOrder,
           IsPartialOrder;
      EmptyOrder(pendingTools.Keys);
      ToolsStart(pendingTools, seenCalls, id);
      assistants := assistants + {id};
      ghost var texts, tools;
      ok, texts := FlushPendingTexts(id);
      if !ok {
        order := Order(texts, []);
        AppendNothing(out);
        return;
      }
      ok, tools := FlushPendingTools(id);
      order := Order(texts, tools);
    }

    method ConsumeTool(u: ToolUpdate) returns (ok: bool)
      modifies this
      ensures Model() == NextTool(old(Model()), u)
      ensures out == if ok && u.messageID in old(assistants) then old(out) + MapTools(old(seenCalls), [u]) else old(out)
    {
      ok := true;
      if u.partID != "" {
        partTypes := partTypes[u.partID := "tool"];
      }
      if u.messageID !in assistants {
        pendingTools := pendingTools[u.partID := u];
        return;
      }
      MapToolsSnoc(seenCalls, [], u);
      assert seenCalls + CallKeys([]) == seenCalls && [] + [u] == [u];
      ok := EmitTool(u);
    }

    method ConsumeText(u: TextUpdate) returns (ok: bool)
      modifies this`partText, this`partTypes, this`pending, this`out
      ensures Model() == NextText(old(Model()), u)
      ensures out == if ok then old(out) + EmitText(old(Model()), u) else old(out)
    {
      ok := true;
      if u.partID != "" && u.partType != "" {
        partTypes := partTypes[u.partID := u.partType];
      }
      if u.isDelta {
        var partType := Trim(u.partType);
        if partType == "" {
          partType := Get(partTypes, u.partID);
        }
        if partType != "text" {
          return;
        }
      }
      if u.messageID !in assistants {
        var before := if u.partID in pending then pending[u.partID].text else "";
        pending := pending[u.partID := Pending(u.messageID, if u.isDelta then before + u.text else u.text)];
        return;
      }
      var previous := Get(partText, u.partID);
      if u.isDelta {
        partText := partText[u.partID := previous + u.text];
        if u.text != "" {
          ok := Send(TextDelta(u.messageID, u.partID, u.text));
        }
        return;
      }
      partText := partText[u.partID := u.text];
      if u.text == "" {
        return;
      }
      if previous != "" && previous <= u.text {
        var delta := u.text[|previous|..];
        if delta != "" {
          ok := Send(TextDelta(u.messageID, u.partID, delta));
        }
        return;
      }
      ok := Send(TextSet(u.messageID, u.partID, u.text));
    }

    /** The whole loop over a stream that ends after `ws`; `n` events were read to the end. */
    method ConsumeAll(ws: seq<Wire>) returns (status: Status, n: nat, ghost orders: seq<Order>)
      requires Model() == Initial && out == []
      modifies this
      ensures n <= |ws|
      ensures status != Cancelled ==> IsRun(sessionID, ws[..n], orders, Model(), out)
      ensures status == Cancelled ==> IsCancelledRun(sessionID, ws, orders, n, out)
      ensures status == Continue ==> n == |ws| && forall i | 0 <= i < n :: !Halts(sessionID, ws[i])
      ensures status in {Finished, Failed} ==>
                n > 0 && Halts(sessionID, ws[n - 1]) && forall i | 0 <= i < n - 1 :: !Halts(sessionID, ws[i])
    {
      hide Next, Emit, Halts, IsOrder, IsPartialOrder;
      status, n, orders := Continue, 0, [];
      while n < |ws|
        invariant n <= |ws| && status == Continue
        invariant IsRun(sessionID, ws[..n], orders, Model(), out)
        invariant forall i | 0 <= i < n :: !Halts(sessionID, ws[i])
      {
        if * {
          status := Cancelled;
          CancelledBefore(sessionID, ws, orders, n, Model(), out);
          return;
        }
        ghost var order;
        ghost var s, sent := Model(), out;
        status, order := Consume(ws[n]);
        if status == Cancelled {
          CancelledStep(sessionID, ws, orders, order, n, s, sent, out);
          orders := orders + [order];
          return;
        }
        RunStep(sessionID, ws, orders, order, n, s, sent);
        n, orders := n + 1, orders + [order];
        if status != Continue {
          return;
        }
      }
    }
  }

  /** Every stream has a run. */
  lemma {:induction false} SomeOrders(sid: string, ws: seq<Wire>) returns (os: seq<Order>)
    ensures AreRangeOrders(sid, ws, os)
  {
    hide Next;
    if ws == [] {
      os := [];
    } else {
      var n := |ws| - 1;
      var before := SomeOrders(sid, ws[..n]);
      var s := StateAfter(sid, ws[..n]);
      os := before + [Order(AnyOrder(s.pending.Keys), AnyOrder(s.pendingTools.Keys))];
      assert os[..n] == before;
    }
  }

  lemma CancelledBefore(sid: string, ws: seq<Wire>, os: seq<Order>, n: nat, s: State, sent: seq<RenderEvent>)
    requires n < |ws| && IsRun(sid, ws[..n], os, s, sent)
    ensures IsCancelledRun(sid, ws, os, n, sent)
  {
    assert os[..n] == os;
  }

  lemma CancelledStep(
    sid: string, ws: seq<Wire>, os: seq<Order>, o: Order, n: nat,
    s: State, sent: seq<RenderEvent>, out: seq<RenderEvent>)
    requires n < |ws| && IsRun(sid, ws[..n], os, s, sent)
    requires IsPartialOrder(o.texts, s.pending.Keys) && IsPartialOrder(o.tools, s.pendingTools.Keys)
    requires out == sent || out == sent + Emit(sid, s, ws[n], o)
    ensures IsCancelledRun(sid, ws, os + [o], n, out)
  {
    assert (os + [o])[..n] == os;
  }

  lemma RunStep(sid: string, ws: seq<Wire>, os: seq<Order>, o: Order, n: nat, s: State, sent: seq<RenderEvent>)
    requires n < |ws| && IsRun(sid, ws[..n], os, s, sent) && IsRangeOrder(s, o)
    ensures IsRun(sid, ws[..n + 1], os + [o], Next(sid, s, ws[n]), sent + Emit(sid, s, ws[n], o))
  {
    hide Next, Emit, IsRangeOrder;
    assert ws[..n + 1][..n] == ws[..n];
    assert (os + [o])[..n] == os;
  }

  lemma AnnounceFields(s: State, id: string)
    ensures Announce(s, id) == State(
              s.assistants + {id}, s.partText + MovedTexts(s.pending, id, {}), s.partTypes,
              KeptTexts(s.pending, id, {}), KeptTools(s.pendingTools, id, {}),
              s.seenCalls + ReleasedCalls(s.pendingTools, id, {}))
  {
    hide MovedTexts, KeptTexts, KeptTools, ReleasedCalls;
  }

  lemma EmptyOrder(keys: set<string>)
    ensures IsPartialOrder([], keys)
  {
  }

  lemma TextsStart(pending: map<string, Pending>, id: string)
    ensures KeptTexts(pending, id, pending.Keys) == pending
    ensures MovedTexts(pending, id, pending.Keys) == map[]
    ensures FlushTexts(pending, id, []) == []
    ensures IsOrder([], pending.Keys - pending.Keys)
  {
  }

  lemma ToolsStart(pendingTools: map<string, ToolUpdate>, seen: set<string>, id: string)
    ensures KeptTools(pendingTools, id, pendingTools.Keys) == pendingTools
    ensures ReleasedCalls(pendingTools, id, pendingTools.Keys) == {}
    ensures MapTools(seen, ReleasedTools(pendingTools, id, [])) == []
    ensures IsOrder([], pendingTools.Keys - pendingTools.Keys)
  {
  }

  lemma TextsStep(text: map<string, string>, pending: map<string, Pending>, id: string, left: set<string>, k: string)
    requires k in pending && k in left
    ensures k in KeptTexts(pending, id, left) && KeptTexts(pending, id, left)[k] == pending[k]
    ensures KeptTexts(pending, id, left - {k}) ==
            if Releases(pending[k], id) then KeptTexts(pending, id, left) - {k} else KeptTexts(pending, id, left)
    ensures var moved := text + MovedTexts(pending, id, left);
            text + MovedTexts(pending, id, left - {k}) ==
            if Releases(pending[k], id) then moved[k := pending[k].text] else moved
  {
  }

  lemma FlushTextsStep(pending: map<string, Pending>, id: string, order: seq<string>, k: string)
    ensures FlushTexts(pending, id, order + [k]) == FlushTexts(pending, id, order) +
            if k in pending && Releases(pending[k], id) then [TextSet(id, k, pending[k].text)] else []
  {
    assert (order + [k])[..|order|] == order;
  }

  lemma KeptToolsStep(pendingTools: map<string, ToolUpdate>, id: string, left: set<string>, k: string)
    requires k in pendingTools && k in left
    ensures k in KeptTools(pendingTools, id, left) && KeptTools(pendingTools, id, left)[k] == pendingTools[k]
    ensures KeptTools(pendingTools, id, left - {k}) ==
            if pendingTools[k].messageID == id then KeptTools(pendingTools, id, left) - {k}
            else KeptTools(pendingTools, id, left)
  {
  }

  lemma ReleasedCallsStep(pendingTools: map<string, ToolUpdate>, id: string, left: set<string>, k: string)
    requires k in pendingTools && k in left
    ensures ReleasedCalls(pendingTools, id, left - {k}) == ReleasedCalls(pendingTools, id, left) +
            if pendingTools[k].messageID == id then {ToolCallKey(pendingTools[k])} else {}
  {
    var now := ReleasedCalls(pendingTools, id, left);
    var next := ReleasedCalls(pendingTools, id, left - {k});
    forall c | c in next
      ensures c in now || (pendingTools[k].messageID == id && c == ToolCallKey(pendingTools[k]))
    {
      var q :| && q in pendingTools && q !in left - {k}
               && pendingTools[q].messageID == id && c == ToolCallKey(pendingTools[q]);
      if q != k { assert q !in left; }
    }
  }

  lemma MapToolsSnoc(seen: set<string>, us: seq<ToolUpdate>, u: ToolUpdate)
    ensures MapTools(seen, us + [u]) == MapTools(seen, us) + [MapTool(seen + CallKeys(us), u)]
  {
    assert (us + [u])[..|us|] == us;
  }

  lemma {:induction false} MapToolsStep(
    pendingTools: map<string, ToolUpdate>, seen: set<string>, id: string,
    left: set<string>, order: seq<string>, k: string)
    requires k in pendingTools && IsOrder(order, pendingTools.Keys - left)
    ensures MapTools(seen, ReleasedTools(pendingTools, id, order + [k])) ==
            MapTools(seen, ReleasedTools(pendingTools, id, order)) +
            if pendingTools[k].messageID != id then []
            else [MapTool(seen + ReleasedCalls(pendingTools, id, left), pendingTools[k])]
  {
    var us := ReleasedTools(pendingTools, id, order);
    assert (order + [k])[..|order|] == order;
    if pendingTools[k].messageID == id {
      ReleasedKeys(pendingTools, id, left, order);
      MapToolsSnoc(seen, us, pendingTools[k]);
    } else {
      assert ReleasedTools(pendingTools, id, order + [k]) == us;
    }
  }

  lemma ReleasedMembers(pendingTools: map<string, ToolUpdate>, id: string, order: seq<string>, u: ToolUpdate)
    ensures u in ReleasedTools(pendingTools, id, order) <==>
            u.messageID == id && exists k :: k in order && k in pendingTools && pendingTools[k] == u
  {
    if order != [] {
      var k := order[|order| - 1];
      ReleasedMembers(pendingTools, id, order[..|order| - 1], u);
      assert order == order[..|order| - 1] + [k];
    }
  }

  lemma ReleasedKeys(pendingTools: map<string, ToolUpdate>, id: string, left: set<string>, order: seq<string>)
    requires IsOrder(order, pendingTools.Keys - left)
    ensures CallKeys(ReleasedTools(pendingTools, id, order)) == ReleasedCalls(pendingTools, id, left)
  {
    forall u: ToolUpdate
      ensures u in ReleasedTools(pendingTools, id, order) <==>
              u.messageID == id && exists k :: k in pendingTools && k !in left && pendingTools[k] == u
    {
      ReleasedMembers(pendingTools, id, order, u);
      OrderMembers(order, pendingTools.Keys - left);
    }
  }
}
