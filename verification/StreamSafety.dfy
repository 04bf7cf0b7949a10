/** What the event-stream machine may send (bot/opencode_generator.go, lines 999-1097 and 1644-1700):
    assistant content only, no delta of a non-text part, and one life cycle per tool call. */
module StreamSafety {
  import opened Text
  import opened RenderEvents
  import opened EventStream

  // ----- only announced assistant content -----

  lemma EmitIsAnnounced(sid: string, s: State, w: Wire, o: Order, e: RenderEvent)
    requires e in Emit(sid, s, w, o)
    ensures e.Done? || e.messageID in Next(sid, s, w).assistants
  {
    hide Trim, KindFor, KeptTexts, MovedTexts, KeptTools, ReleasedCalls, RecordType, Accepted;
    if w.body.AssistantMessage? {
      var us := ReleasedTools(s.pendingTools, w.body.messageID, o.tools);
      if e in FlushTexts(s.pending, w.body.messageID, o.texts) {
        FlushedMessage(s.pending, w.body.messageID, o.texts, e);
      } else {
        MappedMessage(s.seenCalls, us, e);
        ReleasedMessage(s.pendingTools, w.body.messageID, o.tools);
      }
    } else if w.body.ToolPart? {
      MappedMessage(s.seenCalls, [w.body.tool], e);
    }
  }

  lemma FlushedMessage(pending: map<string, Pending>, id: string, order: seq<string>, e: RenderEvent)
    requires e in FlushTexts(pending, id, order)
    ensures e.TextSet? && e.messageID == id
  {
  }

  lemma MappedMessage(seen: set<string>, us: seq<ToolUpdate>, e: RenderEvent)
    requires e in MapTools(seen, us)
    ensures exists u :: u in us && e.Tool? && e.messageID == u.messageID
  {
    hide KindFor;
    var last := us[|us| - 1];
    if e in MapTools(seen, us[..|us| - 1]) {
      MappedMessage(seen, us[..|us| - 1], e);
    } else {
      assert last in us;
    }
  }

  lemma {:induction false} ReleasedMessage(pendingTools: map<string, ToolUpdate>, id: string, order: seq<string>)
    ensures forall u :: u in ReleasedTools(pendingTools, id, order) ==> u.messageID == id
  {
    if order != [] { ReleasedMessage(pendingTools, id, order[..|order| - 1]); }
  }

  /** Every text or tool event sent so far is of a message announced so far. */
  lemma {:induction false} OnlyAnnouncedContent(sid: string, ws: seq<Wire>, os: seq<Order>, e: RenderEvent)
    requires |os| == |ws| && e in Output(sid, ws, os)
    ensures e.Done? || e.messageID in StateAfter(sid, ws).assistants
  {
    var n := |ws| - 1;
    var s := StateAfter(sid, ws[..n]);
    assert s.assistants <= Next(sid, s, ws[n]).assistants;
    if e in Output(sid, ws[..n], os[..n]) {
      OnlyAnnouncedContent(sid, ws[..n], os[..n], e);
    } else {
      EmitIsAnnounced(sid, s, ws[n], os[n], e);
    }
  }

  /** Nothing that could be sent is still held back. */
  ghost predicate NothingStuck(s: State) {
    && (forall p :: p in s.pending && s.pending[p].text != "" ==> s.pending[p].messageID !in s.assistants)
    && (forall p :: p in s.pendingTools ==> s.pendingTools[p].messageID !in s.assistants)
  }

  lemma {:induction false} NothingGetsStuck(sid: string, ws: seq<Wire>)
    ensures NothingStuck(StateAfter(sid, ws))
  {
    if ws != [] {
      NothingGetsStuck(sid, ws[..|ws| - 1]);
      NothingStuckStep(sid, StateAfter(sid, ws[..|ws| - 1]), ws[|ws| - 1]);
    }
  }

  lemma NothingStuckStep(sid: string, s: State, w: Wire)
    requires NothingStuck(s)
    ensures NothingStuck(Next(sid, s, w))
  {
    hide Trim, Accepted, RecordType, ReleasedCalls, MovedTexts;
  }

  // ----- deltas of text parts only -----

  /** What decoding guarantees: a part id, and the type "text" on every snapshot. */
  predicate WellDecoded(w: Wire) {
    w.body.TextPart? ==> w.body.txt.partID != "" && (!w.body.txt.isDelta ==> w.body.txt.partType == "text")
  }

  lemma DeltasAreOfTextParts(sid: string, s: State, w: Wire, o: Order, e: RenderEvent)
    requires WellDecoded(w) && e in Emit(sid, s, w, o) && e.TextDelta?
    ensures Trim(Get(Next(sid, s, w).partTypes, e.partID)) == "text"
  {
    TrimOfTrimmed("text");
    if w.body.AssistantMessage? {
      var us := ReleasedTools(s.pendingTools, w.body.messageID, o.tools);
      if e in FlushTexts(s.pending, w.body.messageID, o.texts) {
        FlushedMessage(s.pending, w.body.messageID, o.texts, e);
      } else {
        MappedMessage(s.seenCalls, us, e);
      }
    } else if w.body.ToolPart? {
      MappedMessage(s.seenCalls, [w.body.tool], e);
    }
  }

  // ----- the life cycle of a tool call -----

  function Calls(out: seq<RenderEvent>): set<string> {
    set e | e in out && e.Tool? :: CallKey(e)
  }

  /** The next event of a call is legal after the events `out`. */
  predicate LegalNext(out: seq<RenderEvent>, e: RenderEvent) {
    e.Tool? ==>
      && (e.kind == Start ==> CallKey(e) !in Calls(out))
      && (e.kind == Update ==> CallKey(e) in Calls(out))
  }

  ghost predicate LifeCycle(out: seq<RenderEvent>) {
    forall i | 0 <= i < |out| :: LegalNext(out[..i], out[i])
  }

  lemma LifeCycleSnoc(out: seq<RenderEvent>, e: RenderEvent)
    requires LifeCycle(out) && LegalNext(out, e)
    ensures LifeCycle(out + [e])
    ensures Calls(out + [e]) == Calls(out) + if e.Tool? then {CallKey(e)} else {}
  {
    hide CallKey, LegalNext;
    forall i | 0 <= i < |out + [e]|
      ensures LegalNext((out + [e])[..i], (out + [e])[i])
    {
      if i < |out| {
        assert (out + [e])[..i] == out[..i];
      } else {
        assert (out + [e])[..i] == out;
      }
    }
  }

  lemma {:induction false} LifeCycleMapTools(out: seq<RenderEvent>, seen: set<string>, us: seq<ToolUpdate>)
    requires LifeCycle(out) && Calls(out) == seen
    ensures LifeCycle(out + MapTools(seen, us))
    ensures Calls(out + MapTools(seen, us)) == seen + CallKeys(us)
  {
    hide LifeCycle, Calls, FirstNonEmpty, Trim, Lower;
    if us == [] {
      assert out + [] == out;
    } else {
      var before, u := us[..|us| - 1], us[|us| - 1];
      LifeCycleMapTools(out, seen, before);
      var sent := MapTools(seen, before);
      var e := MapTool(seen + CallKeys(before), u);
      LifeCycleSnoc(out + sent, e);
      Assoc(out, sent, [e]);
      assert us == before + [u];
    }
  }

  lemma {:induction false} LifeCycleTexts(out: seq<RenderEvent>, more: seq<RenderEvent>)
    requires LifeCycle(out) && forall e :: e in more ==> !e.Tool?
    ensures LifeCycle(out + more) && Calls(out + more) == Calls(out)
  {
    hide LifeCycle, Calls;
    if more == [] {
      assert out + [] == out;
    } else {
      var before := more[..|more| - 1];
      LifeCycleTexts(out, before);
      LifeCycleSnoc(out + before, more[|more| - 1]);
      assert out + before + [more[|more| - 1]] == out + more;
    }
  }

  /** Each call gets at most one start, before any other event, and an update only after one;
      the last range of the run may have been cut short. */
  lemma {:induction false} ToolCallLifeCycle(sid: string, ws: seq<Wire>, os: seq<Order>)
    requires |os| == |ws|
    requires ws != [] ==> AreRangeOrders(sid, ws[..|ws| - 1], os[..|ws| - 1])
    ensures LifeCycle(Output(sid, ws, os))
    ensures AreRangeOrders(sid, ws, os) ==> Calls(Output(sid, ws, os)) == StateAfter(sid, ws).seenCalls
  {
    hide LifeCycle, Calls, Next, Emit, IsRangeOrder;
    if ws == [] {
      EmptyLifeCycle();
    } else {
      var n := |ws| - 1;
      ToolCallLifeCycle(sid, ws[..n], os[..n]);
      LifeCycleStep(sid, StateAfter(sid, ws[..n]), ws[n], os[n], Output(sid, ws[..n], os[..n]));
    }
  }

  lemma EmptyLifeCycle()
    ensures LifeCycle([]) && Calls([]) == {}
  {
  }

  lemma LifeCycleStep(sid: string, s: State, w: Wire, o: Order, out: seq<RenderEvent>)
    requires LifeCycle(out) && Calls(out) == s.seenCalls
    ensures LifeCycle(out + Emit(sid, s, w, o))
    ensures IsRangeOrder(s, o) ==> Calls(out + Emit(sid, s, w, o)) == Next(sid, s, w).seenCalls
  {
    hide LifeCycle, Calls, MapTools, FlushTexts, ReleasedTools, KeptTexts, MovedTexts, KeptTools, ReleasedCalls,
         FirstNonEmpty, CallKeys, IsOrder, NextText;
    if Concerns(sid, w) {
      match w.body {
        case AssistantMessage(id) =>
          var texts := FlushTexts(s.pending, id, o.texts);
          var us := ReleasedTools(s.pendingTools, id, o.tools);
          forall e | e in texts ensures !e.Tool? { FlushedMessage(s.pending, id, o.texts, e); }
          LifeCycleTexts(out, texts);
          LifeCycleMapTools(out + texts, s.seenCalls, us);
          Assoc(out, texts, MapTools(s.seenCalls, us));
          if IsRangeOrder(s, o) {
            assert s.pendingTools.Keys - {} == s.pendingTools.Keys;
            ReleasedKeys(s.pendingTools, id, {}, o.tools);
          }
        case ToolPart(u) =>
          LifeCycleMapTools(out, s.seenCalls, if u.messageID in s.assistants then [u] else []);
          OneCall(u);
          MapNone(s.seenCalls);
        case TextPart(u) =>
          LifeCycleTexts(out, EmitText(s, u));
          SameCalls(s, u);
        case SessionIdle => LifeCycleTexts(out, [Done]);
        case _ => assert out + [] == out;
      }
    } else {
      assert out + [] == out;
    }
  }

  lemma OneCall(u: ToolUpdate)
    ensures CallKeys([u]) == {ToolCallKey(u)} && CallKeys([]) == {}
  {
  }

  lemma MapNone(seen: set<string>)
    ensures MapTools(seen, []) == []
  {
  }

  lemma SameCalls(s: State, u: TextUpdate)
    ensures NextText(s, u).seenCalls == s.seenCalls
  {
  }

  /** What the life cycle means for one call. */
  lemma OneStartPerCall(out: seq<RenderEvent>, i: nat, j: nat)
    requires LifeCycle(out) && i < j < |out|
    requires out[i].Tool? && out[j].Tool? && CallKey(out[i]) == CallKey(out[j])
    ensures out[j].kind != Start
  {
    assert out[i] in out[..j] by { assert out[..j][i] == out[i]; }
    assert LegalNext(out[..j], out[j]);
  }
}
