/** What each kind of event does in the event-stream machine, read off the event's own fields and
    the events before it (bot/opencode_generator.go, lines 943-1145 and 1644-1700). */
module StreamSteps {
  import opened Text
  import opened RenderEvents
  import opened EventStream
  import opened StreamReplay
  import opened StreamSafety
  import opened SampleStreams

  // ----- deltas -----

  /** The type the events of the session gave part `p` last. */
  function GivenType(sid: string, ws: seq<Wire>, p: string): string {
    if ws == [] then "" else GivenBy(sid, GivenType(sid, ws[..|ws| - 1], p), ws[|ws| - 1], p)
  }

  function GivenBy(sid: string, before: string, w: Wire, p: string): string {
    if w.sessionID != sid || p == "" then before
    else match w.body
      case ToolPart(u) => if u.sessionID == sid && u.partID == p then "tool" else before
      case TextPart(u) => if u.sessionID == sid && u.partID == p && u.partType != "" then u.partType else before
      case _ => before
  }

  lemma TypeStep(sid: string, s: State, w: Wire, p: string)
    ensures Get(Next(sid, s, w).partTypes, p) == GivenBy(sid, Get(s.partTypes, p), w, p)
  {
    hide NextText, NextTool, KeptTools, ReleasedCalls, KeptTexts, MovedTexts;
    if w.body.TextPart? {
      TypesAfterText(s, w.body.txt);
    } else if w.body.ToolPart? {
      TypesAfterTool(s, w.body.tool);
    }
  }

  lemma TypesAfterTool(s: State, u: ToolUpdate)
    ensures NextTool(s, u).partTypes == if u.partID != "" then s.partTypes[u.partID := "tool"] else s.partTypes
  {
  }

  lemma {:induction false} TypeIsGiven(sid: string, ws: seq<Wire>, p: string)
    ensures Get(StateAfter(sid, ws).partTypes, p) == GivenType(sid, ws, p)
  {
    hide Next, GivenBy;
    if ws != [] {
      TypeIsGiven(sid, ws[..|ws| - 1], p);
      TypeStep(sid, StateAfter(sid, ws[..|ws| - 1]), ws[|ws| - 1], p);
    }
  }

  function TextEvent(sid: string, u: TextUpdate): Wire {
    Wire(sid, TextPart(u))
  }

  /** The delta is of a text part: it says so, or says nothing of a part last known as one. */
  predicate IsOfText(sid: string, ws: seq<Wire>, u: TextUpdate) {
    || Trim(u.partType) == "text"
    || (Trim(u.partType) == "" && GivenType(sid, ws + [TextEvent(sid, u)], u.partID) == "text")
  }

  lemma OutputSnoc(sid: string, ws: seq<Wire>, os: seq<Order>, w: Wire, o: Order)
    requires |os| == |ws|
    ensures Output(sid, ws + [w], os + [o]) == Output(sid, ws, os) + Emit(sid, StateAfter(sid, ws), w, o)
  {
    hide Emit, Next;
    assert (ws + [w])[..|ws|] == ws && (os + [o])[..|ws|] == os;
  }

  lemma {:induction false} IsOfTextStep(sid: string, ws: seq<Wire>, u: TextUpdate)
    requires u.isDelta && u.sessionID == sid
    ensures var s := StateAfter(sid, ws);
            Accepted(Get(RecordType(s.partTypes, u), u.partID), u) <==> IsOfText(sid, ws, u)
  {
    var s, w := StateAfter(sid, ws), TextEvent(sid, u);
    TypeIsGiven(sid, ws + [w], u.partID);
    AfterSnoc(sid, ws, w);
    TypesAfterText(s, u);
    hide StateAfter, GivenType, RecordType, NextText, Trim;
  }

  lemma TypesAfterText(s: State, u: TextUpdate)
    ensures NextText(s, u).partTypes == RecordType(s.partTypes, u)
  {
    hide Accepted, RecordType;
  }

  /** In every run a delta of an announced message is appended to the part's text exactly when it
      is of text, and then it is sent, unless it is empty. */
  lemma {:induction false} DeltaIsAppended(sid: string, ws: seq<Wire>, os: seq<Order>, u: TextUpdate, o: Order)
    requires |os| == |ws| && u.isDelta && u.sessionID == sid && u.messageID in StateAfter(sid, ws).assistants
    ensures var s, s' := StateAfter(sid, ws), StateAfter(sid, ws + [TextEvent(sid, u)]);
            && Get(s'.partText, u.partID) ==
               Get(s.partText, u.partID) + (if IsOfText(sid, ws, u) then u.text else "")
            && (forall q :: q != u.partID ==> Get(s'.partText, q) == Get(s.partText, q))
            && s'.pending == s.pending && s'.assistants == s.assistants && s'.pendingTools == s.pendingTools
    ensures Output(sid, ws + [TextEvent(sid, u)], os + [o]) ==
            Output(sid, ws, os) + if IsOfText(sid, ws, u) && u.text != ""
                                  then [TextDelta(u.messageID, u.partID, u.text)] else []
  {
    IsOfTextStep(sid, ws, u);
    AfterSnoc(sid, ws, TextEvent(sid, u));
    OutputSnoc(sid, ws, os, TextEvent(sid, u), o);
    hide StateAfter, Output, IsOfText, RecordType, Accepted;
  }

  /** A delta of an unannounced message waits under the same condition, and sends nothing. */
  lemma {:induction false} DeltaWaits(sid: string, ws: seq<Wire>, os: seq<Order>, u: TextUpdate, o: Order)
    requires |os| == |ws| && u.isDelta && u.sessionID == sid && u.messageID !in StateAfter(sid, ws).assistants
    ensures var s, s' := StateAfter(sid, ws), StateAfter(sid, ws + [TextEvent(sid, u)]);
            var waiting := if u.partID in s.pending then s.pending[u.partID].text else "";
            && s'.pending == (if IsOfText(sid, ws, u)
                              then s.pending[u.partID := Pending(u.messageID, waiting + u.text)] else s.pending)
            && s'.partText == s.partText && s'.assistants == s.assistants && s'.pendingTools == s.pendingTools
    ensures Output(sid, ws + [TextEvent(sid, u)], os + [o]) == Output(sid, ws, os)
  {
    IsOfTextStep(sid, ws, u);
    AfterSnoc(sid, ws, TextEvent(sid, u));
    OutputSnoc(sid, ws, os, TextEvent(sid, u), o);
    hide StateAfter, Output, IsOfText, RecordType, Accepted;
  }

  // ----- snapshots -----

  /** A snapshot of an announced message becomes the part's text.  What is sent is its difference
      to the text before when it extends that, all of it when not, and nothing when it is empty or
      the same. */
  lemma {:induction false} SnapshotIsTaken(sid: string, ws: seq<Wire>, os: seq<Order>, u: TextUpdate, o: Order)
    requires |os| == |ws| && !u.isDelta && u.sessionID == sid && u.messageID in StateAfter(sid, ws).assistants
    ensures var s, s' := StateAfter(sid, ws), StateAfter(sid, ws + [TextEvent(sid, u)]);
            && Get(s'.partText, u.partID) == u.text
            && (forall q :: q != u.partID ==> Get(s'.partText, q) == Get(s.partText, q))
            && s'.pending == s.pending && s'.assistants == s.assistants && s'.pendingTools == s.pendingTools
    ensures var before := Get(StateAfter(sid, ws).partText, u.partID);
            Output(sid, ws + [TextEvent(sid, u)], os + [o]) == Output(sid, ws, os) +
              if u.text == "" || u.text == before then []
              else if before != "" && before <= u.text
              then [TextDelta(u.messageID, u.partID, u.text[|before|..])]
              else [TextSet(u.messageID, u.partID, u.text)]
  {
    AfterSnoc(sid, ws, TextEvent(sid, u));
    OutputSnoc(sid, ws, os, TextEvent(sid, u), o);
    hide StateAfter, Output, RecordType, Trim;
  }

  /** A snapshot of an unannounced message replaces what waits of the part, and sends nothing. */
  lemma {:induction false} SnapshotWaits(sid: string, ws: seq<Wire>, os: seq<Order>, u: TextUpdate, o: Order)
    requires |os| == |ws| && !u.isDelta && u.sessionID == sid && u.messageID !in StateAfter(sid, ws).assistants
    ensures var s, s' := StateAfter(sid, ws), StateAfter(sid, ws + [TextEvent(sid, u)]);
            && s'.pending == s.pending[u.partID := Pending(u.messageID, u.text)]
            && s'.partText == s.partText && s'.assistants == s.assistants && s'.pendingTools == s.pendingTools
    ensures Output(sid, ws + [TextEvent(sid, u)], os + [o]) == Output(sid, ws, os)
  {
    AfterSnoc(sid, ws, TextEvent(sid, u));
    OutputSnoc(sid, ws, os, TextEvent(sid, u), o);
    hide StateAfter, Output, RecordType, Trim;
  }

  // ----- events of other sessions, and the end -----

  /** The event or the part in it names another session. */
  predicate IsForeign(sid: string, w: Wire) {
    || w.sessionID != sid
    || (w.body.ToolPart? && w.body.tool.sessionID != sid)
    || (w.body.TextPart? && w.body.txt.sessionID != sid)
  }

  lemma {:induction false} ForeignIsIgnored(sid: string, ws: seq<Wire>, os: seq<Order>, w: Wire, o: Order)
    requires |os| == |ws| && IsForeign(sid, w)
    ensures StateAfter(sid, ws + [w]) == StateAfter(sid, ws)
    ensures Output(sid, ws + [w], os + [o]) == Output(sid, ws, os)
    ensures !Halts(sid, w)
  {
    AfterSnoc(sid, ws, w);
    OutputSnoc(sid, ws, os, w, o);
    hide StateAfter, Output;
  }

  /** The stream ends when the session is idle, which is told, or a permission cannot be answered,
      which is not; such events, answered requests and unknown events change nothing. */
  lemma {:induction false} EndIsTold(sid: string, ws: seq<Wire>, os: seq<Order>, w: Wire, o: Order)
    requires |os| == |ws| && w.sessionID == sid
    ensures Halts(sid, w) <==> w.body == SessionIdle || w.body == PermissionAsked(ReplyFailed)
    ensures w.body.SessionIdle? || w.body.PermissionAsked? || w.body.Ignored? ==>
              && StateAfter(sid, ws + [w]) == StateAfter(sid, ws)
              && Output(sid, ws + [w], os + [o]) == Output(sid, ws, os) + if w.body.SessionIdle? then [Done] else []
  {
    AfterSnoc(sid, ws, w);
    OutputSnoc(sid, ws, os, w, o);
    hide StateAfter, Output;
  }

  // ----- announcements -----

  /** The event tells all that the update says. */
  predicate Carries(e: RenderEvent, u: ToolUpdate) {
    && e.Tool? && e.messageID == u.messageID && e.partID == u.partID && e.callID == u.callID
    && e.toolName == u.tool && e.status == u.status && e.detail == u.detail
  }

  function WaitingTexts(s: State, id: string): set<string> {
    set q | q in s.pending && s.pending[q].messageID == id && s.pending[q].text != ""
  }

  function WaitingTools(s: State, id: string): set<string> {
    set k | k in s.pendingTools && s.pendingTools[k].messageID == id
  }

  ghost predicate NoRepeats(order: seq<string>) {
    forall i, j | 0 <= i < j < |order| :: order[i] != order[j]
  }

  lemma OrderHasNoRepeats(order: seq<string>, keys: set<string>)
    requires IsOrder(order, keys)
    ensures NoRepeats(order)
  {
    forall i, j | 0 <= i < j < |order| ensures order[i] != order[j] {
      CountTwice(order, i, j);
    }
  }

  lemma CountTwice(order: seq<string>, i: nat, j: nat)
    requires i < j < |order|
    ensures order[i] == order[j] ==> multiset(order)[order[i]] >= 2
  {
    var a, b := order[..j], order[j..];
    assert order == a + b;
    assert a[i] == order[i] && b[0] == order[j];
    assert a[i] in multiset(a) && b[0] in multiset(b);
  }

  function TextsIn(pending: map<string, Pending>, id: string, order: seq<string>): set<string> {
    set q | q in order && q in pending && pending[q].messageID == id && pending[q].text != ""
  }

  function ToolsIn(pendingTools: map<string, ToolUpdate>, id: string, order: seq<string>): set<string> {
    set k | k in order && k in pendingTools && pendingTools[k].messageID == id
  }

  lemma {:induction false} FlushSends(pending: map<string, Pending>, id: string, order: seq<string>, e: RenderEvent)
    ensures e in FlushTexts(pending, id, order) <==>
            exists q :: q in order && q in pending && pending[q].messageID == id && pending[q].text != "" &&
                        e == TextSet(id, q, pending[q].text)
  {
    if order != [] {
      var before, k := order[..|order| - 1], order[|order| - 1];
      FlushSends(pending, id, before, e);
      FlushTextsStep(pending, id, before, k);
      assert order == before + [k];
    }
  }

  lemma {:induction false} FlushCounts(pending: map<string, Pending>, id: string, order: seq<string>)
    requires NoRepeats(order)
    ensures |FlushTexts(pending, id, order)| == |TextsIn(pending, id, order)|
  {
    if order == [] {
      assert TextsIn(pending, id, order) == {};
    } else {
      var before, k := order[..|order| - 1], order[|order| - 1];
      FlushCounts(pending, id, before);
      FlushTextsStep(pending, id, before, k);
      assert order == before + [k];
      var was := TextsIn(pending, id, before);
      assert TextsIn(pending, id, order) == if k in pending && Releases(pending[k], id) then was + {k} else was;
    }
  }

  lemma {:induction false} ReleasedCount(pendingTools: map<string, ToolUpdate>, id: string, order: seq<string>)
    requires NoRepeats(order)
    ensures |ReleasedTools(pendingTools, id, order)| == |ToolsIn(pendingTools, id, order)|
  {
    if order == [] {
      assert ToolsIn(pendingTools, id, order) == {};
    } else {
      var before, k := order[..|order| - 1], order[|order| - 1];
      ReleasedCount(pendingTools, id, before);
      assert order == before + [k];
      var was := ToolsIn(pendingTools, id, before);
      assert ToolsIn(pendingTools, id, order) ==
             if k in pendingTools && pendingTools[k].messageID == id then was + {k} else was;
    }
  }

  lemma {:induction false} MappedCarry(seen: set<string>, us: seq<ToolUpdate>)
    ensures |MapTools(seen, us)| == |us| && forall i | 0 <= i < |us| :: Carries(MapTools(seen, us)[i], us[i])
  {
    hide KindFor;
    if us != [] { MappedCarry(seen, us[..|us| - 1]); }
  }

  /** What the announcement of `id` sends, in whatever order: one `text_set` for each part that
      waits with text of it, and one tool event for each tool update that waits for it. */
  ghost predicate SendsWaiting(s: State, id: string, sent: seq<RenderEvent>) {
    && |sent| == |WaitingTexts(s, id)| + |WaitingTools(s, id)|
    && (forall q :: q in WaitingTexts(s, id) ==> TextSet(id, q, s.pending[q].text) in sent)
    && (forall k :: k in WaitingTools(s, id) ==> exists e :: e in sent && Carries(e, s.pendingTools[k]))
    && (forall e :: e in sent ==>
          if e.Tool? then exists k :: k in WaitingTools(s, id) && Carries(e, s.pendingTools[k])
          else e.TextSet? && e.partID in WaitingTexts(s, id) && e == TextSet(id, e.partID, s.pending[e.partID].text))
  }

  lemma ToolsAreSent(s: State, id: string, order: seq<string>)
    requires IsOrder(order, s.pendingTools.Keys)
    ensures var sent := MapTools(s.seenCalls, ReleasedTools(s.pendingTools, id, order));
            && |sent| == |WaitingTools(s, id)|
            && (forall k :: k in WaitingTools(s, id) ==> exists e :: e in sent && Carries(e, s.pendingTools[k]))
            && (forall e :: e in sent ==> exists k :: k in WaitingTools(s, id) && Carries(e, s.pendingTools[k]))
  {
    hide MapTools, ReleasedTools, IsOrder, Carries;
    var us := ReleasedTools(s.pendingTools, id, order);
    var sent := MapTools(s.seenCalls, us);
    OrderMembers(order, s.pendingTools.Keys);
    OrderHasNoRepeats(order, s.pendingTools.Keys);
    ReleasedCount(s.pendingTools, id, order);
    assert ToolsIn(s.pendingTools, id, order) == WaitingTools(s, id);
    MappedCarry(s.seenCalls, us);
    forall k | k in WaitingTools(s, id) ensures exists e :: e in sent && Carries(e, s.pendingTools[k]) {
      ReleasedMembers(s.pendingTools, id, order, s.pendingTools[k]);
      var i :| 0 <= i < |us| && us[i] == s.pendingTools[k];
      assert sent[i] in sent;
    }
    forall e | e in sent ensures exists k :: k in WaitingTools(s, id) && Carries(e, s.pendingTools[k]) {
      var i :| 0 <= i < |sent| && sent[i] == e;
      ReleasedMembers(s.pendingTools, id, order, us[i]);
      var k :| k in order && k in s.pendingTools && s.pendingTools[k] == us[i];
      assert k in WaitingTools(s, id);
    }
  }

  lemma TextsAreSent(s: State, id: string, order: seq<string>)
    requires IsOrder(order, s.pending.Keys)
    ensures var sent := FlushTexts(s.pending, id, order);
            && |sent| == |WaitingTexts(s, id)|
            && (forall q :: q in WaitingTexts(s, id) ==> TextSet(id, q, s.pending[q].text) in sent)
            && (forall e :: e in sent ==>
                  e.TextSet? && e.partID in WaitingTexts(s, id) && e == TextSet(id, e.partID, s.pending[e.partID].text))
  {
    hide FlushTexts, IsOrder;
    OrderMembers(order, s.pending.Keys);
    OrderHasNoRepeats(order, s.pending.Keys);
    FlushCounts(s.pending, id, order);
    assert TextsIn(s.pending, id, order) == WaitingTexts(s, id);
    forall q | q in WaitingTexts(s, id) ensures TextSet(id, q, s.pending[q].text) in FlushTexts(s.pending, id, order) {
      FlushSends(s.pending, id, order, TextSet(id, q, s.pending[q].text));
    }
    forall e | e in FlushTexts(s.pending, id, order)
      ensures e.TextSet? && e.partID in WaitingTexts(s, id) && e == TextSet(id, e.partID, s.pending[e.partID].text)
    {
      FlushSends(s.pending, id, order, e);
    }
  }

  lemma SentTogether(s: State, id: string, o: Order)
    requires IsRangeOrder(s, o)
    ensures SendsWaiting(s, id, FlushTexts(s.pending, id, o.texts) +
                                MapTools(s.seenCalls, ReleasedTools(s.pendingTools, id, o.tools)))
  {
    hide MapTools, ReleasedTools, FlushTexts, IsOrder, Carries, WaitingTexts, WaitingTools;
    TextsAreSent(s, id, o.texts);
    ToolsAreSent(s, id, o.tools);
    var tools := MapTools(s.seenCalls, ReleasedTools(s.pendingTools, id, o.tools));
    forall e | e in tools ensures e.Tool? {
      MappedAreTools(s.seenCalls, ReleasedTools(s.pendingTools, id, o.tools), e);
    }
  }

  lemma {:induction false} MappedAreTools(seen: set<string>, us: seq<ToolUpdate>, e: RenderEvent)
    requires e in MapTools(seen, us)
    ensures e.Tool?
  {
    MappedMessage(seen, us, e);
  }

  /** In every run an announcement releases exactly what waits for it, each piece once; the texts
      become the texts of their parts, and the rest goes on waiting. */
  lemma {:induction false} AnnouncementReleases(sid: string, ws: seq<Wire>, os: seq<Order>, id: string, o: Order)
    requires AreRangeOrders(sid, ws, os) && IsRangeOrder(StateAfter(sid, ws), o)
    ensures var s, s' := StateAfter(sid, ws), StateAfter(sid, ws + [Wire(sid, AssistantMessage(id))]);
            && s'.assistants == s.assistants + {id}
            && (forall q :: Get(s'.partText, q) ==
                            if q in WaitingTexts(s, id) then s.pending[q].text else Get(s.partText, q))
            && s'.pending == s.pending - WaitingTexts(s, id)
            && s'.pendingTools == s.pendingTools - WaitingTools(s, id)
    ensures exists sent ::
              && SendsWaiting(StateAfter(sid, ws), id, sent)
              && Output(sid, ws + [Wire(sid, AssistantMessage(id))], os + [o]) == Output(sid, ws, os) + sent
  {
    var s, w := StateAfter(sid, ws), Wire(sid, AssistantMessage(id));
    AfterSnoc(sid, ws, w);
    OutputSnoc(sid, ws, os, w, o);
    SentTogether(s, id, o);
    AnnounceKeeps(s, id);
    hide StateAfter, Output, AreRangeOrders, IsRangeOrder, SendsWaiting, MapTools, ReleasedTools, FlushTexts, Announce;
  }

  lemma AnnounceKeeps(s: State, id: string)
    ensures var s' := Announce(s, id);
            && s'.assistants == s.assistants + {id}
            && (forall q :: Get(s'.partText, q) ==
                            if q in WaitingTexts(s, id) then s.pending[q].text else Get(s.partText, q))
            && s'.pending == s.pending - WaitingTexts(s, id)
            && s'.pendingTools == s.pendingTools - WaitingTools(s, id)
  {
    hide ReleasedCalls;
  }

  // ----- tool updates -----

  function ToolEvent(sid: string, u: ToolUpdate): Wire {
    Wire(sid, ToolPart(u))
  }

  ghost predicate IsSent(out: seq<RenderEvent>, u: ToolUpdate) {
    exists e :: e in out && Carries(e, u)
  }

  lemma ToolArrives(sid: string, s: State, u: ToolUpdate, o: Order)
    requires u.sessionID == sid
    ensures var s' := Next(sid, s, ToolEvent(sid, u));
            && s'.assistants == s.assistants && s'.partText == s.partText && s'.pending == s.pending
            && (u.messageID in s.assistants ==>
                  && s'.pendingTools == s.pendingTools
                  && |Emit(sid, s, ToolEvent(sid, u), o)| == 1 && Carries(Emit(sid, s, ToolEvent(sid, u), o)[0], u))
            && (u.messageID !in s.assistants ==>
                  s'.pendingTools == s.pendingTools[u.partID := u] && Emit(sid, s, ToolEvent(sid, u), o) == [])
  {
    hide MapTools;
    MappedCarry(s.seenCalls, [u]);
  }

  /** A tool update is of the same part. */
  predicate IsOfToolPart(sid: string, w: Wire, p: string) {
    w.sessionID == sid && w.body.ToolPart? && w.body.tool.sessionID == sid && w.body.tool.partID == p
  }

  lemma WaitingStays(sid: string, s: State, w: Wire, o: Order, u: ToolUpdate)
    requires u.messageID !in s.assistants && u.partID in s.pendingTools && s.pendingTools[u.partID] == u
    requires !IsOfToolPart(sid, w, u.partID) && IsRangeOrder(s, o)
    ensures var s' := Next(sid, s, w);
            if u.messageID in s'.assistants then IsSent(Emit(sid, s, w, o), u)
            else u.partID in s'.pendingTools && s'.pendingTools[u.partID] == u
  {
    hide Accepted, RecordType, FlushTexts, MapTools, ReleasedTools, IsRangeOrder, Carries;
    if w.sessionID == sid && w.body.AssistantMessage? {
      var id := w.body.messageID;
      AnnounceKeeps(s, id);
      SentTogether(s, id, o);
      if id == u.messageID { assert u.partID in WaitingTools(s, id); }
    }
  }

  /** In every run a tool update is sent in the end, with all it says, once its message is
      announced; only a later update of the part that comes before that replaces it. */
  lemma {:induction false} ToolUpdateIsSent(sid: string, ws: seq<Wire>, os: seq<Order>, i: nat, u: ToolUpdate)
    requires AreRangeOrders(sid, ws, os) && i < |ws| && ws[i] == ToolEvent(sid, u) && u.sessionID == sid
    requires forall k | i < k < |ws| && IsOfToolPart(sid, ws[k], u.partID) ::
               u.messageID in StateAfter(sid, ws[..k]).assistants
    ensures if u.messageID in StateAfter(sid, ws).assistants then IsSent(Output(sid, ws, os), u)
            else u.partID in StateAfter(sid, ws).pendingTools && StateAfter(sid, ws).pendingTools[u.partID] == u
    decreases |ws|
  {
    hide Next, Emit, IsRangeOrder, Carries;
    var n := |ws| - 1;
    var s, o := StateAfter(sid, ws[..n]), os[n];
    var sent := Emit(sid, s, ws[n], o);
    assert Output(sid, ws, os) == Output(sid, ws[..n], os[..n]) + sent;
    if i == n {
      ToolArrives(sid, s, u, o);
      if u.messageID in s.assistants { assert sent[0] in Output(sid, ws, os); }
    } else {
      forall k | i < k < n && IsOfToolPart(sid, ws[..n][k], u.partID)
        ensures u.messageID in StateAfter(sid, ws[..n][..k]).assistants
      {
        assert ws[..n][..k] == ws[..k];
      }
      ToolUpdateIsSent(sid, ws[..n], os[..n], i, u);
      if u.messageID in s.assistants {
        GrowingAssistants(sid, s, ws[n]);
        var e :| e in Output(sid, ws[..n], os[..n]) && Carries(e, u);
        assert e in Output(sid, ws, os);
      } else {
        WaitingStays(sid, s, ws[n], o, u);
        if u.messageID in Next(sid, s, ws[n]).assistants {
          var e :| e in sent && Carries(e, u);
          assert e in Output(sid, ws, os);
        }
      }
    }
  }

  lemma GrowingAssistants(sid: string, s: State, w: Wire)
    ensures s.assistants <= Next(sid, s, w).assistants
  {
    hide Accepted, RecordType;
  }

  // ----- kinds and names of tool events -----

  predicate KindByStatus(e: RenderEvent) {
    e.Tool? ==>
      && (e.kind == Finish <==> Lower(Trim(e.status)) == "completed")
      && (e.kind == Error <==> Lower(Trim(e.status)) == "error")
  }

  lemma {:induction false} MappedKinds(seen: set<string>, us: seq<ToolUpdate>)
    ensures forall e :: e in MapTools(seen, us) ==> KindByStatus(e)
  {
    hide Lower, Trim;
    if us != [] { MappedKinds(seen, us[..|us| - 1]); }
  }

  lemma EmittedKinds(sid: string, s: State, w: Wire, o: Order, e: RenderEvent)
    requires e in Emit(sid, s, w, o)
    ensures KindByStatus(e)
  {
    hide MapTools, FlushTexts, ReleasedTools, RecordType, Accepted;
    if w.body.AssistantMessage? {
      MappedKinds(s.seenCalls, ReleasedTools(s.pendingTools, w.body.messageID, o.tools));
      if e in FlushTexts(s.pending, w.body.messageID, o.texts) {
        FlushedMessage(s.pending, w.body.messageID, o.texts, e);
      }
    } else if w.body.ToolPart? {
      MappedKinds(s.seenCalls, [w.body.tool]);
    }
  }

  /** A finish or an error is sent exactly for an update that says "completed" or "error", in any
      case and with any space around. */
  lemma {:induction false} KindsFollowStatus(sid: string, ws: seq<Wire>, os: seq<Order>, e: RenderEvent)
    requires |os| == |ws| && e in Output(sid, ws, os)
    ensures KindByStatus(e)
  {
    hide KindByStatus, Emit, Next;
    var n := |ws| - 1;
    if e in Output(sid, ws[..n], os[..n]) {
      KindsFollowStatus(sid, ws[..n], os[..n], e);
    } else {
      EmittedKinds(sid, StateAfter(sid, ws[..n]), ws[n], os[n], e);
    }
  }

  /** What a tool event calls its call: the first of call id, part id and tool that is there. */
  predicate Names(e: RenderEvent, name: string) {
    && e.Tool?
    && (e.callID != "" ==> name == e.callID)
    && (e.callID == "" && e.partID != "" ==> name == e.partID)
    && (e.callID == "" && e.partID == "" && e.toolName != "" ==> name == e.toolName)
    && (e.callID == "" && e.partID == "" && e.toolName == "" ==> name == "tool")
  }

  lemma NameIsKey(e: RenderEvent, name: string)
    requires e.Tool?
    ensures Names(e, name) <==> name == CallKey(e)
  {
    var two, one := [e.partID, e.toolName], [e.toolName];
    assert [e.callID, e.partID, e.toolName][1..] == two && two[1..] == one && one[1..] == [];
    assert FirstNonEmpty(one) == if e.toolName != "" then e.toolName else "tool";
    assert FirstNonEmpty(two) == if e.partID != "" then e.partID else FirstNonEmpty(one);
  }

  /** Any other event is a start exactly when no event of the same call, by name, came before it. */
  lemma {:induction false} StartIsFirst(sid: string, ws: seq<Wire>, os: seq<Order>, j: nat, name: string)
    requires AreRangeOrders(sid, ws, os) && j < |Output(sid, ws, os)| && Names(Output(sid, ws, os)[j], name)
    requires Output(sid, ws, os)[j].kind in {Start, Update}
    ensures var out := Output(sid, ws, os);
            out[j].kind == Start <==> forall i | 0 <= i < j :: !Names(out[i], name)
  {
    var out := Output(sid, ws, os);
    hide Output, Names, CallKey;
    ToolCallLifeCycle(sid, ws, os);
    NameIsKey(out[j], name);
    assert LegalNext(out[..j], out[j]);
    forall i | 0 <= i < j && out[i].Tool? ensures Names(out[i], name) <==> CallKey(out[i]) == CallKey(out[j]) {
      NameIsKey(out[i], name);
    }
    forall i | 0 <= i < j && Names(out[i], name) ensures out[i].Tool? && CallKey(out[i]) in Calls(out[..j]) {
      NamesTool(out[i], name);
      assert out[..j][i] in out[..j];
    }
    if out[j].kind == Update {
      var e :| e in out[..j] && e.Tool? && CallKey(e) == CallKey(out[j]);
      var i :| 0 <= i < j && out[..j][i] == e;
      assert Names(out[i], name);
    }
  }

  lemma NamesTool(e: RenderEvent, name: string)
    requires Names(e, name)
    ensures e.Tool?
  {
  }
}
