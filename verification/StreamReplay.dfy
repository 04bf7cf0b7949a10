/** Replaying what the event-stream machine emits (bot/opencode_generator.go, lines 988-1145).

    A receiver that lets `text_set` replace and `text_delta` append ends up with the machine's
    own text of a part, unless an empty snapshot wiped text out: that sends nothing. */
module StreamReplay {
  import opened Text
  import opened RenderEvents
  import opened EventStream
  import opened SampleStreams

  function ReplayEvent(text: string, e: RenderEvent, p: string): string {
    match e
    case TextSet(_, q, t) => if q == p then t else text
    case TextDelta(_, q, t) => if q == p then text + t else text
    case _ => text
  }

  /** The text of part `p` for a receiver that starts from `text`. */
  function Replay(text: string, out: seq<RenderEvent>, p: string): string {
    if out == [] then text
    else ReplayEvent(Replay(text, out[..|out| - 1], p), out[|out| - 1], p)
  }

  lemma {:induction false} ReplayAppend(text: string, a: seq<RenderEvent>, b: seq<RenderEvent>, p: string)
    ensures Replay(text, a + b, p) == Replay(Replay(text, a, p), b, p)
  {
    if b == [] {
      AppendNothing(a);
    } else {
      hide Replay, ReplayEvent;
      var before, e := b[..|b| - 1], b[|b| - 1];
      SplitLast(a, b);
      ReplayAppend(text, a, before, p);
      ReplaySnoc(text, a + before, e, p);
      ReplaySnoc(Replay(text, a, p), before, e, p);
    }
  }

  lemma ReplaySnoc(text: string, out: seq<RenderEvent>, e: RenderEvent, p: string)
    ensures Replay(text, out + [e], p) == ReplayEvent(Replay(text, out, p), e, p)
  {
    assert (out + [e])[..|out|] == out;
  }

  lemma {:induction false} ReplayMapTools(text: string, seen: set<string>, us: seq<ToolUpdate>, p: string)
    ensures Replay(text, MapTools(seen, us), p) == text
  {
    if us != [] {
      var before := us[..|us| - 1];
      ReplayMapTools(text, seen, before, p);
      var out := MapTools(seen, us);
      assert out[..|out| - 1] == MapTools(seen, before);
    }
  }

  lemma {:induction false} ReplayFlush(
    text: string, pending: map<string, Pending>, id: string, order: seq<string>, p: string)
    ensures Replay(text, FlushTexts(pending, id, order), p) ==
            if p in order && p in pending && Releases(pending[p], id) then pending[p].text else text
  {
    if order != [] {
      hide Replay, FlushTexts;
      var before, k := order[..|order| - 1], order[|order| - 1];
      assert order == before + [k];
      ReplayFlush(text, pending, id, before, p);
      FlushTextsStep(pending, id, before, k);
      if k in pending && Releases(pending[k], id) {
        ReplaySnoc(text, FlushTexts(pending, id, before), TextSet(id, k, pending[k].text), p);
      } else {
        assert FlushTexts(pending, id, before) + [] == FlushTexts(pending, id, before);
      }
    }
  }

  function PartOf(w: Wire): string {
    if w.body.TextPart? then w.body.txt.partID else ""
  }

  /** An empty snapshot of an announced part that had text. */
  predicate Wipes(sid: string, s: State, w: Wire) {
    && Concerns(sid, w)
    && w.body.TextPart?
    && !w.body.txt.isDelta
    && w.body.txt.text == ""
    && w.body.txt.messageID in s.assistants
    && Get(s.partText, w.body.txt.partID) != ""
  }

  predicate NoWipe(sid: string, ws: seq<Wire>) {
    ws == [] ||
    var n := |ws| - 1;
    NoWipe(sid, ws[..n]) && !Wipes(sid, StateAfter(sid, ws[..n]), ws[n])
  }

  /** The event makes the machine send a `text_set` of part `p`. */
  predicate Sets(sid: string, s: State, w: Wire, p: string) {
    Concerns(sid, w) &&
    match w.body
    case AssistantMessage(id) => p in s.pending && Releases(s.pending[p], id)
    case TextPart(u) =>
      && u.partID == p && !u.isDelta && u.text != "" && u.messageID in s.assistants
      && (Get(s.partText, p) == "" || !(Get(s.partText, p) <= u.text))
    case _ => false
  }

  function NextLag(sid: string, s: State, w: Wire, p: string, lag: string): string {
    if Wipes(sid, s, w) && PartOf(w) == p then lag + Get(s.partText, p)
    else if Sets(sid, s, w, p) then ""
    else lag
  }

  /** The text a receiver keeps in front of the machine's own: what snapshots wiped since the
      last `text_set` of the part. */
  function Lag(sid: string, ws: seq<Wire>, p: string): string {
    if ws == [] then ""
    else
      var before, w := ws[..|ws| - 1], ws[|ws| - 1];
      NextLag(sid, StateAfter(sid, before), w, p, Lag(sid, before, p))
  }

  lemma LagText(sid: string, s: State, w: Wire, p: string, lag: string)
    requires Concerns(sid, w) && w.body.TextPart?
    ensures Replay(lag + Get(s.partText, p), EmitText(s, w.body.txt), p) ==
            NextLag(sid, s, w, p, lag) + Get(NextText(s, w.body.txt).partText, p)
  {
    var u, text := w.body.txt, Get(s.partText, p);
    Assoc(lag, text, "");
    if u.isDelta {
      LagDelta(s, u, p, lag);
    } else if u.messageID !in s.assistants {
      SnapshotNext(s, u);
      ReplayNothing(lag + text, p);
    } else {
      LagSnapshot(sid, s, w, p, lag);
    }
  }

  lemma ReplayNothing(text: string, p: string)
    ensures Replay(text, [], p) == text
  {
  }

  lemma ReplayOne(text: string, e: RenderEvent, p: string)
    ensures Replay(text, [e], p) == ReplayEvent(text, e, p)
  {
    assert [e][..0] == [];
  }

  lemma LagDelta(s: State, u: TextUpdate, p: string, lag: string)
    requires u.isDelta
    ensures Replay(lag + Get(s.partText, p), EmitText(s, u), p) == lag + Get(NextText(s, u).partText, p)
  {
    hide Trim, Replay, Accepted;
    var text := Get(s.partText, p);
    ReplayNothing(lag + text, p);
    ReplayOne(lag + text, TextDelta(u.messageID, u.partID, u.text), p);
    Assoc(lag, text, u.text);
    assert text + "" == text;
  }

  lemma LagSnapshot(sid: string, s: State, w: Wire, p: string, lag: string)
    requires Concerns(sid, w) && w.body.TextPart? && !w.body.txt.isDelta && w.body.txt.messageID in s.assistants
    ensures Replay(lag + Get(s.partText, p), EmitText(s, w.body.txt), p) ==
            NextLag(sid, s, w, p, lag) + Get(NextText(s, w.body.txt).partText, p)
  {
    hide Replay, NextText, EmitText, Wipes;
    var u, text := w.body.txt, Get(s.partText, p);
    var previous := Get(s.partText, u.partID);
    SnapshotNext(s, u);
    SnapshotEmit(s, u);
    AppendNothing(lag + text);
    AppendNothing(lag);
    AppendNothing(u.text);
    ReplayNothing(lag + text, p);
    WipesPart(sid, s, w, p);
    if u.text == "" {
    } else if previous == "" || !(previous <= u.text) {
      ReplayOne(lag + text, TextSet(u.messageID, u.partID, u.text), p);
    } else if previous != u.text {
      var rest := u.text[|previous|..];
      ReplayOne(lag + text, TextDelta(u.messageID, u.partID, rest), p);
      Assoc(lag, previous, rest);
      Rest(previous, u.text);
    }
  }

  lemma Rest(a: string, b: string)
    requires a <= b
    ensures a + b[|a|..] == b
  {
  }

  lemma SnapshotEmit(s: State, u: TextUpdate)
    requires !u.isDelta && u.messageID in s.assistants
    ensures var previous := Get(s.partText, u.partID);
            EmitText(s, u) ==
            if u.text == "" || previous == u.text then []
            else if previous == "" || !(previous <= u.text) then [TextSet(u.messageID, u.partID, u.text)]
            else [TextDelta(u.messageID, u.partID, u.text[|previous|..])]
  {
    hide Trim, RecordType;
  }

  lemma WipesPart(sid: string, s: State, w: Wire, p: string)
    requires Concerns(sid, w) && w.body.TextPart? && !w.body.txt.isDelta && w.body.txt.messageID in s.assistants
    ensures Wipes(sid, s, w) && PartOf(w) == p <==>
            w.body.txt.partID == p && w.body.txt.text == "" && Get(s.partText, p) != ""
  {
  }

  lemma LagAnnounce(sid: string, s: State, w: Wire, o: Order, p: string, lag: string)
    requires Concerns(sid, w) && w.body.AssistantMessage? && IsRangeOrder(s, o)
    ensures var id := w.body.messageID;
            Replay(lag + Get(s.partText, p), FlushTexts(s.pending, id, o.texts) +
                     MapTools(s.seenCalls, ReleasedTools(s.pendingTools, id, o.tools)), p) ==
            NextLag(sid, s, w, p, lag) + Get(Announce(s, id).partText, p)
  {
    hide MapTools, ReleasedTools, FlushTexts, Replay, IsOrder;
    var id, text := w.body.messageID, lag + Get(s.partText, p);
    var flushed := FlushTexts(s.pending, id, o.texts);
    var tools := ReleasedTools(s.pendingTools, id, o.tools);
    ReplayAppend(text, flushed, MapTools(s.seenCalls, tools), p);
    ReplayFlush(text, s.pending, id, o.texts, p);
    OrderMembers(o.texts, s.pending.Keys);
    ReplayMapTools(Replay(text, flushed, p), s.seenCalls, tools, p);
  }

  lemma {:induction false} LagStep(sid: string, s: State, w: Wire, o: Order, p: string, lag: string)
    requires IsRangeOrder(s, o)
    ensures Replay(lag + Get(s.partText, p), Emit(sid, s, w, o), p) ==
            NextLag(sid, s, w, p, lag) + Get(Next(sid, s, w).partText, p)
  {
    hide MapTools, ReleasedTools, FlushTexts, Announce, NextText, EmitText, IsRangeOrder, NextLag;
    NoLagStep(sid, s, w, p, lag);
    if Concerns(sid, w) {
      match w.body {
        case AssistantMessage(id) => LagAnnounce(sid, s, w, o, p, lag);
        case ToolPart(u) => ReplayMapTools(lag + Get(s.partText, p), s.seenCalls, [u], p);
        case TextPart(u) => LagText(sid, s, w, p, lag);
        case SessionIdle => assert [Done][..0] == [];
        case _ =>
      }
    }
  }

  lemma NoLagStep(sid: string, s: State, w: Wire, p: string, lag: string)
    ensures !(Concerns(sid, w) && (w.body.AssistantMessage? || w.body.TextPart?)) ==> NextLag(sid, s, w, p, lag) == lag
  {
  }

  /** In every run a receiver has, of each part, the machine's text behind what lags: so it has
      exactly that text when and only when nothing lags. */
  lemma {:induction false} ReplayIsLagAndText(sid: string, ws: seq<Wire>, os: seq<Order>, p: string)
    requires AreRangeOrders(sid, ws, os)
    ensures Replay("", Output(sid, ws, os), p) == Lag(sid, ws, p) + Get(StateAfter(sid, ws).partText, p)
    ensures Replay("", Output(sid, ws, os), p) == Get(StateAfter(sid, ws).partText, p) <==> Lag(sid, ws, p) == ""
  {
    hide Next, Emit, IsRangeOrder, NextLag;
    if ws != [] {
      var n := |ws| - 1;
      var s, out := StateAfter(sid, ws[..n]), Output(sid, ws[..n], os[..n]);
      ReplayIsLagAndText(sid, ws[..n], os[..n], p);
      ReplayAppend("", out, Emit(sid, s, ws[n], os[n]), p);
      LagStep(sid, s, ws[n], os[n], p, Lag(sid, ws[..n], p));
    }
  }

  lemma {:induction false} NoWipeNoLag(sid: string, ws: seq<Wire>, p: string)
    requires NoWipe(sid, ws)
    ensures Lag(sid, ws, p) == ""
  {
    hide Next, Wipes, Sets;
    if ws != [] { NoWipeNoLag(sid, ws[..|ws| - 1], p); }
  }

  lemma {:induction false} ReplayStep(sid: string, s: State, w: Wire, o: Order, p: string)
    requires IsRangeOrder(s, o)
    ensures Replay(Get(s.partText, p), Emit(sid, s, w, o), p) == Get(Next(sid, s, w).partText, p) <==>
            !(Wipes(sid, s, w) && PartOf(w) == p)
  {
    hide Next, Emit, IsRangeOrder, Replay;
    var text := Get(s.partText, p);
    LagStep(sid, s, w, o, p, "");
    assert "" + text == text;
    assert Wipes(sid, s, w) && PartOf(w) == p ==> text != "";
    hide Wipes, Sets;
    var lag, text' := NextLag(sid, s, w, p, ""), Get(Next(sid, s, w).partText, p);
    assert |lag + text'| == |lag| + |text'|;
    assert "" + text' == text';
  }

  /** After every event of the run, replay gives the machine's text of every part. */
  ghost predicate Faithful(sid: string, ws: seq<Wire>, os: seq<Order>)
    requires |os| == |ws|
  {
    && (forall p :: Replay("", Output(sid, ws, os), p) == Get(StateAfter(sid, ws).partText, p))
    && (ws == [] || Faithful(sid, ws[..|ws| - 1], os[..|ws| - 1]))
  }

  /** The emitted events reconstruct every part after every step exactly when no empty
      snapshot wiped text out. */
  lemma {:induction false} ReplayReconstructsIffNoWipe(sid: string, ws: seq<Wire>, os: seq<Order>)
    requires AreRangeOrders(sid, ws, os)
    ensures Faithful(sid, ws, os) <==> NoWipe(sid, ws)
  {
    hide Next, Emit, IsRangeOrder, Wipes;
    if ws != [] {
      var n := |ws| - 1;
      var s, out := StateAfter(sid, ws[..n]), Output(sid, ws[..n], os[..n]);
      ReplayReconstructsIffNoWipe(sid, ws[..n], os[..n]);
      if NoWipe(sid, ws[..n]) {
        forall p
          ensures Replay("", Output(sid, ws, os), p) == Get(StateAfter(sid, ws).partText, p) <==>
                  !(Wipes(sid, s, ws[n]) && PartOf(ws[n]) == p)
        {
          ReplayAppend("", out, Emit(sid, s, ws[n], os[n]), p);
          ReplayStep(sid, s, ws[n], os[n], p);
        }
        var p := PartOf(ws[n]);
        assert Replay("", Output(sid, ws, os), p) == Get(StateAfter(sid, ws).partText, p) <==> !Wipes(sid, s, ws[n]);
      }
    }
  }

  lemma SnapshotNext(s: State, u: TextUpdate)
    requires !u.isDelta
    ensures NextText(s, u).assistants == s.assistants
    ensures u.messageID in s.assistants ==>
              NextText(s, u).partText == s.partText[u.partID := u.text] && NextText(s, u).pending == s.pending
    ensures u.messageID !in s.assistants ==>
              && NextText(s, u).pending == s.pending[u.partID := Pending(u.messageID, u.text)]
              && NextText(s, u).partText == s.partText
  {
    hide Trim, RecordType;
  }

  /** A snapshot heals whatever was dropped while the part's type was unknown, unless something
      still lags after it. */
  lemma {:induction false} SnapshotHeals(sid: string, ws: seq<Wire>, os: seq<Order>, w: Wire, o: Order)
    requires AreRangeOrders(sid, ws + [w], os + [o])
    requires Concerns(sid, w) && w.body.TextPart? && !w.body.txt.isDelta
    requires w.body.txt.messageID in StateAfter(sid, ws).assistants
    ensures Replay("", Output(sid, ws + [w], os + [o]), w.body.txt.partID) == w.body.txt.text <==>
            Lag(sid, ws + [w], w.body.txt.partID) == ""
  {
    hide AreRangeOrders, Output, Replay, Lag, NextText;
    SnapshotNext(StateAfter(sid, ws), w.body.txt);
    ReplayIsLagAndText(sid, ws + [w], os + [o], w.body.txt.partID);
    assert (ws + [w])[..|ws|] == ws;
  }

  // ----- a run that wipes -----

  lemma LagSnoc(sid: string, ws: seq<Wire>, w: Wire, p: string)
    ensures Lag(sid, ws + [w], p) == NextLag(sid, StateAfter(sid, ws), w, p, Lag(sid, ws, p))
  {
    hide Next, NextLag;
    assert (ws + [w])[..|ws|] == ws;
  }

  /** An announced message "a" with a part "p" that reads "x". */
  lemma OneSnapshot()
    ensures StateAfter("s", [Announced("a"), Snapshot("a", "p", "x")]) ==
            State({"a"}, map["p" := "x"], map["p" := "text"], map[], map[], {})
    ensures Lag("s", [Announced("a"), Snapshot("a", "p", "x")], "p") == ""
  {
    AfterSnoc("s", [], Announced("a"));
    LagSnoc("s", [], Announced("a"), "p");
    assert [] + [Announced("a")] == [Announced("a")];
    assert Announce(Initial, "a") == State({"a"}, map[], map[], map[], map[], {});
    AfterSnoc("s", [Announced("a")], Snapshot("a", "p", "x"));
    LagSnoc("s", [Announced("a")], Snapshot("a", "p", "x"), "p");
    SnapshotStep(State({"a"}, map[], map[], map[], map[], {}), "a", "p", "x");
    assert [Announced("a")] + [Snapshot("a", "p", "x")] == [Announced("a"), Snapshot("a", "p", "x")];
  }

  const Wiped := [Announced("a"), Snapshot("a", "p", "x"), Snapshot("a", "p", "")]

  lemma WipedLags()
    ensures StateAfter("s", Wiped) == State({"a"}, map["p" := ""], map["p" := "text"], map[], map[], {})
    ensures !NoWipe("s", Wiped) && Lag("s", Wiped, "p") == "x"
  {
    var before, w := [Announced("a"), Snapshot("a", "p", "x")], Snapshot("a", "p", "");
    OneSnapshot();
    assert Wiped == before + [w] && Wiped[..2] == before;
    AfterSnoc("s", before, w);
    LagSnoc("s", before, w, "p");
    SnapshotStep(StateAfter("s", before), "a", "p", "");
  }

  /** The condition is needed: an empty snapshot clears "x" without a word, in any order of the
      ranges. */
  lemma {:induction false} WipedTextStays()
    ensures exists os :: AreRangeOrders("s", Wiped, os)
    ensures forall os :: AreRangeOrders("s", Wiped, os) ==> !Faithful("s", Wiped, os)
  {
    hide Faithful, StateAfter, NoWipe, IsRangeOrder;
    WipedLags();
    var run := SomeOrders("s", Wiped);
    forall os | AreRangeOrders("s", Wiped, os) ensures !Faithful("s", Wiped, os) {
      ReplayReconstructsIffNoWipe("s", Wiped, os);
    }
  }
}
