/** From the event stream to the posted message: the stream machine (bot/opencode_generator.go,
    lines 899-1147), the renderer (bot/message_renderer.go) and the reply loop (bot/client.go,
    lines 1006-1128) together, for an answer of one text part. */
module EndToEnd {
  import opened Text
  import opened RenderEvents
  import opened EventStream
  import opened StreamReplay
  import opened StreamBuffering
  import opened SampleStreams
  import opened Renderer
  import R = RenderReply

  /** The update is of part `p` of message `m`, or one that is never shown: of a message not
      among `shown`, such as the user's own; a delta that does not count, such as reasoning; or an
      empty snapshot. */
  predicate IsVisible(sid: string, s: State, w: Wire, shown: set<string>, m: string, p: string) {
    Concerns(sid, w) && w.body.TextPart? ==>
      var u := w.body.txt;
      if u.partID == p then u.messageID == m
      else
        || u.messageID !in shown
        || !Accepted(Get(RecordType(s.partTypes, u), u.partID), u)
        || (!u.isDelta && u.text == "")
  }

  ghost predicate OnlyPartVisible(sid: string, ws: seq<Wire>, shown: set<string>, m: string, p: string) {
    ws == [] ||
    var n := |ws| - 1;
    OnlyPartVisible(sid, ws[..n], shown, m, p) && IsVisible(sid, StateAfter(sid, ws[..n]), ws[n], shown, m, p)
  }

  /** Of the messages announced by the end of the stream, only `m` shows text, and only in part
      `p`, which no other message uses. */
  ghost predicate OneTextPart(sid: string, ws: seq<Wire>, m: string, p: string) {
    OnlyPartVisible(sid, ws, StateAfter(sid, ws).assistants, m, p)
  }

  /** A stream with the user's own text, before and after the answer is announced. */
  lemma {:induction false} UserTextMayCome()
    ensures OneTextPart("s", [Snapshot("user", "u", "hi")] + [Snapshot("a", "p", "x")] + [Announced("a")] +
                             [Snapshot("user", "u", "hi!")], "a", "p")
  {
    hide Next, Accepted, RecordType;
    var one := [Snapshot("user", "u", "hi")];
    var two := one + [Snapshot("a", "p", "x")];
    var three := two + [Announced("a")];
    var four := three + [Snapshot("user", "u", "hi!")];
    assert [] + one == one && one[..0] == [];
    AfterSnoc("s", [], one[0]);
    SnapshotStep(Initial, "user", "u", "hi");
    AfterSnoc("s", one, two[1]);
    SnapshotStep(StateAfter("s", one), "a", "p", "x");
    AfterSnoc("s", two, Announced("a"));
    AnnouncedOne(StateAfter("s", two), "a");
    AfterSnoc("s", three, four[3]);
    SnapshotStep(StateAfter("s", three), "user", "u", "hi!");
    assert StateAfter("s", four).assistants == {"a"};
    hide StateAfter, IsVisible;
    VisibleSnoc([], one[0], {"a"}, "a", "p");
    VisibleSnoc(one, two[1], {"a"}, "a", "p");
    VisibleSnoc(two, three[2], {"a"}, "a", "p");
    VisibleSnoc(three, four[3], {"a"}, "a", "p");
  }

  lemma AnnouncedOne(s: State, m: string)
    ensures Next("s", s, Announced(m)).assistants == s.assistants + {m}
  {
  }

  lemma VisibleSnoc(ws: seq<Wire>, w: Wire, shown: set<string>, m: string, p: string)
    requires OnlyPartVisible("s", ws, shown, m, p)
    requires w.body.TextPart? ==>
               if w.body.txt.partID == p then w.body.txt.messageID == m else w.body.txt.messageID !in shown
    ensures OnlyPartVisible("s", ws + [w], shown, m, p)
  {
    hide StateAfter;
    assert (ws + [w])[..|ws|] == ws;
  }

  predicate IsTextOf(e: RenderEvent, p: string) {
    e.TextSet? || e.TextDelta? ==> e.partID == p
  }

  lemma {:induction false} VisibleBelongs(sid: string, ws: seq<Wire>, shown: set<string>, m: string, p: string)
    requires OnlyPartVisible(sid, ws, shown, m, p)
    ensures BelongsTo(sid, ws, m, p)
  {
    hide Accepted, RecordType, StateAfter;
    if ws != [] {
      var n := |ws| - 1;
      VisibleBelongs(sid, ws[..n], shown, m, p);
      forall i | 0 <= i < |ws| ensures UsedBy(sid, ws[i], m, p) {
        if i < n { assert ws[..n][i] == ws[i] && UsedBy(sid, ws[..n][i], m, p); }
      }
    }
  }

  lemma {:induction false} VisibleBefore(sid: string, ws: seq<Wire>, shown: set<string>, m: string, p: string, n: nat)
    requires OnlyPartVisible(sid, ws, shown, m, p) && n <= |ws|
    ensures OnlyPartVisible(sid, ws[..n], shown, m, p)
    ensures n < |ws| ==> IsVisible(sid, StateAfter(sid, ws[..n]), ws[n], shown, m, p)
  {
    hide IsVisible, StateAfter;
    if n == |ws| {
      assert ws[..n] == ws;
    } else if n < |ws| - 1 {
      VisibleBefore(sid, ws[..|ws| - 1], shown, m, p, n);
      assert ws[..|ws| - 1][..n] == ws[..n];
    }
  }

  lemma {:induction false} AssistantsGrow(sid: string, ws: seq<Wire>, n: nat)
    requires n <= |ws|
    ensures StateAfter(sid, ws[..n]).assistants <= StateAfter(sid, ws).assistants
  {
    if n == |ws| {
      assert ws[..n] == ws;
    } else {
      AssistantsGrow(sid, ws[..|ws| - 1], n);
      assert ws[..|ws| - 1][..n] == ws[..n];
      MoreAssistants(sid, StateAfter(sid, ws[..|ws| - 1]), ws[|ws| - 1]);
    }
  }

  lemma MoreAssistants(sid: string, s: State, w: Wire)
    ensures s.assistants <= Next(sid, s, w).assistants
  {
    hide Trim, Accepted, RecordType;
  }

  /** No text of another part waits for a message that shows. */
  ghost predicate OthersHidden(s: State, shown: set<string>, p: string) {
    forall q :: q in s.pending && q != p && s.pending[q].text != "" ==> s.pending[q].messageID !in shown
  }

  lemma OthersHiddenStep(sid: string, s: State, w: Wire, shown: set<string>, m: string, p: string)
    requires OthersHidden(s, shown, p) && IsVisible(sid, s, w, shown, m, p)
    ensures OthersHidden(Next(sid, s, w), shown, p)
  {
    hide Accepted, RecordType, KeptTools, ReleasedCalls, MovedTexts;
  }

  lemma {:induction false} OthersHiddenHolds(sid: string, ws: seq<Wire>, shown: set<string>, m: string, p: string)
    requires OnlyPartVisible(sid, ws, shown, m, p)
    ensures OthersHidden(StateAfter(sid, ws), shown, p)
  {
    hide Next, IsVisible;
    if ws != [] {
      var n := |ws| - 1;
      OthersHiddenHolds(sid, ws[..n], shown, m, p);
      OthersHiddenStep(sid, StateAfter(sid, ws[..n]), ws[n], shown, m, p);
    }
  }

  lemma {:induction false} FlushedKeys(pending: map<string, Pending>, id: string, order: seq<string>, p: string)
    requires forall q :: q in pending && Releases(pending[q], id) ==> q == p
    ensures forall e :: e in FlushTexts(pending, id, order) ==> IsTextOf(e, p)
  {
    if order != [] { FlushedKeys(pending, id, order[..|order| - 1], p); }
  }

  lemma {:induction false} MappedKeys(seen: set<string>, us: seq<ToolUpdate>, p: string)
    ensures forall e :: e in MapTools(seen, us) ==> IsTextOf(e, p)
  {
    hide KindFor;
    if us != [] { MappedKeys(seen, us[..|us| - 1], p); }
  }

  lemma EmittedKeys(sid: string, s: State, w: Wire, o: Order, shown: set<string>, m: string, p: string)
    requires OthersHidden(s, shown, p) && IsVisible(sid, s, w, shown, m, p)
    requires Next(sid, s, w).assistants <= shown
    ensures forall e :: e in Emit(sid, s, w, o) ==> IsTextOf(e, p)
  {
    hide MapTools, FlushTexts, Accepted, RecordType, ReleasedTools, KeptTools, KeptTexts, MovedTexts, ReleasedCalls;
    MoreAssistants(sid, s, w);
    if w.body.AssistantMessage? {
      if Concerns(sid, w) { FlushedKeys(s.pending, w.body.messageID, o.texts, p); }
      MappedKeys(s.seenCalls, ReleasedTools(s.pendingTools, w.body.messageID, o.tools), p);
    } else if w.body.ToolPart? {
      MappedKeys(s.seenCalls, [w.body.tool], p);
    }
  }

  lemma {:induction false} OutputKeys(
    sid: string, ws: seq<Wire>, os: seq<Order>, shown: set<string>, m: string, p: string)
    requires |os| == |ws| && OnlyPartVisible(sid, ws, shown, m, p) && StateAfter(sid, ws).assistants <= shown
    ensures forall e :: e in Output(sid, ws, os) ==> IsTextOf(e, p)
  {
    hide Emit, Next, IsTextOf, IsVisible;
    if ws != [] {
      var n := |ws| - 1;
      AssistantsGrow(sid, ws, n);
      OutputKeys(sid, ws[..n], os[..n], shown, m, p);
      OthersHiddenHolds(sid, ws[..n], shown, m, p);
      EmittedKeys(sid, StateAfter(sid, ws[..n]), ws[n], os[n], shown, m, p);
    }
  }

  /** For one part, the renderer's answer is the replay of what it received. */
  lemma {:induction false} AnswerIsReplay(w: Wording, es: seq<RenderEvent>, p: string)
    requires forall e :: e in es ==> IsTextOf(e, p)
    ensures ViewAfter(w, es).answer == Replay("", es, p)
  {
    hide LineID, ChangeLine, NewLine;
    if es != [] {
      AnswerIsReplay(w, es[..|es| - 1], p);
      assert IsTextOf(es[|es| - 1], p);
    }
  }

  /** The reply for the tool lines of the events `es` and the answer `text`. */
  function Reply(y: R.Style, es: seq<RenderEvent>, text: string): string {
    Layout(Header(y.concise, ViewAfter(y.wording, es).tools), Trim(text))
  }

  lemma ShownAnswer(y: R.Style, es: seq<RenderEvent>)
    requires !HasPlaceholder(Rendered(y.concise, ViewAfter(y.wording, es)))
    ensures Trim(ViewAfter(y.wording, es).answer) != ""
    ensures Rendered(y.concise, ViewAfter(y.wording, es)) == Reply(y, es, ViewAfter(y.wording, es).answer)
  {
    hide Header, Trim, HasPlaceholder;
    PlaceholderShowsBlankAnswer(y.concise, ViewAfter(y.wording, es));
  }

  /** The text a receiver has of a part that belongs to one message: none before the message is
      announced, and then the fold of the part's updates behind what lags. */
  lemma {:induction false} SentText(sid: string, ws: seq<Wire>, os: seq<Order>, m: string, p: string)
    requires AreRangeOrders(sid, ws, os) && BelongsTo(sid, ws, m, p)
    ensures Replay("", Output(sid, ws, os), p) ==
            if m in StateAfter(sid, ws).assistants then Lag(sid, ws, p) + Fold(sid, ws, p).text else ""
  {
    hide Next, Emit, FoldStep, IsRangeOrder, Replay, Lag, Output, BelongsTo;
    ReplayIsLagAndText(sid, ws, os, p);
    FoldHolds(sid, ws, m, p);
    if m !in StateAfter(sid, ws).assistants { NoLagBefore(sid, ws, m, p); }
  }

  lemma {:induction false} NoLagBefore(sid: string, ws: seq<Wire>, m: string, p: string)
    requires BelongsTo(sid, ws, m, p) && m !in StateAfter(sid, ws).assistants
    ensures Lag(sid, ws, p) == ""
  {
    hide NextLag, Next, UsedBy;
    if ws != [] {
      var n := |ws| - 1;
      var s := StateAfter(sid, ws[..n]);
      MoreAssistants(sid, s, ws[n]);
      BelongsBefore(sid, ws, m, p, n);
      NoLagBefore(sid, ws[..n], m, p);
      FoldHolds(sid, ws[..n], m, p);
      assert UsedBy(sid, ws[n], m, p);
      NoLagStepBefore(sid, s, ws[n], m, p, Fold(sid, ws[..n], p));
    }
  }

  lemma NoLagStepBefore(sid: string, s: State, w: Wire, m: string, p: string, v: PartView)
    requires Holds(s, m, p, v) && UsedBy(sid, w, m, p) && m !in Next(sid, s, w).assistants
    ensures NextLag(sid, s, w, p, "") == ""
  {
    hide Trim, KeptTexts, MovedTexts, KeptTools, ReleasedCalls, RecordType, Accepted;
    MoreAssistants(sid, s, w);
  }

  /** End to end, for any stream of whose text only part `p` was sent: if the stream ends by
      itself, the loop returns true and no placeholder shows, then the message reads as the tool
      header and the trimmed text the machine has of the part, behind what lags. */
  lemma {:induction false} PostedTextIsPartText(
    sid: string, ws: seq<Wire>, os: seq<Order>, p: string,
    y: R.Style, start: int, inputs: seq<R.Input>, c: R.Clock)
    requires AreRangeOrders(sid, ws, os) && forall e :: e in Output(sid, ws, os) ==> IsTextOf(e, p)
    requires R.After(y, start, inputs).result == None
    requires R.Received(y, start, inputs) == Output(sid, ws, os)
    requires !HasPlaceholder(Rendered(y.concise, ViewAfter(y.wording, Output(sid, ws, os))))
    ensures var s := R.After(y, start, inputs + [R.Close(c, true)]);
            && s.result == Some(true)
            && R.Displayed(s) ==
               Reply(y, Output(sid, ws, os), Lag(sid, ws, p) + Get(StateAfter(sid, ws).partText, p))
            && Trim(Lag(sid, ws, p) + Get(StateAfter(sid, ws).partText, p)) != ""
  {
    hide Next, Emit, IsRangeOrder, HasPlaceholder, Rendered, Header, Trim, ApplyTo, Lag, Replay, Layout, Output,
         IsTextOf, R.After, R.Displayed, R.Received;
    var es := Output(sid, ws, os);
    R.CloseShowsEverything(y, start, inputs, c, true);
    AnswerIsReplay(y.wording, es, p);
    ShownAnswer(y, es);
    ReplayIsLagAndText(sid, ws, os, p);
  }

  /** So when of all announced messages only one shows text, and in one part, whatever the user
      wrote and whatever was dropped: the message reads as the tool header and the trimmed fold of
      the part's own updates behind what lags, just that fold when nothing does. */
  lemma {:induction false} PostedTextIsFold(
    sid: string, ws: seq<Wire>, os: seq<Order>, m: string, p: string,
    y: R.Style, start: int, inputs: seq<R.Input>, c: R.Clock)
    requires AreRangeOrders(sid, ws, os) && OneTextPart(sid, ws, m, p)
    requires R.After(y, start, inputs).result == None
    requires R.Received(y, start, inputs) == Output(sid, ws, os)
    requires !HasPlaceholder(Rendered(y.concise, ViewAfter(y.wording, Output(sid, ws, os))))
    ensures var s := R.After(y, start, inputs + [R.Close(c, true)]);
            && s.result == Some(true)
            && R.Displayed(s) == Reply(y, Output(sid, ws, os), Lag(sid, ws, p) + Fold(sid, ws, p).text)
            && (Lag(sid, ws, p) == "" ==> R.Displayed(s) == Reply(y, Output(sid, ws, os), Fold(sid, ws, p).text))
  {
    hide Next, Emit, FoldStep, IsRangeOrder, HasPlaceholder, Rendered, Header, Trim, ApplyTo, Lag, Replay, Reply,
         Output, IsTextOf, OnlyPartVisible, BelongsTo, R.After, R.Displayed, R.Received;
    var shown := StateAfter(sid, ws).assistants;
    OutputKeys(sid, ws, os, shown, m, p);
    PostedTextIsPartText(sid, ws, os, p, y, start, inputs, c);
    VisibleBelongs(sid, ws, shown, m, p);
    SentText(sid, ws, os, m, p);
    ReplayIsLagAndText(sid, ws, os, p);
    TrimOfEmpty();
    AppendNothing(Fold(sid, ws, p).text);
  }

  // ----- a cancelled stream -----

  /** What a receiver may have of the part at some point of the stream. */
  ghost predicate IsPrefixText(sid: string, ws: seq<Wire>, p: string, text: string) {
    exists j | 0 <= j <= |ws| :: text == Lag(sid, ws[..j], p) + Fold(sid, ws[..j], p).text
  }

  lemma IsPrefixTextAt(sid: string, ws: seq<Wire>, p: string, n: nat)
    requires n <= |ws|
    ensures IsPrefixText(sid, ws, p, Lag(sid, ws[..n], p) + Fold(sid, ws[..n], p).text)
    ensures IsPrefixText(sid, ws, p, "")
  {
    hide NextLag, FoldStep, StateAfter;
    assert ws[..0] == [];
    assert Lag(sid, ws[..0], p) + Fold(sid, ws[..0], p).text == "";
  }

  lemma {:induction false} PrefixText(sid: string, ws: seq<Wire>, os: seq<Order>, n: nat, m: string, p: string)
    requires n <= |ws| && AreRangeOrders(sid, ws[..n], os) && BelongsTo(sid, ws, m, p)
    ensures IsPrefixText(sid, ws, p, Replay("", Output(sid, ws[..n], os), p))
  {
    hide Next, Emit, FoldStep, IsRangeOrder, Replay, Lag, Output, IsPrefixText, BelongsTo;
    BelongsBefore(sid, ws, m, p, n);
    SentText(sid, ws[..n], os, m, p);
    IsPrefixTextAt(sid, ws, p, n);
  }

  /** A flush of the message cut short leaves the text as it was, or brings it up to date. */
  lemma {:induction false} CutFlushText(
    sid: string, ws: seq<Wire>, os: seq<Order>, n: nat, o: Order, m: string, p: string)
    requires n < |ws| && AreRangeOrders(sid, ws[..n], os) && BelongsTo(sid, ws, m, p)
    requires Concerns(sid, ws[n]) && ws[n].body.AssistantMessage?
    ensures var s, sent := StateAfter(sid, ws[..n]), Output(sid, ws[..n], os);
            IsPrefixText(sid, ws, p, Replay("", sent + Emit(sid, s, ws[n], o), p))
  {
    hide Next, FoldStep, IsRangeOrder, FlushTexts, MapTools, ReleasedTools, Replay, IsPrefixText, NextLag, Lag, Fold,
         BelongsTo;
    var s, sent, id := StateAfter(sid, ws[..n]), Output(sid, ws[..n], os), ws[n].body.messageID;
    var flushed, us := FlushTexts(s.pending, id, o.texts), ReleasedTools(s.pendingTools, id, o.tools);
    PrefixText(sid, ws, os, n, m, p);
    ReplayAppend("", sent, flushed + MapTools(s.seenCalls, us), p);
    ReplayAppend(Replay("", sent, p), flushed, MapTools(s.seenCalls, us), p);
    ReplayFlush(Replay("", sent, p), s.pending, id, o.texts, p);
    ReplayMapTools(Replay(Replay("", sent, p), flushed, p), s.seenCalls, us, p);
    if p in s.pending && Releases(s.pending[p], id) {
      ReleasedIsUpToDate(sid, ws, n, m, p);
      IsPrefixTextAt(sid, ws, p, n + 1);
    }
  }

  /** After the announcement that releases the part, the released text is all there is. */
  lemma {:induction false} ReleasedIsUpToDate(sid: string, ws: seq<Wire>, n: nat, m: string, p: string)
    requires n < |ws| && BelongsTo(sid, ws, m, p) && Concerns(sid, ws[n]) && ws[n].body.AssistantMessage?
    requires var s := StateAfter(sid, ws[..n]);
             p in s.pending && Releases(s.pending[p], ws[n].body.messageID)
    ensures var s := StateAfter(sid, ws[..n]);
            Lag(sid, ws[..n + 1], p) + Fold(sid, ws[..n + 1], p).text == s.pending[p].text
  {
    hide BelongsTo;
    BelongsBefore(sid, ws, m, p, n);
    FoldHolds(sid, ws[..n], m, p);
    assert ws[..n + 1] == ws[..n] + [ws[n]] && ws[..n + 1][..n] == ws[..n];
    LagSnoc(sid, ws[..n], ws[n], p);
    FoldSkips(sid, Fold(sid, ws[..n], p), ws[n], p);
    hide Next, FoldStep;
    assert NextLag(sid, StateAfter(sid, ws[..n]), ws[n], p, Lag(sid, ws[..n], p)) == "";
  }

  lemma {:induction false} CancelledText(
    sid: string, ws: seq<Wire>, os: seq<Order>, n: nat, out: seq<RenderEvent>, m: string, p: string)
    requires IsCancelledRun(sid, ws, os, n, out) && OneTextPart(sid, ws, m, p)
    ensures IsPrefixText(sid, ws, p, Replay("", out, p)) && forall e :: e in out ==> IsTextOf(e, p)
  {
    hide Next, FoldStep, IsRangeOrder, Replay, IsTextOf, IsVisible, IsPrefixText, FlushTexts, MapTools, BelongsTo,
         ReleasedTools, EmitText, IsPartialOrder, OnlyPartVisible;
    var shown, s, sent := StateAfter(sid, ws).assistants, StateAfter(sid, ws[..n]), Output(sid, ws[..n], os[..n]);
    AssistantsGrow(sid, ws, n);
    VisibleBefore(sid, ws, shown, m, p, n);
    VisibleBelongs(sid, ws, shown, m, p);
    PrefixText(sid, ws, os[..n], n, m, p);
    OutputKeys(sid, ws[..n], os[..n], shown, m, p);
    if out != sent {
      var w := ws[n];
      AssistantsGrow(sid, ws, n + 1);
      assert ws[..n + 1] == ws[..n] + [w];
      AfterSnoc(sid, ws[..n], w);
      OthersHiddenHolds(sid, ws[..n], shown, m, p);
      EmittedKeys(sid, s, w, os[n], shown, m, p);
      if Concerns(sid, w) && w.body.AssistantMessage? {
        CutFlushText(sid, ws, os[..n], n, os[n], m, p);
      } else {
        var o := Order(AnyOrder(s.pending.Keys), AnyOrder(s.pendingTools.Keys));
        assert IsRangeOrder(s, o) by { RangeOrder(s); }
        RunStep(sid, ws, os[..n], o, n, s, sent);
        PrefixText(sid, ws, os[..n] + [o], n + 1, m, p);
      }
    }
  }

  lemma RangeOrder(s: State)
    ensures IsRangeOrder(s, Order(AnyOrder(s.pending.Keys), AnyOrder(s.pendingTools.Keys)))
  {
  }

  /** If the stream is cancelled at any point instead, what is posted is the header over the
      trimmed text of the part at some point of the stream. */
  lemma {:induction false} CancelledPostIsPrefix(
    sid: string, ws: seq<Wire>, os: seq<Order>, n: nat, out: seq<RenderEvent>, m: string, p: string,
    y: R.Style, start: int, inputs: seq<R.Input>, c: R.Clock)
    requires IsCancelledRun(sid, ws, os, n, out) && OneTextPart(sid, ws, m, p)
    requires R.After(y, start, inputs).result == None && R.Received(y, start, inputs) == out
    requires !HasPlaceholder(Rendered(y.concise, ViewAfter(y.wording, out)))
    ensures var s := R.After(y, start, inputs + [R.Close(c, true)]);
            s.result == Some(true) &&
            exists j | 0 <= j <= |ws| ::
              R.Displayed(s) == Reply(y, out, Lag(sid, ws[..j], p) + Fold(sid, ws[..j], p).text)
  {
    hide IsCancelledRun, OneTextPart, FoldStep, HasPlaceholder, Rendered, Header, Trim, ApplyTo, Replay, Lag;
    R.CloseShowsEverything(y, start, inputs, c, true);
    CancelledText(sid, ws, os, n, out, m, p);
    AnswerIsReplay(y.wording, out, p);
    ShownAnswer(y, out);
    var j :| 0 <= j <= |ws| && Replay("", out, p) == Lag(sid, ws[..j], p) + Fold(sid, ws[..j], p).text;
  }

  lemma TrimOfEmpty()
    ensures Trim("") == ""
  {
  }
}
