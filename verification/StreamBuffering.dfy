/** Buffering in the event-stream machine is transparent (bot/opencode_generator.go, lines 988-1145):
    what a part has accumulated depends on that part's own updates alone, unless an event splits
    the part between two messages. */
module StreamBuffering {
  import opened Text
  import opened EventStream
  import opened SampleStreams

  /** What the updates of one part amount to when nobody asks whose message it is: its recorded
      type, its text, and the message of the last update that counted. */
  datatype PartView = PartView(knownType: string, text: string, last: Option<string>)

  function Fold(sid: string, ws: seq<Wire>, p: string): PartView {
    if ws == [] then PartView("", "", None)
    else FoldStep(sid, Fold(sid, ws[..|ws| - 1], p), ws[|ws| - 1], p)
  }

  function KnownType(v: PartView, u: TextUpdate): string {
    if u.partID != "" && u.partType != "" then u.partType else v.knownType
  }

  function FoldStep(sid: string, v: PartView, w: Wire, p: string): PartView {
    if !Concerns(sid, w) then v
    else match w.body
      case ToolPart(u) => if u.partID == p && p != "" then v.(knownType := "tool") else v
      case TextPart(u) =>
        if u.partID != p then v
        else if !Accepted(KnownType(v, u), u) then v.(knownType := KnownType(v, u))
        else PartView(KnownType(v, u), Extend(v.text, u), Some(u.messageID))
      case _ => v
  }

  /** The text message `m` has accumulated of a part, wherever the machine keeps it. */
  function Accumulated(s: State, m: string, p: string): string {
    if m in s.assistants then Get(s.partText, p) else PendingText(s, p)
  }

  /** The text accumulated by the message that wrote the part last. */
  function Held(s: State, p: string, v: PartView): string {
    if v.last.None? then "" else Accumulated(s, v.last.value, p)
  }

  // ----- when a part is split -----

  /** The event splits part `p` between two messages: a delta extends another text than the one
      held; a waiting text replaces another one of the announced message that wrote last; or the
      message that wrote last is announced while only an empty text of it waits, and so takes over
      the text of another. */
  predicate Splits(sid: string, s: State, w: Wire, p: string, v: PartView) {
    Concerns(sid, w) &&
    match w.body
    case TextPart(u) =>
      u.partID == p && u.isDelta && Accepted(KnownType(v, u), u) && Accumulated(s, u.messageID, p) != Held(s, p, v)
    case AssistantMessage(id) =>
      v.last.Some? &&
      if v.last.value in s.assistants then
        p in s.pending && Releases(s.pending[p], id) && s.pending[p].text != Get(s.partText, p)
      else
        v.last.value == id && PendingText(s, p) == "" && Get(s.partText, p) != ""
    case _ => false
  }

  ghost predicate NeverSplit(sid: string, ws: seq<Wire>, p: string) {
    ws == [] ||
    var n := |ws| - 1;
    NeverSplit(sid, ws[..n], p) && !Splits(sid, StateAfter(sid, ws[..n]), ws[n], p, Fold(sid, ws[..n], p))
  }

  /** After every event the text held is the plain fold of the part's own updates. */
  ghost predicate Transparent(sid: string, ws: seq<Wire>, p: string) {
    && Held(StateAfter(sid, ws), p, Fold(sid, ws, p)) == Fold(sid, ws, p).text
    && (ws == [] || Transparent(sid, ws[..|ws| - 1], p))
  }

  /** In every run: the type is recorded, and the message that wrote last waits with the part
      until it is announced. */
  predicate Tracks(s: State, p: string, v: PartView) {
    && Get(s.partTypes, p) == v.knownType
    && (v.last.None? ==> p !in s.pending && Get(s.partText, p) == "" && v.text == "")
    && (v.last.Some? && v.last.value !in s.assistants ==> p in s.pending && s.pending[p].messageID == v.last.value)
  }

  /** An event keeps the text held the fold exactly when it does not split the part. */
  predicate StepFits(sid: string, s: State, w: Wire, p: string, v: PartView) {
    var s', v' := Next(sid, s, w), FoldStep(sid, v, w, p);
    && Tracks(s', p, v')
    && (Held(s, p, v) == v.text ==> (Held(s', p, v') == v'.text <==> !Splits(sid, s, w, p, v)))
  }

  lemma AnnounceFits(sid: string, s: State, w: Wire, p: string, v: PartView)
    requires Tracks(s, p, v) && Concerns(sid, w) && w.body.AssistantMessage?
    ensures StepFits(sid, s, w, p, v)
  {
    hide KeptTools, ReleasedCalls;
  }

  lemma ToolFits(sid: string, s: State, w: Wire, p: string, v: PartView)
    requires Tracks(s, p, v) && Concerns(sid, w) && w.body.ToolPart?
    ensures StepFits(sid, s, w, p, v)
  {
  }

  lemma OtherTextFits(sid: string, s: State, w: Wire, p: string, v: PartView)
    requires Tracks(s, p, v) && Concerns(sid, w) && w.body.TextPart? && w.body.txt.partID != p
    ensures StepFits(sid, s, w, p, v)
  {
    hide Trim;
  }

  lemma SameLength(a: string, b: string, t: string)
    ensures a + t == b + t <==> a == b
  {
    if a + t == b + t {
      assert |a| == |b|;
      assert a == (a + t)[..|a|] && b == (b + t)[..|b|];
    }
  }

  lemma OwnTextFits(sid: string, s: State, w: Wire, p: string, v: PartView)
    requires Tracks(s, p, v) && Concerns(sid, w) && w.body.TextPart? && w.body.txt.partID == p
    ensures StepFits(sid, s, w, p, v)
  {
    hide Trim, Accepted;
    var u := w.body.txt;
    assert Get(RecordType(s.partTypes, u), p) == KnownType(v, u);
    SameLength(Accumulated(s, u.messageID, p), v.text, u.text);
    assert !u.isDelta ==> Accepted(KnownType(v, u), u) by { SnapshotCounts(KnownType(v, u), u); }
  }

  lemma SnapshotCounts(knownType: string, u: TextUpdate)
    ensures !u.isDelta ==> Accepted(knownType, u)
  {
  }

  lemma SplitStep(sid: string, s: State, w: Wire, p: string, v: PartView)
    requires Tracks(s, p, v)
    ensures StepFits(sid, s, w, p, v)
  {
    hide Tracks;
    if Concerns(sid, w) {
      hide StepFits;
      match w.body {
        case AssistantMessage(id) => AnnounceFits(sid, s, w, p, v);
        case ToolPart(u) => ToolFits(sid, s, w, p, v);
        case TextPart(u) => if u.partID == p { OwnTextFits(sid, s, w, p, v); } else { OtherTextFits(sid, s, w, p, v); }
        case _ => NoneFits(sid, s, w, p, v);
      }
    }
  }

  lemma NoneFits(sid: string, s: State, w: Wire, p: string, v: PartView)
    requires Tracks(s, p, v) && (w.body.SessionIdle? || w.body.PermissionAsked? || w.body.Ignored?)
    ensures StepFits(sid, s, w, p, v)
  {
  }

  lemma {:induction false} TracksHolds(sid: string, ws: seq<Wire>, p: string)
    ensures Tracks(StateAfter(sid, ws), p, Fold(sid, ws, p))
  {
    hide Next, FoldStep, Held, Splits;
    if ws != [] {
      var n := |ws| - 1;
      TracksHolds(sid, ws[..n], p);
      SplitStep(sid, StateAfter(sid, ws[..n]), ws[n], p, Fold(sid, ws[..n], p));
    }
  }

  /** Buffering is transparent exactly when no event splits the part: for every stream and part,
      whenever announcements come and however often they repeat. */
  lemma {:induction false} TransparentIffNeverSplit(sid: string, ws: seq<Wire>, p: string)
    ensures Transparent(sid, ws, p) <==> NeverSplit(sid, ws, p)
    ensures Get(StateAfter(sid, ws).partTypes, p) == Fold(sid, ws, p).knownType
  {
    TracksHolds(sid, ws, p);
    hide Next, FoldStep, Splits, Held;
    if ws == [] {
      NothingHeld(p);
    } else {
      var n := |ws| - 1;
      TransparentIffNeverSplit(sid, ws[..n], p);
      TracksHolds(sid, ws[..n], p);
      SplitStep(sid, StateAfter(sid, ws[..n]), ws[n], p, Fold(sid, ws[..n], p));
    }
  }

  lemma NothingHeld(p: string)
    ensures Held(Initial, p, PartView("", "", None)) == ""
  {
  }

  // ----- parts of one message -----

  /** Message `m` is the only one to use part `p`. */
  predicate UsedBy(sid: string, w: Wire, m: string, p: string) {
    Concerns(sid, w) && w.body.TextPart? && w.body.txt.partID == p ==> w.body.txt.messageID == m
  }

  ghost predicate BelongsTo(sid: string, ws: seq<Wire>, m: string, p: string) {
    forall i | 0 <= i < |ws| :: UsedBy(sid, ws[i], m, p)
  }

  lemma BelongsBefore(sid: string, ws: seq<Wire>, m: string, p: string, n: nat)
    requires BelongsTo(sid, ws, m, p) && n <= |ws|
    ensures BelongsTo(sid, ws[..n], m, p)
  {
    hide UsedBy;
    forall i | 0 <= i < n ensures UsedBy(sid, ws[..n][i], m, p) { assert UsedBy(sid, ws[i], m, p); }
  }

  /** The part is in one of the two maps only, and there with its own message. */
  predicate Own(s: State, m: string, p: string, v: PartView) {
    && (if m in s.assistants then PendingText(s, p) == "" else Get(s.partText, p) == "")
    && (p in s.pending ==> s.pending[p].messageID == m)
    && (v.last.Some? ==> v.last.value == m)
  }

  lemma OwnText(s: State, u: TextUpdate, m: string, p: string, v: PartView)
    requires Own(s, m, p, v) && (u.partID == p ==> u.messageID == m)
    ensures Own(NextText(s, u), m, p, v)
  {
    hide Trim;
  }

  lemma OwnAnnounce(s: State, id: string, m: string, p: string, v: PartView)
    requires Own(s, m, p, v)
    ensures Own(Announce(s, id), m, p, v)
  {
    hide KeptTools, ReleasedCalls;
  }

  lemma OwnStep(sid: string, s: State, w: Wire, m: string, p: string, v: PartView)
    requires Tracks(s, p, v) && Own(s, m, p, v) && UsedBy(sid, w, m, p)
    ensures Own(Next(sid, s, w), m, p, FoldStep(sid, v, w, p)) && !Splits(sid, s, w, p, v)
  {
    hide Trim, Accepted, NextText, Announce;
    if Concerns(sid, w) {
      match w.body {
        case AssistantMessage(id) => OwnAnnounce(s, id, m, p, v);
        case TextPart(u) => OwnText(s, u, m, p, v);
        case _ =>
      }
    }
  }

  lemma {:induction false} OwnHolds(sid: string, ws: seq<Wire>, m: string, p: string)
    requires BelongsTo(sid, ws, m, p)
    ensures Own(StateAfter(sid, ws), m, p, Fold(sid, ws, p)) && NeverSplit(sid, ws, p)
  {
    hide Next, FoldStep, Splits, Tracks;
    if ws != [] {
      var n := |ws| - 1;
      OwnHolds(sid, ws[..n], m, p);
      TracksHolds(sid, ws[..n], p);
      assert UsedBy(sid, ws[n], m, p);
      OwnStep(sid, StateAfter(sid, ws[..n]), ws[n], m, p, Fold(sid, ws[..n], p));
    }
  }

  ghost predicate Holds(s: State, m: string, p: string, v: PartView) {
    && Get(s.partTypes, p) == v.knownType
    && Accumulated(s, m, p) == v.text
    && (if m in s.assistants then PendingText(s, p) == "" else Get(s.partText, p) == "")
    && (p in s.pending ==> s.pending[p].messageID == m)
  }

  lemma {:induction false} FoldHolds(sid: string, ws: seq<Wire>, m: string, p: string)
    requires BelongsTo(sid, ws, m, p)
    ensures Holds(StateAfter(sid, ws), m, p, Fold(sid, ws, p))
  {
    OwnHolds(sid, ws, m, p);
    TransparentIffNeverSplit(sid, ws, p);
    TracksHolds(sid, ws, p);
    hide StateAfter, Fold, NeverSplit, BelongsTo;
  }

  /** In particular it is for a part that belongs to one message: in `pendingParts` while the
      message is unknown and in `partText` from then on, the part is the fold of its own updates. */
  lemma {:induction false} BufferingIsTransparent(sid: string, ws: seq<Wire>, m: string, p: string)
    requires BelongsTo(sid, ws, m, p)
    ensures Accumulated(StateAfter(sid, ws), m, p) == Fold(sid, ws, p).text
    ensures Get(StateAfter(sid, ws).partTypes, p) == Fold(sid, ws, p).knownType
  {
    FoldHolds(sid, ws, m, p);
  }

  /** The run without its role announcements. */
  function Unannounced(sid: string, ws: seq<Wire>): seq<Wire> {
    if ws == [] then []
    else
      var w := ws[|ws| - 1];
      Unannounced(sid, ws[..|ws| - 1]) + if w.body.AssistantMessage? then [] else [w]
  }

  lemma {:induction false} FoldIgnoresAnnouncements(sid: string, ws: seq<Wire>, p: string)
    ensures Fold(sid, ws, p) == Fold(sid, Unannounced(sid, ws), p)
  {
    hide FoldStep;
    if ws != [] {
      var before, w := ws[..|ws| - 1], ws[|ws| - 1];
      FoldIgnoresAnnouncements(sid, before, p);
      if w.body.AssistantMessage? {
        FoldSkips(sid, Fold(sid, before, p), w, p);
        assert Unannounced(sid, ws) == Unannounced(sid, before);
      } else {
        assert Unannounced(sid, ws)[..|Unannounced(sid, ws)| - 1] == Unannounced(sid, before);
      }
    }
  }

  lemma FoldSkips(sid: string, v: PartView, w: Wire, p: string)
    requires w.body.AssistantMessage?
    ensures FoldStep(sid, v, w, p) == v
  {
  }

  /** When the announcements come, and how often, makes no difference to an announced part. */
  lemma {:induction false} AnnouncementTimingIsIrrelevant(
    sid: string, ws: seq<Wire>, ws': seq<Wire>, m: string, p: string)
    requires BelongsTo(sid, ws, m, p) && BelongsTo(sid, ws', m, p)
    requires Unannounced(sid, ws) == Unannounced(sid, ws')
    requires m in StateAfter(sid, ws).assistants && m in StateAfter(sid, ws').assistants
    ensures Get(StateAfter(sid, ws).partText, p) == Get(StateAfter(sid, ws').partText, p)
  {
    hide Next, FoldStep;
    BufferingIsTransparent(sid, ws, m, p);
    BufferingIsTransparent(sid, ws', m, p);
    FoldIgnoresAnnouncements(sid, ws, p);
    FoldIgnoresAnnouncements(sid, ws', p);
  }

  // ----- streams that split a part -----

  lemma FoldSnoc(sid: string, ws: seq<Wire>, w: Wire, p: string)
    ensures Fold(sid, ws + [w], p) == FoldStep(sid, Fold(sid, ws, p), w, p)
  {
    hide FoldStep;
    assert (ws + [w])[..|ws|] == ws;
  }

  lemma SplitsAtEnd(sid: string, ws: seq<Wire>, w: Wire, p: string)
    requires Splits(sid, StateAfter(sid, ws), w, p, Fold(sid, ws, p))
    ensures !Transparent(sid, ws + [w], p)
  {
    hide Splits, Transparent;
    assert (ws + [w])[..|ws|] == ws;
    TransparentIffNeverSplit(sid, ws + [w], p);
  }

  lemma SnapshotFolds(v: PartView, m: string, p: string, text: string)
    requires p != ""
    ensures FoldStep("s", v, Snapshot(m, p, text), p) == PartView("text", text, Some(m))
  {
    hide Trim;
  }

  const Empty := State({"a"}, map[], map[], map[], map[], {})

  lemma Started()
    ensures StateAfter("s", [Announced("a")]) == Empty
    ensures Fold("s", [Announced("a")], "p") == PartView("", "", None)
  {
    AfterSnoc("s", [], Announced("a"));
    FoldSnoc("s", [], Announced("a"), "p");
    AnnounceStep(Initial, "a");
    assert [] + [Announced("a")] == [Announced("a")];
  }

  lemma SnapshotSnoc(ws: seq<Wire>, m: string, p: string, text: string)
    requires p != ""
    ensures StateAfter("s", ws + [Snapshot(m, p, text)]) == Next("s", StateAfter("s", ws), Snapshot(m, p, text))
    ensures Fold("s", ws + [Snapshot(m, p, text)], p) == PartView("text", text, Some(m))
  {
    hide StateAfter, Fold, Next;
    AfterSnoc("s", ws, Snapshot(m, p, text));
    FoldSnoc("s", ws, Snapshot(m, p, text), p);
    SnapshotFolds(Fold("s", ws, p), m, p, text);
  }

  /** A delta of an unannounced message for a part of an announced one: each keeps a piece. */
  lemma {:induction false} SharedPartSplits()
    ensures var ws := [Announced("a")] + [Snapshot("a", "p", "x")] + [Delta("b", "p", "y")];
            && Fold("s", ws, "p").text == "xy"
            && Accumulated(StateAfter("s", ws), "a", "p") == "x" && Accumulated(StateAfter("s", ws), "b", "p") == "y"
            && !Transparent("s", ws, "p")
  {
    hide StateAfter, Fold, Transparent;
    var before := [Announced("a")] + [Snapshot("a", "p", "x")];
    Started();
    SnapshotSnoc([Announced("a")], "a", "p", "x");
    SnapshotStep(Empty, "a", "p", "x");
    AfterSnoc("s", before, Delta("b", "p", "y"));
    FoldSnoc("s", before, Delta("b", "p", "y"), "p");
    TextIsText();
    SplitsAtEnd("s", before, Delta("b", "p", "y"), "p");
  }

  /** A text that waited replaces a newer one of an announced message. */
  lemma {:induction false} LateReleaseSplits()
    ensures var ws := [Announced("a")] + [Snapshot("b", "p", "y")] + [Snapshot("a", "p", "x")] + [Announced("b")];
            !Transparent("s", ws, "p")
  {
    hide StateAfter, Fold, Transparent;
    var one := [Announced("a")] + [Snapshot("b", "p", "y")];
    Started();
    SnapshotSnoc([Announced("a")], "b", "p", "y");
    SnapshotStep(Empty, "b", "p", "y");
    SnapshotSnoc(one, "a", "p", "x");
    SnapshotStep(StateAfter("s", one), "a", "p", "x");
    SplitsAtEnd("s", one + [Snapshot("a", "p", "x")], Announced("b"), "p");
  }

  /** A message whose snapshot was empty takes over the text of another when it is announced. */
  lemma {:induction false} EmptyWaitSplits()
    ensures var ws := [Announced("a")] + [Snapshot("a", "p", "x")] + [Snapshot("b", "p", "")] + [Announced("b")];
            !Transparent("s", ws, "p")
  {
    hide StateAfter, Fold, Transparent;
    var one := [Announced("a")] + [Snapshot("a", "p", "x")];
    Started();
    SnapshotSnoc([Announced("a")], "a", "p", "x");
    SnapshotStep(Empty, "a", "p", "x");
    SnapshotSnoc(one, "b", "p", "");
    SnapshotStep(StateAfter("s", one), "b", "p", "");
    SplitsAtEnd("s", one + [Snapshot("b", "p", "")], Announced("b"), "p");
  }

  lemma TextIsText()
    ensures Trim("text") == "text"
  {
    TrimOfTrimmed("text");
  }
}
