/** The reply loop over text chunks, `handleStreamingResponse` in bot/client.go (lines 1244-1351).

    An input is one turn of its select: a chunk, a tick, the close of the channel or the end of
    the context, with the clock readings it makes (in nanoseconds) and whether the message
    update it may send succeeds. */
module ChunkReply {
  import opened Text

  const NoticeAfter := 10 * Second
  const NoticeEvery := 20 * Second
  const NoResponseText := "_No response produced._"

  datatype Input =
    | Chunk(text: string, now: int)
    | Tick(t1: int, t2: int, t3: int, ok: bool)
    | Close(ok: bool)
    | ContextDone

  /** A successful update.  A notice records when it was due and whether a chunk arrived since
      the one before it. */
  datatype Update = Notice(text: string, at: int, afterChunk: bool) | Content(text: string) | NoResponse

  /** `shown`, `chunkSince` and `clock` (the latest reading) only record the history. */
  datatype State = State(
    buffer: string, lastSent: string, lastChunkAt: int, nextNotice: int, result: Option<bool>,
    shown: seq<Update>, chunkSince: bool, clock: int)

  function Begin(start: int): State {
    State("", "", start, start + NoticeAfter, None, [], false, start)
  }

  predicate NoticeDue(s: State, i: Input)
    requires i.Tick?
  {
    s.buffer == "" && i.t1 - s.lastChunkAt >= NoticeAfter && i.t2 > s.nextNotice
  }

  function OnTick(s: State, i: Input): State
    requires i.Tick?
  {
    if NoticeDue(s, i) then
      if !i.ok then s
      else
        var text := NoticeText(i.t1 - s.lastChunkAt);
        s.(lastSent := text, nextNotice := i.t3 + NoticeEvery,
           shown := s.shown + [Notice(text, i.t2, s.chunkSince)], chunkSince := false)
    else if s.buffer != "" && s.buffer != s.lastSent && i.ok then
      s.(lastSent := s.buffer, shown := s.shown + [Content(s.buffer)])
    else s
  }

  function OnClose(s: State, ok: bool): State {
    if s.buffer == "" && s.lastSent != "" then
      s.(result := Some(false), shown := if ok then s.shown + [NoResponse] else s.shown)
    else if s.buffer != s.lastSent && s.buffer != "" then
      s.(result := Some(ok), shown := if ok then s.shown + [Content(s.buffer)] else s.shown)
    else s.(result := Some(s.buffer == s.lastSent && s.buffer != ""))
  }

  function Next(s: State, i: Input): State {
    if s.result.Some? then s
    else match i
      case Chunk(text, now) =>
        s.(buffer := s.buffer + text, lastChunkAt := now, nextNotice := now + NoticeAfter,
           chunkSince := true, clock := now)
      case Tick(_, _, t3, _) => OnTick(s, i).(clock := t3)
      case Close(ok) => OnClose(s, ok)
      case ContextDone => s.(result := Some(false))
  }

  function After(start: int, inputs: seq<Input>): State {
    if inputs == [] then Begin(start)
    else Next(After(start, inputs[..|inputs| - 1]), inputs[|inputs| - 1])
  }

  /** The loop itself, one method per case of its select. */
  class Reply {
    var buffer: string
    var lastSent: string
    var lastChunkAt: int
    var nextNotice: int
    var result: Option<bool>
    ghost var shown: seq<Update>
    ghost var chunkSince: bool
    ghost var clock: int

    ghost function Model(): State
      reads this
    {
      State(buffer, lastSent, lastChunkAt, nextNotice, result, shown, chunkSince, clock)
    }

    constructor (start: int)
      ensures Model() == Begin(start)
    {
      buffer, lastSent, result := "", "", None;
      lastChunkAt, nextNotice := start, start + NoticeAfter;
      shown, chunkSince, clock := [], false, start;
    }

    method Receive(text: string, now: int)
      requires result == None
      modifies this
      ensures Model() == Next(old(Model()), Chunk(text, now))
    {
      buffer := buffer + text;
      lastChunkAt := now;
      nextNotice := now + NoticeAfter;
      chunkSince, clock := true, now;
    }

    method TickAt(t1: int, t2: int, t3: int, ok: bool)
      requires result == None
      modifies this
      ensures Model() == Next(old(Model()), Tick(t1, t2, t3, ok))
    {
      clock := t3;
      var current := buffer;
      if current == "" {
        var elapsed := t1 - lastChunkAt;
        if elapsed >= NoticeAfter && t2 > nextNotice {
          var text := NoticeText(elapsed);
          if ok {
            lastSent := text;
            nextNotice := t3 + NoticeEvery;
            shown, chunkSince := shown + [Notice(text, t2, chunkSince)], false;
          }
          return;
        }
      }
      if current != lastSent && current != "" {
        if ok {
          lastSent := current;
          shown := shown + [Content(current)];
        }
      }
    }

    method CloseChannel(ok: bool)
      requires result == None
      modifies this
      ensures Model() == Next(old(Model()), Close(ok))
    {
      var final := buffer;
      if final == "" && lastSent != "" {
        if ok {
          shown := shown + [NoResponse];
        }
        result := Some(false);
        return;
      }
      if final != lastSent && final != "" {
        if !ok {
          result := Some(false);
        } else {
          shown := shown + [Content(final)];
          result := Some(true);
        }
        return;
      }
      result := Some(final == lastSent && final != "");
    }
  }

  // ----- what the room sees -----

  function TextOf(u: Update): string {
    match u
    case Notice(text, _, _) => text
    case Content(text) => text
    case NoResponse => NoResponseText
  }

  /** The text of the reply message; it is first posted as "...". */
  function Displayed(s: State): string {
    if s.shown == [] then "..." else TextOf(s.shown[|s.shown| - 1])
  }

  /** Update `j` may follow update `i` while the text is `buffer`. */
  predicate Follows(shown: seq<Update>, i: nat, j: nat)
    requires i < j < |shown|
  {
    && !shown[i].NoResponse?
    && (shown[i].Content? ==> shown[j].Content? && shown[i].text < shown[j].text)
  }

  predicate UpdateFits(u: Update, buffer: string) {
    match u
    case Notice(text, _, _) => text != ""
    case Content(text) => text != "" && text <= buffer
    case NoResponse => buffer == ""
  }

  /** Notices first, then strictly growing prefixes of the text, or the no-response line. */
  ghost predicate ShownFits(s: State) {
    && (forall i, j | 0 <= i < j < |s.shown| :: Follows(s.shown, i, j))
    && (forall i | 0 <= i < |s.shown| :: UpdateFits(s.shown[i], s.buffer))
    && (s.result == None ==>
          && (forall i | 0 <= i < |s.shown| :: !s.shown[i].NoResponse?)
          && s.lastSent == if s.shown == [] then "" else Displayed(s))
  }

  lemma AppendFits(s: State, u: Update, result: Option<bool>)
    requires ShownFits(s) && s.result == None
    requires UpdateFits(u, s.buffer) && (u.NoResponse? ==> result != None)
    requires u.Content? ==> u.text == s.buffer != s.lastSent
    requires !u.Content? ==> s.buffer == ""
    ensures ShownFits(s.(shown := s.shown + [u], result := result, lastSent := TextOf(u)))
    ensures result != None ==> ShownFits(s.(shown := s.shown + [u], result := result))
  {
    var t := s.(shown := s.shown + [u], result := result, lastSent := TextOf(u));
    forall i, j | 0 <= i < j < |t.shown| ensures Follows(t.shown, i, j) {
      if j < |s.shown| {
        assert Follows(s.shown, i, j);
      } else {
        assert UpdateFits(s.shown[i], s.buffer);
        if s.shown[i].Content? && i < |s.shown| - 1 {
          assert Follows(s.shown, i, |s.shown| - 1);
        }
        assert UpdateFits(s.shown[|s.shown| - 1], s.buffer);
      }
    }
    forall i | 0 <= i < |t.shown| ensures UpdateFits(t.shown[i], t.buffer) {
      if i < |s.shown| { assert UpdateFits(s.shown[i], s.buffer); }
    }
  }

  lemma LongerFits(s: State, text: string)
    requires ShownFits(s) && s.result == None
    ensures ShownFits(s.(buffer := s.buffer + text))
  {
    forall k | 0 <= k < |s.shown| ensures UpdateFits(s.shown[k], s.buffer + text) {
      assert UpdateFits(s.shown[k], s.buffer);
    }
  }

  lemma StepFits(s: State, i: Input)
    requires ShownFits(s)
    ensures ShownFits(Next(s, i))
  {
    hide NoticeText;
    if s.result == None {
      match i {
        case Chunk(text, _) => LongerFits(s, text);
        case Tick(t1, t2, _, ok) =>
          if NoticeDue(s, i) && ok {
            var text := NoticeText(t1 - s.lastChunkAt);
            NoticeIsNotEmpty(t1 - s.lastChunkAt);
            AppendFits(s, Notice(text, t2, s.chunkSince), None);
          } else if s.buffer != "" && s.buffer != s.lastSent && ok {
            AppendFits(s, Content(s.buffer), None);
          }
        case Close(ok) =>
          if ok && s.buffer == "" && s.lastSent != "" {
            AppendFits(s, NoResponse, Some(false));
          } else if ok && s.buffer != s.lastSent && s.buffer != "" {
            AppendFits(s, Content(s.buffer), Some(true));
          }
        case ContextDone =>
      }
    }
  }

  /** The chunks received before the loop ended. */
  function Received(start: int, inputs: seq<Input>): string {
    if inputs == [] then ""
    else
      var before, i := inputs[..|inputs| - 1], inputs[|inputs| - 1];
      Received(start, before) + if i.Chunk? && After(start, before).result == None then i.text else ""
  }

  /** In every interleaving of chunks, ticks and failing updates the updates that succeed are
      notices followed by strictly growing prefixes of the text received, or by the
      no-response line when there is no text. */
  lemma {:induction false} ChunksArriveWhole(start: int, inputs: seq<Input>)
    ensures ShownFits(After(start, inputs))
    ensures After(start, inputs).buffer == Received(start, inputs)
  {
    hide ShownFits, NoticeText;
    if inputs == [] {
      BeginFits(start);
    } else {
      ChunksArriveWhole(start, inputs[..|inputs| - 1]);
      StepFits(After(start, inputs[..|inputs| - 1]), inputs[|inputs| - 1]);
    }
  }

  lemma BeginFits(start: int)
    ensures ShownFits(Begin(start))
  {
  }

  /** After the close the result is true exactly when the whole text is non-empty and is what
      the last successful update shows. */
  lemma {:induction false} ResultTellsDelivery(start: int, inputs: seq<Input>, ok: bool)
    requires After(start, inputs).result == None
    ensures var s := OnClose(After(start, inputs), ok);
            && s == After(start, inputs + [Close(ok)])
            && s.buffer == Received(start, inputs)
            && s.result.Some?
            && (s.result == Some(true) <==> s.buffer != "" && s.shown != [] && Displayed(s) == s.buffer)
            && (s.buffer == "" && s.shown != [] && ok ==> Displayed(s) == NoResponseText)
  {
    hide ShownFits, After, Received, OnClose, Displayed, Next;
    ChunksArriveWhole(start, inputs);
    AfterSnoc(start, inputs, Close(ok));
    CloseIsNext(After(start, inputs), ok);
    CloseTells(After(start, inputs), ok);
  }

  /** So result and display differ exactly when the text is just "..." and no update ever
      succeeded: it is on display then from the first post. */
  lemma {:induction false} ResultDiffersFromDisplay(start: int, inputs: seq<Input>, ok: bool)
    requires After(start, inputs).result == None
    ensures var s := After(start, inputs + [Close(ok)]);
            (s.result == Some(true) <==> s.buffer != "" && Displayed(s) == s.buffer) <==>
            !(s.buffer == "..." && s.shown == [])
  {
    hide After, Received, OnClose;
    ResultTellsDelivery(start, inputs, ok);
  }

  /** Such a run: the text is "...", and its update fails. */
  lemma {:induction false} DotsAreNotDelivered(start: int, now: int)
    ensures var s := After(start, [Chunk("...", now)] + [Close(false)]);
            s.result == Some(false) && s.buffer == "..." && Displayed(s) == s.buffer
  {
    AfterSnoc(start, [], Chunk("...", now));
    assert [] + [Chunk("...", now)] == [Chunk("...", now)];
    AfterSnoc(start, [Chunk("...", now)], Close(false));
  }

  lemma AfterSnoc(start: int, inputs: seq<Input>, i: Input)
    ensures After(start, inputs + [i]) == Next(After(start, inputs), i)
  {
    hide Next;
    assert (inputs + [i])[..|inputs|] == inputs;
  }

  lemma CloseIsNext(s: State, ok: bool)
    requires s.result == None
    ensures Next(s, Close(ok)) == OnClose(s, ok) && OnClose(s, ok).result.Some? && OnClose(s, ok).buffer == s.buffer
  {
  }

  lemma CloseTells(s: State, ok: bool)
    requires ShownFits(s) && s.result == None
    ensures var t := OnClose(s, ok);
            && (t.result == Some(true) <==> t.buffer != "" && t.shown != [] && Displayed(t) == t.buffer)
            && (t.buffer == "" && t.shown != [] && ok ==> Displayed(t) == NoResponseText)
  {
    if s.shown != [] {
      assert UpdateFits(s.shown[|s.shown| - 1], s.buffer);
    }
  }

  // ----- the spacing of notices -----

  /** The clock never runs backwards. */
  predicate Timed(s: State, i: Input) {
    match i
    case Chunk(_, now) => s.clock <= now
    case Tick(t1, t2, t3, _) => s.clock <= t1 <= t2 <= t3
    case _ => true
  }

  predicate MonotoneClock(start: int, inputs: seq<Input>) {
    inputs == [] ||
    (MonotoneClock(start, inputs[..|inputs| - 1]) &&
     Timed(After(start, inputs[..|inputs| - 1]), inputs[|inputs| - 1]))
  }

  /** Update `i` leaves the next notice this long to wait. */
  predicate Spaced(start: int, shown: seq<Update>, i: nat)
    requires i < |shown|
  {
    shown[i].Notice? ==>
      if i == 0 then shown[i].at > start + NoticeAfter
      else shown[i - 1].Notice? ==>
        shown[i].at > shown[i - 1].at + if shown[i].afterChunk then NoticeAfter else NoticeEvery
  }

  ghost predicate TimesFit(start: int, s: State) {
    && (forall i | 0 <= i < |s.shown| :: Spaced(start, s.shown, i))
    && start <= s.clock
    && start + NoticeAfter <= s.nextNotice
    && (s.shown != [] && s.shown[|s.shown| - 1].Notice? ==>
          var last := s.shown[|s.shown| - 1];
          && last.at <= s.clock
          && last.at + (if s.chunkSince then NoticeAfter else NoticeEvery) <= s.nextNotice)
  }

  lemma TimesStep(start: int, s: State, i: Input)
    requires TimesFit(start, s) && Timed(s, i)
    ensures TimesFit(start, Next(s, i))
  {
    hide NoticeText;
    var t := Next(s, i);
    forall k | 0 <= k < |t.shown| ensures Spaced(start, t.shown, k) {
      if k < |s.shown| {
        assert Spaced(start, s.shown, k);
        assert t.shown[k] == s.shown[k] && (k > 0 ==> t.shown[k - 1] == s.shown[k - 1]);
      }
    }
  }

  lemma {:induction false} TimesHold(start: int, inputs: seq<Input>)
    requires MonotoneClock(start, inputs)
    ensures TimesFit(start, After(start, inputs))
  {
    hide TimesFit, Next, Timed;
    if inputs == [] {
      BeginTimes(start);
    } else {
      TimesHold(start, inputs[..|inputs| - 1]);
      TimesStep(start, After(start, inputs[..|inputs| - 1]), inputs[|inputs| - 1]);
    }
  }

  lemma BeginTimes(start: int)
    ensures TimesFit(start, Begin(start))
  {
  }

  /** The first notice comes more than 10 s after the start, the next more than 20 s after the
      last, or more than 10 s if a chunk arrived in between. */
  lemma NoticesAreSpaced(start: int, inputs: seq<Input>, i: nat)
    requires MonotoneClock(start, inputs) && i < |After(start, inputs).shown|
    ensures Spaced(start, After(start, inputs).shown, i)
  {
    TimesHold(start, inputs);
  }

  /** So any two are more than 10 s apart: nothing but notices comes between notices. */
  lemma {:induction false} NoticesAreApart(start: int, inputs: seq<Input>, i: nat, j: nat)
    requires MonotoneClock(start, inputs) && i < j < |After(start, inputs).shown|
    requires After(start, inputs).shown[i].Notice? && After(start, inputs).shown[j].Notice?
    ensures After(start, inputs).shown[j].at > After(start, inputs).shown[i].at + NoticeAfter
    decreases j
  {
    var shown := After(start, inputs).shown;
    ChunksArriveWhole(start, inputs);
    NoticesAreSpaced(start, inputs, j);
    assert Follows(shown, j - 1, j);
    if i < j - 1 {
      NoticesAreApart(start, inputs, i, j - 1);
    }
  }

  // ----- what each turn shows -----

  /** When the last chunk came; the start if none did. */
  function LastChunkAt(start: int, inputs: seq<Input>): int {
    if inputs == [] then start
    else
      var before, i := inputs[..|inputs| - 1], inputs[|inputs| - 1];
      if i.Chunk? && After(start, before).result == None then i.now else LastChunkAt(start, before)
  }

  /** A notice is due at a tick: no text has come, for 10 s no chunk, and the last notice since
      then was more than 20 s ago. */
  predicate IsDue(start: int, inputs: seq<Input>, t1: int, t2: int) {
    && Received(start, inputs) == ""
    && t1 - LastChunkAt(start, inputs) >= 10_000_000_000
    && t2 > NoNoticeBefore(start, inputs)
  }

  function NoNoticeBefore(start: int, inputs: seq<Input>): int
    decreases |inputs|, 1
  {
    if inputs == [] then start + 10_000_000_000
    else
      var before, i := inputs[..|inputs| - 1], inputs[|inputs| - 1];
      if After(start, before).result.Some? then NoNoticeBefore(start, before)
      else match i
        case Chunk(_, now) => now + 10_000_000_000
        case Tick(t1, t2, t3, ok) =>
          if ok && Received(start, before) == "" && t1 - LastChunkAt(start, before) >= 10_000_000_000 &&
             t2 > NoNoticeBefore(start, before)
          then t3 + 20_000_000_000 else NoNoticeBefore(start, before)
        case _ => NoNoticeBefore(start, before)
  }

  lemma ClockStep(s: State, i: Input)
    requires s.result == None
    ensures Next(s, i).lastChunkAt == if i.Chunk? then i.now else s.lastChunkAt
    ensures Next(s, i).nextNotice ==
            match i
            case Chunk(_, now) => now + 10_000_000_000
            case Tick(t1, t2, t3, ok) =>
              if ok && s.buffer == "" && t1 - s.lastChunkAt >= 10_000_000_000 && t2 > s.nextNotice
              then t3 + 20_000_000_000 else s.nextNotice
            case _ => s.nextNotice
  {
    hide NoticeText;
  }

  lemma {:induction false} ClocksHold(start: int, inputs: seq<Input>)
    ensures After(start, inputs).lastChunkAt == LastChunkAt(start, inputs)
    ensures After(start, inputs).nextNotice == NoNoticeBefore(start, inputs)
  {
    hide Next, Received;
    if inputs != [] {
      var before, i := inputs[..|inputs| - 1], inputs[|inputs| - 1];
      ClocksHold(start, before);
      ChunksArriveWhole(start, before);
      hide ShownFits;
      if After(start, before).result == None {
        ClockStep(After(start, before), i);
      } else {
        EndIsFinal(After(start, before), i);
      }
    }
  }

  lemma EndIsFinal(s: State, i: Input)
    requires s.result.Some?
    ensures Next(s, i) == s
  {
  }

  lemma {:induction false} TickStep(s: State, t1: int, t2: int, t3: int, ok: bool)
    requires ShownFits(s) && s.result == None
    ensures var t := Next(s, Tick(t1, t2, t3, ok));
            && t.result == None && t.buffer == s.buffer
            && (s.buffer != "" ==>
                  t.shown == s.shown + if ok && (s.shown == [] || Displayed(s) != s.buffer)
                                       then [Content(s.buffer)] else [])
            && (s.buffer == "" ==>
                  t.shown == s.shown +
                    if ok && t1 - s.lastChunkAt >= 10_000_000_000 && t2 > s.nextNotice
                    then [Notice(NoticeText(t1 - s.lastChunkAt), t2, s.chunkSince)] else [])
  {
    hide NoticeText, Follows, UpdateFits;
  }

  /** A tick whose update succeeds shows all text received, and sends it just when the message does
      not show it yet; while no text has come it sends a notice just when one is due.  A tick whose
      update fails changes nothing that is shown, and no tick ends the loop. */
  lemma {:induction false} TickShows(start: int, inputs: seq<Input>, t1: int, t2: int, t3: int, ok: bool)
    requires After(start, inputs).result == None
    ensures var s, t := After(start, inputs), After(start, inputs + [Tick(t1, t2, t3, ok)]);
            var text, notice := Received(start, inputs), NoticeText(t1 - LastChunkAt(start, inputs));
            && t.result == None
            && (!ok ==> t.shown == s.shown)
            && (ok && text != "" ==> Displayed(t) == text && t.shown != [])
            && (ok && text != "" ==> if s.shown != [] && Displayed(s) == text then t.shown == s.shown
                                     else t.shown == s.shown + [Content(text)])
            && (ok && IsDue(start, inputs, t1, t2) ==>
                  Displayed(t) == notice && |t.shown| == |s.shown| + 1 && t.shown[..|s.shown|] == s.shown)
            && (text == "" && !IsDue(start, inputs, t1, t2) ==> t.shown == s.shown)
  {
    hide After, Received, ShownFits, NoticeText, Next, LastChunkAt, NoNoticeBefore;
    ChunksArriveWhole(start, inputs);
    ClocksHold(start, inputs);
    AfterSnoc(start, inputs, Tick(t1, t2, t3, ok));
    TickStep(After(start, inputs), t1, t2, t3, ok);
  }

  lemma CloseStep(s: State, ok: bool)
    requires ShownFits(s) && s.result == None
    ensures var t := OnClose(s, ok);
            && t.buffer == s.buffer
            && (s.buffer != "" && s.shown != [] && Displayed(s) == s.buffer ==>
                  t.shown == s.shown && t.result == Some(true))
            && (s.buffer != "" && !(s.shown != [] && Displayed(s) == s.buffer) ==>
                  t.result == Some(ok) && t.shown == s.shown + if ok then [Content(s.buffer)] else [])
            && (s.buffer == "" ==>
                  t.result == Some(false) && t.shown == s.shown + if ok && s.shown != [] then [NoResponse] else [])
  {
    if s.shown != [] {
      assert UpdateFits(s.shown[|s.shown| - 1], s.buffer);
    }
  }

  /** The close sends the text just when the message does not show it yet, and then its success is
      the result; without text the result is false, and what was shown gives way to a last line. */
  lemma {:induction false} CloseShows(start: int, inputs: seq<Input>, ok: bool)
    requires After(start, inputs).result == None
    ensures var s, t := After(start, inputs), After(start, inputs + [Close(ok)]);
            var text := Received(start, inputs);
            && (text != "" && s.shown != [] && Displayed(s) == text ==> t.shown == s.shown && t.result == Some(true))
            && (text != "" && !(s.shown != [] && Displayed(s) == text) ==>
                  t.result == Some(ok) && t.shown == s.shown + if ok then [Content(text)] else [])
            && (text == "" ==>
                  t.result == Some(false) && (!ok || s.shown == [] ==> t.shown == s.shown) &&
                  (ok && s.shown != [] ==> Displayed(t) == "_No response produced._"))
  {
    hide After, Received, ShownFits, OnClose, Next;
    ChunksArriveWhole(start, inputs);
    AfterSnoc(start, inputs, Close(ok));
    CloseIsNext(After(start, inputs), ok);
    CloseStep(After(start, inputs), ok);
  }

  /** The end of the context ends the loop without success and sends nothing. */
  lemma {:induction false} ContextEnds(start: int, inputs: seq<Input>)
    requires After(start, inputs).result == None
    ensures After(start, inputs + [ContextDone]).result == Some(false)
    ensures After(start, inputs + [ContextDone]).shown == After(start, inputs).shown
  {
    AfterSnoc(start, inputs, ContextDone);
  }
}
