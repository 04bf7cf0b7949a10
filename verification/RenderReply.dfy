/** The reply loop over render events, `handleRenderStreamingResponse` in bot/client.go
    (lines 1006-1128), with its `flush` closure, dirty flag and last-sent cache.

    An input is one turn of the select, with the clock readings a flush makes (in nanoseconds)
    and whether the message update it may send succeeds. */
module RenderReply {
  import opened Text
  import opened RenderEvents
  import opened Renderer

  const NoticeAfter := 10 * Second
  const NoticeEvery := 20 * Second

  /** How a renderer words and lays out what it shows. */
  datatype Style = Style(wording: Wording, concise: bool)

  datatype Clock = Clock(t1: int, t2: int, t3: int, t4: int)

  datatype Input =
    | Event(e: RenderEvent, now: int)
    | Tick(clock: Clock, ok: bool)
    | Close(clock: Clock, ok: bool)
    | ContextDone

  /** `shown` records the successful updates. */
  datatype State = State(
    view: View, lastSent: string, dirty: bool, lastProgressAt: int, nextNotice: int,
    result: Option<bool>, shown: seq<string>)

  function Begin(start: int): State {
    State(Blank, "...", false, start, start + NoticeAfter, None, [])
  }

  function TextOf(y: Style, s: State): string {
    Rendered(y.concise, s.view)
  }

  predicate NoticeDue(y: Style, s: State, c: Clock) {
    HasPlaceholder(TextOf(y, s)) && c.t1 - s.lastProgressAt >= NoticeAfter && c.t2 > s.nextNotice
  }

  /** What a flush would send. */
  function Current(y: Style, s: State, c: Clock): string {
    if NoticeDue(y, s, c) then ReplacePlaceholder(TextOf(y, s), NoticeText(c.t3 - s.lastProgressAt)) else TextOf(y, s)
  }

  /** `flush`; its result is the second component. */
  function Flush(y: Style, s: State, force: bool, c: Clock, ok: bool): (State, bool) {
    var due := NoticeDue(y, s, c);
    if !s.dirty && !force && !due then (s, true)
    else
      var current := if Current(y, s, c) == "" then "..." else Current(y, s, c);
      var t := if due then s.(nextNotice := c.t4 + NoticeEvery) else s;
      if !force && current == s.lastSent then (t.(dirty := false), true)
      else if !ok then (t, false)
      else (t.(lastSent := current, dirty := false, shown := s.shown + [current]), true)
  }

  function OnEvent(y: Style, s: State, e: RenderEvent, now: int): State {
    var view := ApplyTo(y.wording, s.view, e);
    if view.tools == s.view.tools && view.answer == s.view.answer then s.(view := view)
    else s.(view := view, dirty := true, lastProgressAt := now, nextNotice := now + NoticeAfter)
  }

  function Next(y: Style, s: State, i: Input): State {
    if s.result.Some? then s
    else match i
      case Event(e, now) => OnEvent(y, s, e, now)
      case Tick(c, ok) =>
        var (t, fine) := Flush(y, s, false, c, ok);
        if fine then t else t.(result := Some(false))
      case Close(c, ok) =>
        var (t, fine) := Flush(y, s, true, c, ok);
        t.(result := Some(fine))
      case ContextDone => s.(result := Some(false))
  }

  function After(y: Style, start: int, inputs: seq<Input>): State {
    if inputs == [] then Begin(start)
    else Next(y, After(y, start, inputs[..|inputs| - 1]), inputs[|inputs| - 1])
  }

  /** The loop itself, one method per case of its select. */
  class Reply {
    const renderer: ProgressiveRenderer
    var lastSent: string
    var dirty: bool
    var lastProgressAt: int
    var nextNotice: int
    var result: Option<bool>
    ghost var shown: seq<string>

    ghost function Model(): State
      reads this, renderer
    {
      State(renderer.Model(), lastSent, dirty, lastProgressAt, nextNotice, result, shown)
    }

    ghost function TheStyle(): Style {
      Style(renderer.wording, renderer.concise)
    }

    constructor (y: Style, start: int)
      ensures renderer.Valid() && fresh(renderer) && TheStyle() == y && Model() == Begin(start)
    {
      var r := new ProgressiveRenderer(y.wording, y.concise);
      renderer, lastSent, dirty, result, shown := r, "...", false, None, [];
      lastProgressAt, nextNotice := start, start + NoticeAfter;
    }

    method FlushNow(force: bool, c: Clock, ok: bool) returns (fine: bool)
      modifies this
      ensures (Model(), fine) == Flush(TheStyle(), old(Model()), force, c, ok)
    {
      hide Rendered, HasPlaceholder, ReplacePlaceholder, NoticeText;
      var base := renderer.Render();
      var noticeDue := false;
      if HasPlaceholder(base) {
        noticeDue := c.t1 - lastProgressAt >= NoticeAfter && c.t2 > nextNotice;
      }
      if !dirty && !force && !noticeDue {
        return true;
      }
      var current := base;
      if noticeDue {
        current := ReplacePlaceholder(current, NoticeText(c.t3 - lastProgressAt));
        nextNotice := c.t4 + NoticeEvery;
      }
      if current == "" {
        current := "...";
      }
      if !force && current == lastSent {
        dirty := false;
        return true;
      }
      if !ok {
        return false;
      }
      lastSent, dirty, shown := current, false, shown + [current];
      return true;
    }

    method Receive(e: RenderEvent, now: int)
      requires result == None && renderer.Valid()
      modifies this, renderer
      ensures renderer.Valid() && Model() == Next(TheStyle(), old(Model()), Event(e, now))
    {
      var changed := renderer.Apply(e);
      if changed {
        dirty := true;
        lastProgressAt := now;
        nextNotice := lastProgressAt + NoticeAfter;
      }
    }

    method TickAt(c: Clock, ok: bool)
      requires result == None
      modifies this
      ensures Model() == Next(TheStyle(), old(Model()), Tick(c, ok))
    {
      var fine := FlushNow(false, c, ok);
      if !fine {
        result := Some(false);
      }
    }

    method CloseChannel(c: Clock, ok: bool)
      requires result == None
      modifies this
      ensures Model() == Next(TheStyle(), old(Model()), Close(c, ok))
    {
      var fine := FlushNow(true, c, ok);
      result := Some(fine);
    }
  }

  // ----- the dirty flag -----

  /** The text of the reply message; it is first posted as "...". */
  function Displayed(s: State): string {
    if s.shown == [] then "..." else s.shown[|s.shown| - 1]
  }

  /** `text` is the rendering, or the rendering with a notice for its placeholder. */
  ghost predicate Shows(y: Style, s: State, text: string) {
    || text == TextOf(y, s)
    || (HasPlaceholder(TextOf(y, s)) && exists elapsed :: text == ReplacePlaceholder(TextOf(y, s), NoticeText(elapsed)))
  }

  ghost predicate CacheFits(y: Style, s: State) {
    && s.lastSent == Displayed(s)
    && (!s.dirty ==> Shows(y, s, s.lastSent))
  }

  lemma CurrentShows(y: Style, s: State, c: Clock)
    ensures Shows(y, s, Current(y, s, c)) && Current(y, s, c) != ""
  {
    hide NoticeText, Header;
    var t := s.lastProgressAt;
    TrimmedBody(s.view.answer);
    NoticeIsNotEmpty(c.t3 - t);
  }

  lemma FlushFits(y: Style, s: State, force: bool, c: Clock, ok: bool)
    requires CacheFits(y, s)
    ensures CacheFits(y, Flush(y, s, force, c, ok).0)
    ensures Flush(y, s, force, c, ok).0.view == s.view
  {
    hide NoticeText, Rendered, HasPlaceholder, ReplacePlaceholder;
    CurrentShows(y, s, c);
  }

  lemma {:induction false} CacheHolds(y: Style, start: int, inputs: seq<Input>)
    ensures CacheFits(y, After(y, start, inputs))
  {
    hide CacheFits, Next;
    if inputs == [] {
      BlankShows(y, start);
    } else {
      CacheHolds(y, start, inputs[..|inputs| - 1]);
      CacheStep(y, After(y, start, inputs[..|inputs| - 1]), inputs[|inputs| - 1]);
    }
  }

  lemma CacheStep(y: Style, s: State, i: Input)
    requires CacheFits(y, s)
    ensures CacheFits(y, Next(y, s, i))
  {
    hide Shows, TextOf, Flush, OnEvent;
    match i {
      case Event(e, now) => EventFits(y, s, e, now);
      case Tick(c, ok) =>
        FlushFits(y, s, false, c, ok);
        ResultFits(y, Flush(y, s, false, c, ok).0, Some(false));
      case Close(c, ok) =>
        var (t, fine) := Flush(y, s, true, c, ok);
        FlushFits(y, s, true, c, ok);
        ResultFits(y, t, Some(fine));
      case ContextDone => ResultFits(y, s, Some(false));
    }
  }

  lemma ResultFits(y: Style, s: State, result: Option<bool>)
    requires CacheFits(y, s)
    ensures CacheFits(y, s.(result := result))
  {
    hide Rendered, HasPlaceholder, ReplacePlaceholder, NoticeText;
  }

  lemma EventFits(y: Style, s: State, e: RenderEvent, now: int)
    requires CacheFits(y, s)
    ensures CacheFits(y, OnEvent(y, s, e, now))
  {
    hide HasPlaceholder, ReplacePlaceholder, NoticeText, ApplyTo;
  }

  lemma BlankShows(y: Style, start: int)
    ensures CacheFits(y, Begin(start))
  {
    assert Header(y.concise, []) == "" && Trim("") == "";
  }

  /** Whenever the dirty flag is down, the message shows the current rendering, or that
      rendering with a notice in place of its placeholder. */
  lemma {:induction false} DirtyFlagIsSound(y: Style, start: int, inputs: seq<Input>)
    requires !After(y, start, inputs).dirty
    ensures Shows(y, After(y, start, inputs), Displayed(After(y, start, inputs)))
  {
    CacheHolds(y, start, inputs);
  }

  // ----- the end of the stream -----

  /** The events received before the loop ended. */
  function Received(y: Style, start: int, inputs: seq<Input>): seq<RenderEvent> {
    if inputs == [] then []
    else
      var before, i := inputs[..|inputs| - 1], inputs[|inputs| - 1];
      Received(y, start, before) + if i.Event? && After(y, start, before).result == None then [i.e] else []
  }

  lemma {:induction false} ViewIsOfReceived(y: Style, start: int, inputs: seq<Input>)
    ensures After(y, start, inputs).view == ViewAfter(y.wording, Received(y, start, inputs))
  {
    if inputs != [] {
      hide ApplyTo, Next, ViewAfter;
      var before, i := inputs[..|inputs| - 1], inputs[|inputs| - 1];
      var s, es := After(y, start, before), Received(y, start, before);
      ViewIsOfReceived(y, start, before);
      NextView(y, s, i);
      if i.Event? && s.result == None {
        ViewSnoc(y.wording, es, i.e);
      } else {
        assert es + [] == es;
      }
    }
  }

  lemma NextView(y: Style, s: State, i: Input)
    ensures Next(y, s, i).view == if i.Event? && s.result == None then ApplyTo(y.wording, s.view, i.e) else s.view
  {
    hide ApplyTo, NoticeDue, Current;
  }

  /** When the stream closes and the loop returns true, the message shows the rendering of all
      events received, unless that has a placeholder for which a notice was due. */
  lemma {:induction false} CloseShowsEverything(y: Style, start: int, inputs: seq<Input>, c: Clock, ok: bool)
    requires After(y, start, inputs).result == None
    ensures var before, s := After(y, start, inputs), After(y, start, inputs + [Close(c, ok)]);
            var text := Rendered(y.concise, ViewAfter(y.wording, Received(y, start, inputs)));
            && s.result == Some(ok)
            && (ok ==> Displayed(s) == if IsDue(y, start, inputs, c)
                                       then ReplacePlaceholder(text, NoticeText(c.t3 - LastProgress(y, start, inputs)))
                                       else text)
            && (!ok ==> s.shown == before.shown)
            && (ok && !HasPlaceholder(text) ==> Displayed(s) == text)
  {
    hide HasPlaceholder, ReplacePlaceholder, NoticeText, Rendered, After, Received, Next, Displayed;
    AfterSnoc(y, start, inputs, Close(c, ok));
    ViewIsOfReceived(y, start, inputs);
    CloseShows(y, After(y, start, inputs), c, ok);
    ClocksHold(y, start, inputs);
  }

  lemma AfterSnoc(y: Style, start: int, inputs: seq<Input>, i: Input)
    ensures After(y, start, inputs + [i]) == Next(y, After(y, start, inputs), i)
  {
    hide Next;
    assert (inputs + [i])[..|inputs|] == inputs;
  }

  lemma CloseShows(y: Style, s: State, c: Clock, ok: bool)
    requires s.result == None
    ensures Next(y, s, Close(c, ok)).result == Some(ok)
    ensures ok ==> Displayed(Next(y, s, Close(c, ok))) == Current(y, s, c)
    ensures !ok ==> Next(y, s, Close(c, ok)).shown == s.shown
  {
    hide HasPlaceholder, ReplacePlaceholder, NoticeText, Rendered;
    CurrentShows(y, s, c);
  }

  // ----- what each turn shows -----

  /** The rendering of all events received. */
  function RenderedNow(y: Style, start: int, inputs: seq<Input>): string {
    Rendered(y.concise, ViewAfter(y.wording, Received(y, start, inputs)))
  }

  /** The event changes what is rendered from. */
  predicate Progresses(y: Style, v: View, e: RenderEvent) {
    ApplyTo(y.wording, v, e).tools != v.tools || ApplyTo(y.wording, v, e).answer != v.answer
  }

  /** When the last event came that did; the start if none did. */
  function LastProgress(y: Style, start: int, inputs: seq<Input>): int {
    if inputs == [] then start
    else
      var before, i := inputs[..|inputs| - 1], inputs[|inputs| - 1];
      var s := After(y, start, before);
      if i.Event? && s.result == None && Progresses(y, s.view, i.e) then i.now else LastProgress(y, start, before)
  }

  /** A notice waits 10 s after progress and 20 s after one that was due. */
  function NoNoticeBefore(y: Style, start: int, inputs: seq<Input>): int {
    if inputs == [] then start + 10_000_000_000
    else
      var before, i := inputs[..|inputs| - 1], inputs[|inputs| - 1];
      var s := After(y, start, before);
      if s.result.Some? || i.ContextDone? then NoNoticeBefore(y, start, before)
      else if i.Event? then
        if Progresses(y, s.view, i.e) then i.now + 10_000_000_000 else NoNoticeBefore(y, start, before)
      else if HasPlaceholder(RenderedNow(y, start, before)) &&
              i.clock.t1 - LastProgress(y, start, before) >= 10_000_000_000 &&
              i.clock.t2 > NoNoticeBefore(y, start, before)
      then i.clock.t4 + 20_000_000_000
      else NoNoticeBefore(y, start, before)
  }

  /** A notice is due: a placeholder shows, and for long enough nothing has happened. */
  predicate IsDue(y: Style, start: int, inputs: seq<Input>, c: Clock) {
    && HasPlaceholder(RenderedNow(y, start, inputs))
    && c.t1 - LastProgress(y, start, inputs) >= 10_000_000_000
    && c.t2 > NoNoticeBefore(y, start, inputs)
  }

  lemma ClockStep(y: Style, s: State, i: Input)
    requires s.result == None
    ensures Next(y, s, i).lastProgressAt == if i.Event? && Progresses(y, s.view, i.e) then i.now else s.lastProgressAt
    ensures Next(y, s, i).nextNotice ==
            if i.ContextDone? then s.nextNotice
            else if i.Event? then (if Progresses(y, s.view, i.e) then i.now + 10_000_000_000 else s.nextNotice)
            else if HasPlaceholder(Rendered(y.concise, s.view)) &&
                    i.clock.t1 - s.lastProgressAt >= 10_000_000_000 && i.clock.t2 > s.nextNotice
            then i.clock.t4 + 20_000_000_000 else s.nextNotice
  {
    hide ApplyTo, Rendered, HasPlaceholder, ReplacePlaceholder, NoticeText;
  }

  lemma {:induction false} ClocksHold(y: Style, start: int, inputs: seq<Input>)
    ensures After(y, start, inputs).lastProgressAt == LastProgress(y, start, inputs)
    ensures After(y, start, inputs).nextNotice == NoNoticeBefore(y, start, inputs)
  {
    hide Next, Received, ViewAfter, Rendered, HasPlaceholder, Progresses;
    if inputs != [] {
      var before, i := inputs[..|inputs| - 1], inputs[|inputs| - 1];
      ClocksHold(y, start, before);
      ViewIsOfReceived(y, start, before);
      if After(y, start, before).result == None {
        ClockStep(y, After(y, start, before), i);
      } else {
        EndIsFinal(y, After(y, start, before), i);
      }
    }
  }

  lemma EndIsFinal(y: Style, s: State, i: Input)
    requires s.result.Some?
    ensures Next(y, s, i) == s
  {
  }

  lemma TickStep(y: Style, s: State, c: Clock, ok: bool)
    requires s.result == None && s.lastSent == Displayed(s)
    ensures var t := Next(y, s, Tick(c, ok));
            var text := Rendered(y.concise, s.view);
            var due := HasPlaceholder(text) && c.t1 - s.lastProgressAt >= 10_000_000_000 && c.t2 > s.nextNotice;
            var next := if due then ReplacePlaceholder(text, NoticeText(c.t3 - s.lastProgressAt)) else text;
            if (!s.dirty && !due) || next == Displayed(s) then t.shown == s.shown && t.result == None && !t.dirty
            else if ok then t.shown == s.shown + [next] && t.result == None && !t.dirty
            else t.shown == s.shown && t.result == Some(false)
  {
    CurrentShows(y, s, c);
    hide Rendered, HasPlaceholder, ReplacePlaceholder, NoticeText, Shows;
  }

  /** What a tick does in every run, with `next` the rendering of all events received, or with a
      notice in its placeholder when one is due.  It sends nothing exactly when the dirty flag was
      down and no notice is due, or the message shows `next` already; else it sends `next`, and a
      failure of that ends the loop.  Unless it does, the flag is down afterwards. */
  lemma {:induction false} TickShows(y: Style, start: int, inputs: seq<Input>, c: Clock, ok: bool)
    requires After(y, start, inputs).result == None
    ensures var s, t := After(y, start, inputs), After(y, start, inputs + [Tick(c, ok)]);
            var due := IsDue(y, start, inputs, c);
            var next := if due then ReplacePlaceholder(RenderedNow(y, start, inputs),
                                                       NoticeText(c.t3 - LastProgress(y, start, inputs)))
                        else RenderedNow(y, start, inputs);
            if (!s.dirty && !due) || next == Displayed(s) then t.shown == s.shown && t.result == None && !t.dirty
            else if ok then t.shown == s.shown + [next] && t.result == None && !t.dirty
            else t.shown == s.shown && t.result == Some(false)
  {
    hide After, Received, ViewAfter, Next, Rendered, HasPlaceholder, ReplacePlaceholder, NoticeText, Displayed, Shows,
         LastProgress, NoNoticeBefore;
    CacheHolds(y, start, inputs);
    ClocksHold(y, start, inputs);
    ViewIsOfReceived(y, start, inputs);
    AfterSnoc(y, start, inputs, Tick(c, ok));
    TickStep(y, After(y, start, inputs), c, ok);
  }

  /** So after a tick whose update succeeds the message shows all events received, with a notice
      at most in its placeholder. */
  lemma {:induction false} TickCatchesUp(y: Style, start: int, inputs: seq<Input>, c: Clock)
    requires After(y, start, inputs).result == None
    ensures var t := After(y, start, inputs + [Tick(c, true)]);
            var text := RenderedNow(y, start, inputs);
            && !t.dirty && t.result == None
            && (Displayed(t) == text ||
                (HasPlaceholder(text) &&
                  exists elapsed :: Displayed(t) == ReplacePlaceholder(text, NoticeText(elapsed))))
  {
    TickShows(y, start, inputs, c, true);
    DirtyFlagIsSound(y, start, inputs + [Tick(c, true)]);
    ViewIsOfReceived(y, start, inputs + [Tick(c, true)]);
    ReceivedAtTick(y, start, inputs, c);
    hide After, Received, ViewAfter, Rendered, HasPlaceholder, ReplacePlaceholder, NoticeText, Displayed;
  }

  lemma ReceivedAtTick(y: Style, start: int, inputs: seq<Input>, c: Clock)
    ensures Received(y, start, inputs + [Tick(c, true)]) == Received(y, start, inputs)
  {
    hide After;
    assert (inputs + [Tick(c, true)])[..|inputs|] == inputs;
    AppendNothing(Received(y, start, inputs));
  }

  /** The flag goes up with an event that changes what is rendered from, and no other changes it. */
  lemma {:induction false} EventRaisesFlag(y: Style, start: int, inputs: seq<Input>, e: RenderEvent, now: int)
    requires After(y, start, inputs).result == None
    ensures var s, t := After(y, start, inputs), After(y, start, inputs + [Event(e, now)]);
            && t.dirty == (s.dirty || Progresses(y, s.view, e))
            && t.shown == s.shown && t.result == None
            && t.view == ViewAfter(y.wording, Received(y, start, inputs) + [e])
  {
    AfterSnoc(y, start, inputs, Event(e, now));
    ViewIsOfReceived(y, start, inputs);
    ViewSnoc(y.wording, Received(y, start, inputs), e);
    hide After, Received, ViewAfter, ApplyTo;
  }

  /** The end of the context ends the loop without success and sends nothing. */
  lemma {:induction false} ContextEnds(y: Style, start: int, inputs: seq<Input>)
    requires After(y, start, inputs).result == None
    ensures After(y, start, inputs + [ContextDone]).result == Some(false)
    ensures After(y, start, inputs + [ContextDone]).shown == After(y, start, inputs).shown
  {
    AfterSnoc(y, start, inputs, ContextDone);
  }
}
