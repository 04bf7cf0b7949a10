/** Which session a conversation refers to while calls overlap (bot/opencode_generator.go, lines
    51-69, 146-155, 290-318 and 417-434).  A first attempt reads and sets the session id under the
    prompt lock; a stale retry clears and sets it after the lock may have gone to another call.

    The slot is followed along a run of `PromptLock`; the server's ids are fresh numbers. */
module SessionSlot {
  import opened Text
  import opened PromptLock

  datatype Session = Session(id: nat, byRetry: bool)

  /** `read` is what each call found on taking the lock, `own` the session it prompts. */
  datatype Slot = Slot(current: Option<Session>, created: nat, read: map<nat, bool>, own: map<nat, nat>)

  const Unset := Slot(None, 0, map[], map[])

  function Create(t: Slot, g: nat, byRetry: bool): Slot {
    t.(current := Some(Session(t.created, byRetry)), created := t.created + 1, own := t.own[g := t.created])
  }

  function ClearIfMatch(t: Slot, g: nat): Slot {
    if t.current.Some? && g in t.own && t.current.value.id == t.own[g] then t.(current := None) else t
  }

  function Reuse(t: Slot, g: nat): Slot {
    if t.current.Some? then t.(own := t.own[g := t.current.value.id]) else t
  }

  /** A call reads the id with its `Acquire`; one that reads it later acquires later in the run. */
  function Next(s: State, t: Slot, a: Action): Slot
    requires Enabled(s, a)
  {
    match a
    case Acquire(g) => Reuse(t.(read := t.read[g := t.current.Some?]), g)
    case SessionReady(g) => if g in t.read && t.read[g] then t else Create(t, g, false)
    case Recreate(g) => ClearIfMatch(t, g)
    case Reopen(g) => Create(t, g, true)
    case GiveUp(g) => if s.calls[g].place == PromptFailed(true, true) then ClearIfMatch(t, g) else t
    case Reset => t.(current := None)
    case _ => t
  }

  function SlotAfter(actions: seq<Action>): Slot
    requires After(actions).Some?
  {
    if actions == [] then Unset
    else
      var before := actions[..|actions| - 1];
      Next(After(before).value, SlotAfter(before), actions[|actions| - 1])
  }

  /** The action replaces a session that is current, and so leaves it running without a name. */
  predicate Displaces(t: Slot, a: Action) {
    t.current.Some? && (a.Reopen? || (a.SessionReady? && !(a.g in t.read && t.read[a.g])))
  }

  predicate SetsUp(p: Place) {
    p == Waiting || p == Locked || p == Returned
  }

  predicate SlotFits(s: State, t: Slot, g: nat)
    requires g < |s.calls|
  {
    var p := s.calls[g].place;
    && (p == Locked ==> g in t.read && (t.read[g] ==> g in t.own))
    && (p == Locked && !t.read[g] && t.current.Some? ==> t.current.value.byRetry)
    && (!SetsUp(p) ==> g in t.own)
    && (p == Recreating && t.current.Some? ==> t.current.value.id != t.own[g])
  }

  ghost predicate SlotInvariant(s: State, t: Slot) {
    && (t.current.Some? ==> t.current.value.id < t.created)
    && (forall g :: g in t.own ==> t.own[g] < t.created)
    && forall g | 0 <= g < |s.calls| :: SlotFits(s, t, g)
  }

  /** What a step does to the place of a call. */
  lemma PlaceKept(s: State, a: Action, g: nat)
    requires Enabled(s, a) && g < |s.calls| && (a.Arrive? || a.Reset? || a.g != g)
    ensures g < |Do(s, a).calls| && Do(s, a).calls[g].place == s.calls[g].place
  {
  }

  lemma OwnPlace(s: State, a: Action)
    requires Enabled(s, a) && !a.Arrive? && !a.Reset?
    ensures a.g < |Do(s, a).calls|
    ensures var p, p' := s.calls[a.g].place, Do(s, a).calls[a.g].place;
            && (p' == Locked <==> a.Acquire? || (p == Locked && p' == p))
            && (p == Locked ==> a.SessionReady? || a.CreateFails? || p' == p)
            && (p' == Recreating <==> a.Recreate? || (p == Recreating && p' == p))
            && (SetsUp(p) && !SetsUp(p') ==> a.SessionReady?)
            && (a.SessionReady? ==> !SetsUp(p') && p' != Recreating)
            && (a.Reopen? ==> p' == Opening(true))
            && (a.GiveUp? ==> p' == Returned)
  {
  }

  /** Only the holder of the lock is setting up its session. */
  lemma OneSetsUp(s: State, g: nat, h: nat)
    requires LockInvariant(s) && g < |s.calls| && h < |s.calls|
    requires s.calls[g].place == Locked && s.calls[h].place == Locked
    ensures g == h
  {
    assert CallFits(s, g) && CallFits(s, h);
  }

  lemma OthersSlot(s: State, t: Slot, a: Action, g: nat)
    requires Enabled(s, a) && LockInvariant(s) && SlotInvariant(s, t)
    requires g < |s.calls| && (a.Arrive? || a.Reset? || a.g != g)
    ensures g < |Do(s, a).calls| && SlotFits(Do(s, a), Next(s, t, a), g)
  {
    assert SlotFits(s, t, g);
    PlaceKept(s, a, g);
    if a.SessionReady? && s.calls[g].place == Locked { OneSetsUp(s, g, a.g); }
    hide Do, LockInvariant;
  }

  lemma OwnSlot(s: State, t: Slot, a: Action)
    requires Enabled(s, a) && SlotInvariant(s, t) && !a.Arrive? && !a.Reset?
    ensures a.g < |Do(s, a).calls| && SlotFits(Do(s, a), Next(s, t, a), a.g)
  {
    assert SlotFits(s, t, a.g);
    OwnPlace(s, a);
    hide Do;
  }

  lemma SlotStep(s: State, t: Slot, a: Action)
    requires Enabled(s, a) && LockInvariant(s) && SlotInvariant(s, t)
    ensures SlotInvariant(Do(s, a), Next(s, t, a))
  {
    hide Do, LockInvariant, SlotFits;
    StillInRange(s, a);
    forall g | 0 <= g < |Do(s, a).calls| ensures SlotFits(Do(s, a), Next(s, t, a), g) {
      if g == |s.calls| {
        NewCall(s, t);
      } else if a.Arrive? || a.Reset? || a.g != g {
        OthersSlot(s, t, a, g);
      } else {
        OwnSlot(s, t, a);
      }
    }
  }

  lemma NewCall(s: State, t: Slot)
    ensures SlotFits(Do(s, Arrive), t, |s.calls|)
  {
  }

  lemma {:induction false} SlotHolds(actions: seq<Action>)
    requires After(actions).Some?
    ensures SlotInvariant(After(actions).value, SlotAfter(actions))
  {
    hide Enabled, Do, Next, LockInvariant, SlotFits;
    if actions != [] {
      var before := actions[..|actions| - 1];
      SlotHolds(before);
      LockInvariantHolds(before);
      SlotStep(After(before).value, SlotAfter(before), actions[|actions| - 1]);
    }
  }

  /** In every interleaving a current session is displaced only by a stale retry, which then
      displaces a session other than the stale one, or by a call that read the empty slot before a
      retry filled it. */
  lemma {:induction false} DisplacementNeedsRetry(actions: seq<Action>, a: Action)
    requires After(actions).Some? && Enabled(After(actions).value, a) && Displaces(SlotAfter(actions), a)
    ensures var t := SlotAfter(actions);
            if a.Reopen? then a.g in t.own && t.current.value.id != t.own[a.g] else t.current.value.byRetry
  {
    SlotHolds(actions);
    hide After, SlotAfter;
    assert SlotFits(After(actions).value, SlotAfter(actions), a.g);
  }

  lemma {:induction false} ByRetryNeedsReopen(actions: seq<Action>)
    requires After(actions).Some? && SlotAfter(actions).current.Some? && SlotAfter(actions).current.value.byRetry
    ensures exists b :: b in actions && b.Reopen?
  {
    hide Enabled, Do;
    var n := |actions| - 1;
    if actions[n].Reopen? {
      assert actions[n] in actions;
    } else {
      ByRetryNeedsReopen(actions[..n]);
    }
  }

  /** So while no stale session is retried, none is displaced. */
  lemma {:induction false} NoRetryNoDisplacement(actions: seq<Action>, a: Action)
    requires After(actions).Some? && Enabled(After(actions).value, a)
    requires !a.Reopen? && forall b :: b in actions ==> !b.Reopen?
    ensures !Displaces(SlotAfter(actions), a)
  {
    hide After, SlotAfter, Enabled;
    if Displaces(SlotAfter(actions), a) {
      DisplacementNeedsRetry(actions, a);
      ByRetryNeedsReopen(actions);
    }
  }

  // ----- what a reset and a stale session leave of the slot -----

  lemma SlotSnoc(actions: seq<Action>, a: Action)
    requires After(actions).Some? && Enabled(After(actions).value, a)
    ensures After(actions + [a]) == Some(Do(After(actions).value, a))
    ensures SlotAfter(actions + [a]) == Next(After(actions).value, SlotAfter(actions), a)
  {
    hide Do, Next, Enabled;
    assert (actions + [a])[..|actions|] == actions;
  }

  lemma RunWasEnabled(actions: seq<Action>, a: Action)
    requires After(actions + [a]).Some?
    ensures After(actions).Some? && Enabled(After(actions).value, a)
  {
    hide Do, Enabled;
    assert (actions + [a])[..|actions|] == actions;
  }

  /** Only sessions from `n` on are referred to, but by the calls that already had another. */
  ghost predicate Renewed(t: Slot, n: nat, own: map<nat, nat>) {
    && n <= t.created
    && (t.current.Some? ==> t.current.value.id >= n)
    && forall g :: g in t.own ==> t.own[g] >= n || (g in own && own[g] == t.own[g])
  }

  lemma RenewedStep(s: State, t: Slot, a: Action, n: nat, own: map<nat, nat>)
    requires Enabled(s, a) && Renewed(t, n, own)
    ensures Renewed(Next(s, t, a), n, own)
  {
    hide Enabled;
  }

  /** After a reset neither the conversation nor any call that takes its session later refers to
      a session created before it: the calls that still do had it already. */
  lemma {:induction false} ResetForgetsSessions(actions: seq<Action>, more: seq<Action>)
    requires After(actions + [Reset] + more).Some?
    ensures After(actions).Some?
    ensures var earlier, t := SlotAfter(actions), SlotAfter(actions + [Reset] + more);
            && (t.current.Some? ==> t.current.value.id >= earlier.created)
            && (forall g :: g in t.own ==>
                  t.own[g] >= earlier.created || (g in earlier.own && earlier.own[g] == t.own[g]))
  {
    RenewedHolds(actions, more);
    hide After, SlotAfter;
  }

  lemma {:induction false} RenewedHolds(actions: seq<Action>, more: seq<Action>)
    requires After(actions + [Reset] + more).Some?
    ensures After(actions).Some?
    ensures Renewed(SlotAfter(actions + [Reset] + more), SlotAfter(actions).created, SlotAfter(actions).own)
    decreases |more|
  {
    hide Enabled, Do, Next, After, SlotAfter, Renewed;
    if more == [] {
      assert actions + [Reset] + [] == actions + [Reset];
      RunWasEnabled(actions, Reset);
      SlotSnoc(actions, Reset);
      RenewedByReset(After(actions).value, SlotAfter(actions));
    } else {
      var before, a := more[..|more| - 1], more[|more| - 1];
      assert actions + [Reset] + more == actions + [Reset] + before + [a];
      RunWasEnabled(actions + [Reset] + before, a);
      RenewedHolds(actions, before);
      SlotSnoc(actions + [Reset] + before, a);
      RenewedStep(After(actions + [Reset] + before).value, SlotAfter(actions + [Reset] + before), a,
                  SlotAfter(actions).created, SlotAfter(actions).own);
    }
  }

  lemma RenewedByReset(s: State, t: Slot)
    ensures Enabled(s, Reset) && Renewed(Next(s, t, Reset), t.created, t.own)
  {
  }

  /** Whoever finds its session stale, before a retry or after one, leaves the slot without that
      session, and with any other that has taken its place. */
  lemma {:induction false} StaleSessionIsDropped(actions: seq<Action>, a: Action)
    requires After(actions).Some? && Enabled(After(actions).value, a)
    requires a.Recreate? || (a.GiveUp? && After(actions).value.calls[a.g].place == PromptFailed(true, true))
    ensures a.g in SlotAfter(actions).own && SlotAfter(actions + [a]).own == SlotAfter(actions).own
    ensures var t, t', id := SlotAfter(actions), SlotAfter(actions + [a]), SlotAfter(actions).own[a.g];
            && (t'.current.Some? ==> t'.current.value.id != id)
            && (t.current.Some? && t.current.value.id != id ==> t'.current == t.current)
  {
    SlotHolds(actions);
    SlotSnoc(actions, a);
    hide After, SlotAfter, Do;
    assert SlotFits(After(actions).value, SlotAfter(actions), a.g);
  }

  /** A call takes the session it finds on taking the lock, and keeps it when it goes on to prompt;
      one that finds none prompts a session never created before, and leaves it in the slot. */
  lemma {:induction false} CallTakesSession(actions: seq<Action>, g: nat)
    requires After(actions).Some?
    ensures var s, t := After(actions).value, SlotAfter(actions);
            && (Enabled(s, Acquire(g)) && t.current.Some? ==>
                  var t' := SlotAfter(actions + [Acquire(g)]);
                  g in t'.own && t'.own[g] == t.current.value.id && t'.current == t.current)
            && (Enabled(s, SessionReady(g)) ==>
                  var t' := SlotAfter(actions + [SessionReady(g)]);
                  && g in t.read && g in t'.own
                  && if t.read[g] then t' == t
                     else t'.own[g] == t.created < t'.created && t'.current == Some(Session(t'.own[g], false)))
  {
    SlotHolds(actions);
    if Enabled(After(actions).value, Acquire(g)) { SlotSnoc(actions, Acquire(g)); }
    if Enabled(After(actions).value, SessionReady(g)) {
      SlotSnoc(actions, SessionReady(g));
      assert SlotFits(After(actions).value, SlotAfter(actions), g);
    }
    hide After, SlotAfter, Do;
  }

  // ----- a run that displaces a session -----

  lemma ThenSlot(actions: seq<Action>, s: State, t: Slot, a: Action) returns (next: seq<Action>, s': State, t': Slot)
    requires After(actions) == Some(s) && SlotAfter(actions) == t && Enabled(s, a)
    ensures next == actions + [a] && s' == Do(s, a) && t' == Next(s, t, a)
    ensures After(next) == Some(s') && SlotAfter(next) == t'
  {
    next, s', t' := actions + [a], Do(s, a), Next(s, t, a);
    assert next[..|actions|] == actions;
  }

  lemma StartSlot()
    ensures After([]) == Some(Start) && SlotAfter([]) == Unset
  {
  }

  lemma PostingSlot() returns (r: seq<Action>, s: State, t: Slot)
    ensures After(r) == Some(s) && SlotAfter(r) == t
    ensures s == State([Call(Posting(false), false, 0, false, false, Stream(Consuming, 1, false, false), NoStream)],
                       Some(0), false, Some(Handle(0, false)), 1)
    ensures t == Slot(Some(Session(0, false)), 1, map[0 := false], map[0 := 0])
  {
    StartSlot();
    hide After, SlotAfter;
    r, s, t := ThenSlot([], Start, Unset, Arrive);
    r, s, t := ThenSlot(r, s, t, Acquire(0));
    r, s, t := ThenSlot(r, s, t, SessionReady(0));
    r, s, t := ThenSlot(r, s, t, OpenStream(0));
    r, s, t := ThenSlot(r, s, t, Register(0));
  }

  lemma StaleRun() returns (r: seq<Action>, s: State, t: Slot)
    ensures After(r) == Some(s) && SlotAfter(r) == t
    ensures s == State([Call(Recreating, true, 1, true, true, Stream(Consuming, 1, true, false), NoStream)],
                       None, false, Some(Handle(0, false)), 1)
    ensures t == Slot(None, 1, map[0 := false], map[0 := 0])
  {
    r, s, t := PostingSlot();
    hide After, SlotAfter;
    r, s, t := ThenSlot(r, s, t, Reject(0, true));
    r, s, t := ThenSlot(r, s, t, TimeOut(0));
    r, s, t := ThenSlot(r, s, t, Recreate(0));
  }

  /** Call 0 finds its session stale and times out, call 1 creates one and its prompt is
      accepted, then the retry of call 0 replaces it. */
  lemma {:induction false} RetryDisplacesSession()
    ensures exists actions, g ::
              && After(actions).Some? && Enabled(After(actions).value, Reopen(0))
              && Displaces(SlotAfter(actions), Reopen(0))
              && g in SlotAfter(actions).own && g < |After(actions).value.calls| && g != 0
              && SlotAfter(actions).current == Some(Session(SlotAfter(actions).own[g], false))
              && After(actions).value.calls[g].place == Returned && !After(actions).value.calls[g].rejected
  {
    var r, s, t := StaleRun();
    hide After, SlotAfter;
    r, s, t := ThenSlot(r, s, t, Arrive);
    r, s, t := ThenSlot(r, s, t, Acquire(1));
    r, s, t := ThenSlot(r, s, t, SessionReady(1));
    r, s, t := ThenSlot(r, s, t, OpenStream(1));
    r, s, t := ThenSlot(r, s, t, Register(1));
    r, s, t := ThenSlot(r, s, t, Accept(1));
    assert t.current == Some(Session(t.own[1], false));
  }
}
