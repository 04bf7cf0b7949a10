/** That a conversation never gets stuck, and which streams are cancelled (bot/opencode_generator.go,
    lines 268-288 and 333-440): whatever the interleaving, the mutex can be passed on to any call
    that waits for it, and any call can return, by steps of its own and of the mutex's holder. */
module PromptProgress {
  import opened Text
  import opened PromptLock

  predicate IsBy(a: Action, g: nat) {
    !a.Arrive? && !a.Reset? && a.g == g
  }

  /** A step of the caller towards its return, in which each of its requests fails. */
  function WayOut(p: Place, g: nat): Action {
    match p
    case Locked => CreateFails(g)
    case Opening(_) => OpenFails(g)
    case Registering(_) => Register(g)
    case Posting(_) => Reject(g, false)
    case AwaitingDone(_, _) => TimeOut(g)
    case PromptFailed(second, stale) => if second || !stale then GiveUp(g) else Recreate(g)
    case Recreating => RecreateFails(g)
    case _ => Arrive
  }

  function StepsLeft(p: Place): nat {
    match p
    case Registering(_) => 6
    case Posting(_) => 5
    case AwaitingDone(_, _) => 4
    case Opening(_) => 4
    case PromptFailed(_, _) => 3
    case Recreating => 1
    case Locked => 1
    case _ => 0
  }

  lemma WayOutStep(s: State, g: nat)
    requires g < |s.calls| && s.calls[g].place != Waiting && s.calls[g].place != Returned
    ensures var a := WayOut(s.calls[g].place, g);
            && IsBy(a, g) && Enabled(s, a) && g < |Do(s, a).calls|
            && var c := Do(s, a).calls[g];
               && c.place != Waiting && StepsLeft(c.place) < StepsLeft(s.calls[g].place)
               && (c.place == Returned ==> c.once)
               && (Do(s, a).lock == s.lock || Do(s, a).lock == None)
  {
  }

  /** The run goes on by steps of call `g` alone, which leave the other calls as they are and
      do not take the mutex. */
  ghost predicate GoesOnBy(r: seq<Action>, s: State, r': seq<Action>, s': State, g: nat) {
    && After(r) == Some(s) && After(r') == Some(s')
    && r <= r' && (forall a :: a in r'[|r|..] ==> IsBy(a, g))
    && |s'.calls| == |s.calls| && (s'.lock == s.lock || s'.lock == None)
    && forall h | 0 <= h < |s.calls| && h != g :: s'.calls[h] == s.calls[h]
  }

  lemma GoOn(r: seq<Action>, s: State, a: Action, g: nat) returns (r': seq<Action>, s': State)
    requires After(r) == Some(s) && Enabled(s, a) && IsBy(a, g)
    requires Do(s, a).lock == s.lock || Do(s, a).lock == None
    ensures r' == r + [a] && s' == Do(s, a) && GoesOnBy(r, s, r', s', g)
  {
    hide Do, LockInvariant;
    LockInvariantHolds(r);
    r', s' := Then(r, s, a);
    StillInRange(s, a);
    HasFit(s, g);
    forall h | 0 <= h < |s.calls| && h != g ensures s'.calls[h] == s.calls[h] { OthersKept(s, a, h); }
    assert r'[|r|..] == [a];
    hide After, CallFits;
  }

  lemma HasFit(s: State, g: nat)
    requires LockInvariant(s)
    ensures g < |s.calls| ==> CallFits(s, g)
  {
  }

  lemma GoesOnFurther(
    r: seq<Action>, s: State, r': seq<Action>, s': State, r'': seq<Action>, s'': State, g: nat)
    requires GoesOnBy(r, s, r', s', g) && GoesOnBy(r', s', r'', s'', g)
    ensures GoesOnBy(r, s, r'', s'', g)
  {
    hide After, IsBy;
    assert r''[|r|..] == r'[|r|..] + r''[|r'|..];
  }

  /** A caller past the mutex can return by its own steps, giving the mutex up. */
  lemma {:induction false} Leave(r: seq<Action>, s: State, g: nat) returns (r': seq<Action>, s': State)
    requires After(r) == Some(s) && g < |s.calls| && s.calls[g].place != Waiting
    ensures GoesOnBy(r, s, r', s', g) && s'.calls[g].place == Returned
    ensures if s.calls[g].place == Returned then r' == r && s' == s else s'.calls[g].once
    decreases StepsLeft(s.calls[g].place)
  {
    hide Do, Enabled, After, StepsLeft, WayOut, GoesOnBy;
    if s.calls[g].place == Returned {
      r', s' := r, s;
      StaysPut(r, s, g);
    } else {
      WayOutStep(s, g);
      var r1, s1 := GoOn(r, s, WayOut(s.calls[g].place, g), g);
      RunIs(r, s, r1, s1, g);
      r', s' := Leave(r1, s1, g);
      GoesOnFurther(r, s, r1, s1, r', s', g);
      InRange(r, s, r', s', g);
    }
  }

  lemma StaysPut(r: seq<Action>, s: State, g: nat)
    requires After(r) == Some(s)
    ensures GoesOnBy(r, s, r, s, g)
  {
  }

  lemma RunIs(r: seq<Action>, s: State, r': seq<Action>, s': State, g: nat)
    requires GoesOnBy(r, s, r', s', g)
    ensures After(r') == Some(s')
  {
  }

  lemma InRange(r: seq<Action>, s: State, r': seq<Action>, s': State, g: nat)
    requires GoesOnBy(r, s, r', s', g)
    ensures |s'.calls| == |s.calls|
  {
  }

  /** And the mutex can be given up by steps of its holder alone. */
  lemma {:induction false} HolderUnlocks(r: seq<Action>, s: State, h: nat) returns (r': seq<Action>, s': State)
    requires After(r) == Some(s) && s.lock == Some(h)
    ensures h < |s.calls| && GoesOnBy(r, s, r', s', h) && s'.lock == None
    ensures h < |s'.calls| && s'.calls[h].place == Returned
  {
    hide Do, Enabled, After, GoesOnBy;
    LockInvariantHolds(r);
    HolderIsPast(s, h);
    r', s' := Leave(r, s, h);
    RunIs(r, s, r', s', h);
    InRange(r, s, r', s', h);
    LockInvariantHolds(r');
    LockHeldBy(r, s, r', s', h);
    if s'.lock != None {
      StreamStillHolds(s', h);
      if s'.calls[h].first.phase == Consuming {
        var r1, s1 := GoOn(r', s', CloseBody(h, false), h);
        GoesOnFurther(r, s, r', s', r1, s1, h);
        RunIs(r, s, r1, s1, h);
        r', s' := r1, s1;
      }
      StreamUnlocks(s', h);
      var r2, s2 := GoOn(r', s', StreamUnlock(h, false), h);
      GoesOnFurther(r, s, r', s', r2, s2, h);
      r', s' := r2, s2;
    }
  }

  lemma HolderIsPast(s: State, h: nat)
    requires LockInvariant(s) && s.lock == Some(h)
    ensures h < |s.calls| && s.calls[h].place != Waiting
  {
    HasFit(s, h);
  }

  lemma LockHeldBy(r: seq<Action>, s: State, r': seq<Action>, s': State, h: nat)
    requires GoesOnBy(r, s, r', s', h) && s.lock == Some(h)
    ensures s'.lock == Some(h) || s'.lock == None
  {
  }

  lemma StreamStillHolds(s: State, h: nat)
    requires LockInvariant(s) && s.lock == Some(h) && h < |s.calls| && s.calls[h].place == Returned
    ensures !s.calls[h].once && s.calls[h].first.phase in {Consuming, BodyClosed}
    ensures s.calls[h].first.phase == Consuming ==>
              && Enabled(s, CloseBody(h, false))
              && var t := Do(s, CloseBody(h, false));
                 && t.lock == s.lock && h < |t.calls|
                 && t.calls[h] == s.calls[h].(first := s.calls[h].first.(phase := BodyClosed))
  {
    HasFit(s, h);
  }

  lemma StreamUnlocks(s: State, h: nat)
    requires h < |s.calls| && s.calls[h].first.phase == BodyClosed && !s.calls[h].once
    ensures Enabled(s, StreamUnlock(h, false)) && Do(s, StreamUnlock(h, false)).lock == None
    ensures h < |Do(s, StreamUnlock(h, false)).calls|
    ensures Do(s, StreamUnlock(h, false)).calls[h].place == s.calls[h].place
  {
  }

  lemma OtherKept(r: seq<Action>, s: State, r': seq<Action>, s': State, h: nat, g: nat)
    requires GoesOnBy(r, s, r', s', h) && g != h && g < |s.calls|
    ensures g < |s'.calls| && s'.calls[g] == s.calls[g]
  {
  }

  /** In every interleaving a call that waits for the mutex can get it, once its holder alone has
      taken some steps. */
  lemma {:induction false} WaitingCallGetsMutex(actions: seq<Action>, g: nat) returns (more: seq<Action>, s: State)
    requires After(actions).Some? && g < |After(actions).value.calls|
    requires After(actions).value.calls[g].place == Waiting
    ensures After(actions + more) == Some(s)
    ensures g < |s.calls| && s.lock == Some(g) && s.calls[g].place == Locked
    ensures forall a :: a in more ==>
              a == Acquire(g) || (!a.Arrive? && !a.Reset? && After(actions).value.lock == Some(a.g))
  {
    hide Enabled, After, GoesOnBy, LockInvariant;
    var s0 := After(actions).value;
    var r, s1 := actions, s0;
    StaysPut(r, s0, g);
    if s0.lock.Some? {
      LockInvariantHolds(actions);
      HolderIsPast(s0, s0.lock.value);
      r, s1 := HolderUnlocks(actions, s0, s0.lock.value);
      RunIs(actions, s0, r, s1, s0.lock.value);
      OtherKept(actions, s0, r, s1, s0.lock.value, g);
      OwnSteps(actions, s0, r, s1, s0.lock.value);
    }
    TakesMutex(s1, g);
    var r2;
    r2, s := Then(r, s1, Acquire(g));
    more := r[|actions|..] + [Acquire(g)];
    assert actions <= r by { if s0.lock.Some? { OwnSteps(actions, s0, r, s1, s0.lock.value); } }
    assert actions + more == r2;
  }

  lemma OwnSteps(r: seq<Action>, s: State, r': seq<Action>, s': State, g: nat)
    requires GoesOnBy(r, s, r', s', g)
    ensures r <= r' && forall a :: a in r'[|r|..] ==> IsBy(a, g)
  {
  }

  lemma TakesMutex(s: State, g: nat)
    requires g < |s.calls| && s.calls[g].place == Waiting && s.lock == None
    ensures Enabled(s, Acquire(g)) && g < |Do(s, Acquire(g)).calls|
    ensures Do(s, Acquire(g)).lock == Some(g) && Do(s, Acquire(g)).calls[g].place == Locked
  {
  }

  /** So in every interleaving any call can return and leave the mutex free, by steps of its own
      and of the mutex's holder. */
  lemma {:induction false} EveryCallCanReturn(actions: seq<Action>, g: nat) returns (more: seq<Action>, s: State)
    requires After(actions).Some? && g < |After(actions).value.calls|
    ensures After(actions + more) == Some(s)
    ensures g < |s.calls| && s.calls[g].place == Returned && s.lock == None
    ensures forall a :: a in more ==>
              !a.Arrive? && !a.Reset? && (a.g == g || After(actions).value.lock == Some(a.g))
  {
    hide Enabled, Do, After, GoesOnBy, LockInvariant;
    var s0 := After(actions).value;
    more, s := [], s0;
    AppendNothing(actions);
    if s0.calls[g].place == Waiting {
      more, s := WaitingCallGetsMutex(actions, g);
    }
    var r, s1 := Leave(actions + more, s, g);
    more, s := LeaveIs(actions, more, s, r, s1, g);
    if s.lock.Some? {
      var h := s.lock.value;
      var r2, s2 := HolderUnlocks(actions + more, s, h);
      if h != g { OtherKept(actions + more, s, r2, s2, h, g); }
      more, s := LeaveIs(actions, more, s, r2, s2, h);
    }
  }

  lemma LeaveIs(r: seq<Action>, more: seq<Action>, s: State, r': seq<Action>, s': State, g: nat)
    returns (all: seq<Action>, s'': State)
    requires GoesOnBy(r + more, s, r', s', g)
    ensures r + all == r' && s'' == s' && After(r') == Some(s')
    ensures |s'.calls| == |s.calls| && (s'.lock == s.lock || s'.lock == None)
    ensures forall a :: a in all ==> a in more || IsBy(a, g)
  {
    hide After, IsBy;
    all, s'' := more + r'[|r + more|..], s';
    assert r + all == r';
  }

  // ----- which streams are cancelled -----

  /** A failed prompt has cancelled the stream of its attempt, if that was opened at all; any other
      stream is cancelled by a reset, or when its goroutine ends. */
  predicate CancelFits(c: Call) {
    && (c.place.AwaitingDone? ==> StreamOf(c, c.place.second).cancelled)
    && (c.place.PromptFailed? ==> StreamOf(c, c.place.second) == NoStream || StreamOf(c, c.place.second).cancelled)
    && (c.first.cancelled ==> c.first.wasReset || c.first.phase == Finished || c.rejected)
    && (c.second.cancelled && c.place in {Registering(true), Posting(true)} ==>
          c.second.wasReset || c.second.phase == Finished)
  }

  lemma PhaseCancel(c: Call, second: bool, p: Phase)
    requires CancelFits(c) && StreamOf(c, second).phase !in {Unopened, Finished}
    ensures CancelFits(WithPhase(c, second, p)) && CancelFits(WithPhase(AfterUnlock(c), second, p))
  {
  }

  lemma CloseCancel(c: Call, second: bool)
    requires CancelFits(c) && StreamOf(c, second).phase == Cleared
    ensures CancelFits(WithStream(c, second, StreamOf(c, second).(phase := Finished, cancelled := true)))
  {
  }

  lemma StreamCancelStep(s: State, a: Action)
    requires Enabled(s, a) && IsStreamAction(a) && CancelFits(s.calls[a.g])
    ensures a.g < |Do(s, a).calls| && CancelFits(Do(s, a).calls[a.g])
  {
    hide CancelFits;
    var c := s.calls[a.g];
    if a.CloseStream? {
      CloseCancel(c, a.second);
    } else {
      var p := if a.CloseBody? then BodyClosed else if a.StreamUnlock? then Unlocked else Cleared;
      PhaseCancel(c, a.second, p);
      assert Do(s, a).calls[a.g] == WithPhase(if a.StreamUnlock? then AfterUnlock(c) else c, a.second, p);
    }
  }

  lemma FailureCancelStep(s: State, a: Action)
    requires Enabled(s, a) && IsFailureAction(a) && CancelFits(s.calls[a.g])
    ensures a.g < |Do(s, a).calls| && CancelFits(Do(s, a).calls[a.g])
  {
  }

  /** An attempt has no stream until it opens one. */
  lemma OpeningHasNone(s: State, g: nat)
    requires g < |s.calls| && CallFits(s, g)
    ensures var c := s.calls[g];
            && (c.place.Opening? ==> StreamOf(c, c.place.second) == NoStream)
            && (c.place in {Waiting, Locked} ==> c.first == c.second == NoStream)
  {
  }

  lemma CallerCancelStep(s: State, a: Action)
    requires Enabled(s, a) && !a.Arrive? && !a.Reset? && !IsStreamAction(a) && !IsFailureAction(a)
    requires CallFits(s, a.g) && CancelFits(s.calls[a.g])
    ensures a.g < |Do(s, a).calls| && CancelFits(Do(s, a).calls[a.g])
  {
    OpeningHasNone(s, a.g);
    hide CallFits;
  }

  lemma OwnCancelStep(s: State, a: Action)
    requires Enabled(s, a) && !a.Arrive? && !a.Reset? && a.g < |s.calls|
    requires CallFits(s, a.g) && CancelFits(s.calls[a.g])
    ensures a.g < |Do(s, a).calls| && CancelFits(Do(s, a).calls[a.g])
  {
    hide Enabled, Do, CallFits, CancelFits;
    if IsStreamAction(a) {
      StreamCancelStep(s, a);
    } else if IsFailureAction(a) {
      FailureCancelStep(s, a);
    } else {
      CallerCancelStep(s, a);
    }
  }

  lemma ResetCancelStep(s: State, g: nat)
    requires LockInvariant(s) && g < |s.calls| && CancelFits(s.calls[g])
    ensures g < |Do(s, Reset).calls| && CancelFits(Do(s, Reset).calls[g])
  {
    HasFit(s, g);
    hide LockInvariant, PlaceFits;
  }

  lemma NewCallCancel(s: State)
    ensures Do(s, Arrive).calls[..|s.calls|] == s.calls && |Do(s, Arrive).calls| == |s.calls| + 1
    ensures CancelFits(Do(s, Arrive).calls[|s.calls|])
  {
  }

  lemma {:induction false} CancelsFit(actions: seq<Action>, g: nat)
    requires After(actions).Some? && g < |After(actions).value.calls|
    ensures CancelFits(After(actions).value.calls[g])
  {
    hide Enabled, Do, CallFits, CancelFits, LockInvariant;
    if actions != [] {
      var before, a := actions[..|actions| - 1], actions[|actions| - 1];
      var s := After(before).value;
      LockInvariantHolds(before);
      StillInRange(s, a);
      HasFit(s, g);
      if a.Arrive? {
        NewCallCancel(s);
        if g < |s.calls| {
          CancelsFit(before, g);
          assert Do(s, Arrive).calls[..|s.calls|][g] == s.calls[g];
        }
      } else {
        CancelsFit(before, g);
        if a.Reset? {
          ResetCancelStep(s, g);
        } else if a.g == g {
          OwnCancelStep(s, a);
        } else {
          EnabledInRange(s, a);
          HasFit(s, a.g);
          OthersKept(s, a, g);
        }
      }
    }
  }

  lemma EnabledInRange(s: State, a: Action)
    requires Enabled(s, a) && !a.Arrive? && !a.Reset?
    ensures a.g < |s.calls|
  {
  }

  /** In every interleaving: once a prompt has failed its stream is cancelled, in either attempt,
      and the stream of an accepted first attempt goes on unless a reset cancels it. */
  lemma {:induction false} OnlyFailedPromptsCancel(actions: seq<Action>, g: nat)
    requires After(actions).Some? && g < |After(actions).value.calls|
    ensures var c := After(actions).value.calls[g];
            && (c.place.AwaitingDone? || (c.place.PromptFailed? && StreamOf(c, c.place.second).phase != Unopened) ==>
                  StreamOf(c, c.place.second).cancelled)
            && (c.rejected ==> c.first.cancelled)
            && (c.place == Returned && !c.rejected && c.first.cancelled ==>
                  c.first.wasReset || c.first.phase == Finished)
  {
    CancelsFit(actions, g);
    LockInvariantHolds(actions);
    HasFit(After(actions).value, g);
    hide After, PlaceFits;
  }
}
