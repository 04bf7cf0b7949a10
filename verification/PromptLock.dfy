/** The concurrent protocol of one conversation in bot/opencode_generator.go: prompt lock with
    a once-guard, event-stream goroutines, the 2 s timeout, the stale retry and numbered
    cancel handles (lines 71-96, 268-288, 333-440 and 151-155).

    A state holds every call of `GenerateRenderStream` so far; an action is one atomic step of
    a caller, of one of its stream goroutines, or of a reset, in any interleaving. */
module PromptLock {
  import opened Text

  /** Where a stream goroutine is; its deferred calls run in this order. */
  datatype Phase = Unopened | Opened | Consuming | BodyClosed | Unlocked | Cleared | Finished

  datatype Stream = Stream(phase: Phase, number: nat, cancelled: bool, wasReset: bool)

  const NoStream := Stream(Unopened, 0, false, false)

  /** Where the caller is; `second` tells the stale retry from the first attempt. */
  datatype Place =
    | Waiting
    | Locked
    | Opening(second: bool)
    | Registering(second: bool)
    | Posting(second: bool)
    | AwaitingDone(second: bool, stale: bool)
    | PromptFailed(second: bool, stale: bool)
    | Recreating
    | Returned

  datatype Call = Call(
    place: Place, once: bool, releases: nat, rejected: bool, timedOut: bool, first: Stream, second: Stream)

  datatype Handle = Handle(call: nat, second: bool)

  /** `misuse` records an unlock of the mutex by a call that does not hold it. */
  datatype State = State(calls: seq<Call>, lock: Option<nat>, misuse: bool, active: Option<Handle>, activeN: nat)

  const Start := State([], None, false, None, 0)

  datatype Action =
    | Arrive
    | Acquire(g: nat)
    | SessionReady(g: nat)
    | CreateFails(g: nat)
    | OpenFails(g: nat)
    | OpenStream(g: nat)
    | Register(g: nat)
    | Accept(g: nat)
    | Reject(g: nat, stale: bool)
    | SeeDone(g: nat)
    | TimeOut(g: nat)
    | GiveUp(g: nat)
    | Recreate(g: nat)
    | RecreateFails(g: nat)
    | Reopen(g: nat)
    | CloseBody(g: nat, second: bool)
    | StreamUnlock(g: nat, second: bool)
    | ClearHandle(g: nat, second: bool)
    | CloseStream(g: nat, second: bool)
    | Reset

  function StreamOf(c: Call, second: bool): Stream {
    if second then c.second else c.first
  }

  function WithStream(c: Call, second: bool, t: Stream): Call {
    if second then c.(second := t) else c.(first := t)
  }

  function Put(s: State, g: nat, c: Call): State
    requires g < |s.calls|
  {
    s.(calls := s.calls[g := c])
  }

  function Goto(s: State, g: nat, p: Place): State
    requires g < |s.calls|
  {
    Put(s, g, s.calls[g].(place := p))
  }

  function SetPhase(s: State, g: nat, second: bool, p: Phase): State
    requires g < |s.calls|
  {
    Put(s, g, WithStream(s.calls[g], second, StreamOf(s.calls[g], second).(phase := p)))
  }

  /** `unlockConv`. */
  function Unlock(s: State, g: nat): State
    requires g < |s.calls|
  {
    var c := s.calls[g];
    if c.once then s
    else Put(s, g, c.(once := true, releases := c.releases + 1)).(
           lock := None, misuse := s.misuse || s.lock != Some(g))
  }

  predicate Enabled(s: State, a: Action) {
    if a.Arrive? || a.Reset? then true
    else
      a.g < |s.calls| &&
      var c := s.calls[a.g];
      match a
      case Acquire(_) => c.place == Waiting && s.lock == None
      case SessionReady(_) => c.place == Locked
      case CreateFails(_) => c.place == Locked
      case OpenFails(_) => c.place.Opening?
      case OpenStream(_) => c.place.Opening?
      case Register(_) => c.place.Registering?
      case Accept(_) => c.place.Posting?
      case Reject(_, _) => c.place.Posting?
      case SeeDone(_) => c.place.AwaitingDone? && StreamOf(c, c.place.second).phase == Finished
      case TimeOut(_) => c.place.AwaitingDone?
      case GiveUp(_) => c.place.PromptFailed? && (c.place.second || !c.place.stale)
      case Recreate(_) => c.place == PromptFailed(false, true)
      case RecreateFails(_) => c.place == Recreating
      case Reopen(_) => c.place == Recreating
      case CloseBody(_, k) => StreamOf(c, k).phase == Consuming
      case StreamUnlock(_, k) => StreamOf(c, k).phase == BodyClosed
      case ClearHandle(_, k) => StreamOf(c, k).phase == Unlocked
      case CloseStream(_, k) => StreamOf(c, k).phase == Cleared
      case _ => true
  }

  function Do(s: State, a: Action): State
    requires Enabled(s, a)
  {
    match a
    case Arrive => s.(calls := s.calls + [Call(Waiting, false, 0, false, false, NoStream, NoStream)])
    case Acquire(g) => Goto(s, g, Locked).(lock := Some(g))
    case SessionReady(g) => Goto(s, g, Opening(false))
    case CreateFails(g) => Goto(Unlock(s, g), g, Returned)
    case OpenFails(g) => Goto(s, g, PromptFailed(s.calls[g].place.second, false))
    case OpenStream(g) =>
      var k := s.calls[g].place.second;
      Goto(SetPhase(s, g, k, Opened), g, Registering(k))
    case Register(g) =>
      var k := s.calls[g].place.second;
      var t := StreamOf(s.calls[g], k).(phase := Consuming, number := s.activeN + 1);
      Goto(Put(s, g, WithStream(s.calls[g], k, t)), g, Posting(k)).(
        active := Some(Handle(g, k)), activeN := s.activeN + 1)
    case Accept(g) => Goto(s, g, Returned)
    case Reject(g, stale) =>
      var c := s.calls[g];
      var k := c.place.second;
      var t := StreamOf(c, k).(cancelled := true);
      Put(s, g, WithStream(c, k, t).(rejected := true, place := AwaitingDone(k, stale)))
    case SeeDone(g) => Goto(s, g, PromptFailed(s.calls[g].place.second, s.calls[g].place.stale))
    case TimeOut(g) =>
      var t := Unlock(s, g);
      var c := t.calls[g];
      Put(t, g, c.(timedOut := true, place := PromptFailed(c.place.second, c.place.stale)))
    case GiveUp(g) => Goto(Unlock(s, g), g, Returned)
    case Recreate(g) => Goto(s, g, Recreating)
    case RecreateFails(g) => Goto(Unlock(s, g), g, Returned)
    case Reopen(g) => Goto(s, g, Opening(true))
    case CloseBody(g, k) => SetPhase(s, g, k, BodyClosed)
    case StreamUnlock(g, k) => SetPhase(Unlock(s, g), g, k, Unlocked)
    case ClearHandle(g, k) =>
      var t := SetPhase(s, g, k, Cleared);
      if s.activeN == StreamOf(s.calls[g], k).number then t.(active := None) else t
    case CloseStream(g, k) =>
      var c := s.calls[g];
      Put(s, g, WithStream(c, k, StreamOf(c, k).(phase := Finished, cancelled := true)))
    case Reset =>
      if s.active.None? || s.active.value.call >= |s.calls| then s.(active := None)
      else
        var h := s.active.value;
        var c := s.calls[h.call];
        var t := StreamOf(c, h.second).(cancelled := true, wasReset := true);
        Put(s, h.call, WithStream(c, h.second, t)).(active := None)
  }

  /** The state after a run, if each of its actions was enabled in turn. */
  function After(actions: seq<Action>): Option<State> {
    if actions == [] then Some(Start)
    else
      var s, a := After(actions[..|actions| - 1]), actions[|actions| - 1];
      if s.Some? && Enabled(s.value, a) then Some(Do(s.value, a)) else None
  }

  // ----- the lock -----

  /** The prompt mutex, and which calls have used their once-guarded unlock. */
  class PromptMutex {
    var holder: Option<nat>
    var unlocked: set<nat>

    ghost predicate IsIn(s: State)
      reads this
    {
      holder == s.lock && forall g | 0 <= g < |s.calls| :: g in unlocked <==> s.calls[g].once
    }

    constructor ()
      ensures IsIn(Start)
    {
      holder, unlocked := None, {};
    }

    method Lock(g: nat, ghost s: State)
      requires IsIn(s) && Enabled(s, Acquire(g))
      modifies this`holder
      ensures IsIn(Do(s, Acquire(g)))
    {
      holder := Some(g);
    }

    /** `unlockConv`. */
    method UnlockConv(g: nat, ghost s: State)
      requires IsIn(s) && g < |s.calls|
      modifies this
      ensures IsIn(Unlock(s, g))
    {
      if g !in unlocked {
        unlocked := unlocked + {g};
        holder := None;
      }
    }
  }

  predicate BodyOpen(t: Stream) {
    t.phase in {Opened, Consuming}
  }

  predicate Registered(t: Stream) {
    t.phase !in {Unopened, Opened}
  }

  predicate HasUnlocked(t: Stream) {
    t.phase in {Unlocked, Cleared, Finished}
  }

  /** The stream of the current attempt exists once its caller is past opening it. */
  predicate PlaceFits(c: Call) {
    match c.place
    case Waiting => !c.once && !c.rejected && c.first == NoStream && c.second == NoStream
    case Locked => !c.once && !c.rejected && c.first == NoStream && c.second == NoStream
    case Opening(second) => (if second then c.once && c.rejected else !c.once && !c.rejected) &&
                            StreamOf(c, second) == NoStream && (!second ==> c.second == NoStream)
    case Registering(second) => (if second then c.once && c.rejected else !c.once && !c.rejected) &&
                                StreamOf(c, second).phase == Opened && (!second ==> c.second == NoStream)
    case Posting(second) => StreamOf(c, second).phase !in {Unopened, Opened} &&
                            (if second then c.once && c.rejected else !c.rejected && c.second == NoStream)
    case AwaitingDone(second, _) => c.rejected && StreamOf(c, second).phase !in {Unopened, Opened} &&
                                    (if second then c.once else c.second == NoStream)
    case PromptFailed(second, stale) => (!second ==> c.second == NoStream) && (stale ==> c.once && c.rejected) &&
                                        (c.rejected ==> c.once) &&
                                        (!c.rejected ==> c.first == NoStream && c.second == NoStream)
    case Recreating => c.once && c.rejected && c.second == NoStream
    case Returned => (c.once || c.first.phase in {Consuming, BodyClosed}) && (!c.rejected ==> c.second == NoStream)
  }

  /** The once-guard is up exactly while the call holds the lock, and counts its release. */
  predicate OnceFits(c: Call) {
    && PlaceFits(c)
    && c.releases == (if c.once then 1 else 0)
    && (HasUnlocked(c.first) || HasUnlocked(c.second) ==> c.once)
    && (c.rejected ==> c.first.cancelled)
    && (c.once && !c.rejected ==> !BodyOpen(c.second))
    && (c.once && !c.timedOut ==> !BodyOpen(c.first))
    && (c.second.phase != Unopened ==> c.once)
    && (c.timedOut ==> c.rejected)
    && (c.second.phase == Opened ==> c.place == Registering(true))
    && (c.first.phase == Opened ==> c.place == Registering(false))
  }

  predicate CallFits(s: State, g: nat)
    requires g < |s.calls|
  {
    var c := s.calls[g];
    && OnceFits(c)
    && (s.lock == Some(g) <==> c.place != Waiting && !c.once)
    && (s.active == Some(Handle(g, false)) ==> Registered(c.first))
    && (s.active == Some(Handle(g, true)) ==> Registered(c.second))
  }

  predicate LockInvariant(s: State) {
    && !s.misuse
    && (s.lock.Some? ==> s.lock.value < |s.calls|)
    && (s.active.Some? ==> s.active.value.call < |s.calls|)
    && forall g | 0 <= g < |s.calls| :: CallFits(s, g)
  }

  predicate IsStreamAction(a: Action) {
    a.CloseBody? || a.StreamUnlock? || a.ClearHandle? || a.CloseStream?
  }

  predicate IsFailureAction(a: Action) {
    a.CreateFails? || a.TimeOut? || a.GiveUp? || a.RecreateFails? || a.SeeDone? || a.Reject?
  }

  function AfterUnlock(c: Call): Call {
    if c.once then c else c.(once := true, releases := c.releases + 1)
  }

  function WithPhase(c: Call, second: bool, p: Phase): Call {
    WithStream(c, second, StreamOf(c, second).(phase := p))
  }

  lemma CloseBodyOnce(c: Call, second: bool)
    requires OnceFits(c) && StreamOf(c, second).phase == Consuming
    ensures OnceFits(WithPhase(c, second, BodyClosed))
  {
  }

  lemma UnlockOnce(c: Call, second: bool)
    requires OnceFits(c) && StreamOf(c, second).phase == BodyClosed
    ensures OnceFits(WithPhase(AfterUnlock(c), second, Unlocked)) && c.place != Waiting
  {
  }

  lemma ClearOnce(c: Call, second: bool)
    requires OnceFits(c) && StreamOf(c, second).phase == Unlocked
    ensures OnceFits(WithPhase(c, second, Cleared))
  {
  }

  lemma CloseOnce(c: Call, second: bool)
    requires OnceFits(c) && StreamOf(c, second).phase == Cleared
    ensures OnceFits(WithStream(c, second, StreamOf(c, second).(phase := Finished, cancelled := true)))
  {
  }

  lemma WaitingHasNoStream(c: Call, second: bool)
    requires OnceFits(c) && StreamOf(c, second).phase != Unopened
    ensures c.place != Waiting
  {
  }

  lemma StreamActionOnce(s: State, a: Action)
    requires Enabled(s, a) && IsStreamAction(a) && OnceFits(s.calls[a.g])
    ensures s.calls[a.g].place != Waiting && Do(s, a).calls[a.g].place == s.calls[a.g].place
    ensures OnceFits(Do(s, a).calls[a.g])
  {
    hide OnceFits;
    var c := s.calls[a.g];
    WaitingHasNoStream(c, a.second);
    match a {
      case CloseBody(_, k) => CloseBodyOnce(c, k);
      case StreamUnlock(_, k) => UnlockOnce(c, k);
      case ClearHandle(_, k) => ClearOnce(c, k);
      case CloseStream(_, k) => CloseOnce(c, k);
    }
  }

  lemma StreamActionFits(s: State, a: Action)
    requires Enabled(s, a) && IsStreamAction(a) && CallFits(s, a.g) && !s.misuse
    ensures CallFits(Do(s, a), a.g) && !Do(s, a).misuse
  {
    StreamActionOnce(s, a);
    hide OnceFits, PlaceFits;
    if a.StreamUnlock? {
      assert !s.calls[a.g].once ==> s.lock == Some(a.g);
    }
  }

  lemma FailureActionFits(s: State, a: Action)
    requires Enabled(s, a) && IsFailureAction(a) && CallFits(s, a.g) && !s.misuse
    ensures CallFits(Do(s, a), a.g) && !Do(s, a).misuse
  {
  }

  lemma CallerActionFits(s: State, a: Action)
    requires Enabled(s, a) && !a.Arrive? && !a.Reset? && !IsStreamAction(a) && !IsFailureAction(a)
    requires CallFits(s, a.g) && !s.misuse
    ensures CallFits(Do(s, a), a.g) && !Do(s, a).misuse
  {
  }

  lemma SameCallFits(s: State, s': State, g: nat)
    requires g < |s.calls| && g < |s'.calls| && s.calls[g] == s'.calls[g] && CallFits(s, g)
    requires s.lock == Some(g) <==> s'.lock == Some(g)
    requires forall k :: s'.active == Some(Handle(g, k)) ==> s.active == Some(Handle(g, k))
    ensures CallFits(s', g)
  {
    hide PlaceFits;
  }

  /** A step leaves the other calls as they are, but for what a reset cancels. */
  lemma OthersKept(s: State, a: Action, g: nat)
    requires Enabled(s, a) && g < |s.calls|
    requires !a.Arrive? && !a.Reset? && a.g != g && CallFits(s, a.g)
    ensures g < |Do(s, a).calls| && Do(s, a).calls[g] == s.calls[g]
    ensures s.lock == Some(g) <==> Do(s, a).lock == Some(g)
    ensures forall k :: Do(s, a).active == Some(Handle(g, k)) ==> s.active == Some(Handle(g, k))
  {
    assert s.calls[a.g].place == Waiting ==> s.calls[a.g].first == s.calls[a.g].second == NoStream;
    hide PlaceFits;
  }

  lemma OthersFit(s: State, a: Action, g: nat)
    requires Enabled(s, a) && g < |s.calls| && CallFits(s, g)
    requires !a.Arrive? && !a.Reset? && a.g != g && CallFits(s, a.g)
    ensures g < |Do(s, a).calls| && CallFits(Do(s, a), g)
  {
    OthersKept(s, a, g);
    SameCallFits(s, Do(s, a), g);
  }

  lemma ResetOnce(s: State, g: nat)
    requires g < |s.calls| && CallFits(s, g)
    ensures g < |Do(s, Reset).calls| && OnceFits(Do(s, Reset).calls[g])
    ensures Do(s, Reset).calls[g].place == s.calls[g].place && Do(s, Reset).calls[g].once == s.calls[g].once
  {
    hide OnceFits;
    if s.active.Some? && s.active.value.call == g {
      CancelledOnce(s.calls[g], s.active.value.second);
    }
  }

  lemma CancelledOnce(c: Call, second: bool)
    requires OnceFits(c) && Registered(StreamOf(c, second))
    ensures OnceFits(WithStream(c, second, StreamOf(c, second).(cancelled := true, wasReset := true)))
  {
  }

  lemma ResetFits(s: State, g: nat)
    requires g < |s.calls| && CallFits(s, g)
    ensures g < |Do(s, Reset).calls| && CallFits(Do(s, Reset), g)
  {
    ResetOnce(s, g);
    hide OnceFits;
  }

  lemma ActorFits(s: State, a: Action)
    requires Enabled(s, a) && !a.Arrive? && !a.Reset? && CallFits(s, a.g) && !s.misuse
    ensures CallFits(Do(s, a), a.g) && !Do(s, a).misuse
  {
    hide Do, CallFits;
    if IsStreamAction(a) {
      StreamActionFits(s, a);
    } else if IsFailureAction(a) {
      FailureActionFits(s, a);
    } else {
      CallerActionFits(s, a);
    }
  }

  lemma EachCallFits(s: State, a: Action, g: nat)
    requires LockInvariant(s) && Enabled(s, a) && g < |Do(s, a).calls|
    ensures CallFits(Do(s, a), g)
  {
    StillInRange(s, a);
    if a.Arrive? && g == |s.calls| {
      NewCallFits(s);
    } else if a.Arrive? {
      KeptCallFits(s, g);
    } else if a.Reset? {
      ResetFits(s, g);
    } else if g == a.g {
      ActorFits(s, a);
    } else {
      OthersFit(s, a, g);
    }
    hide Do, CallFits;
  }

  lemma StillInRange(s: State, a: Action)
    requires LockInvariant(s) && Enabled(s, a)
    ensures |Do(s, a).calls| == |s.calls| + if a.Arrive? then 1 else 0
    ensures Do(s, a).lock.Some? ==> Do(s, a).lock.value < |Do(s, a).calls|
    ensures Do(s, a).active.Some? ==> Do(s, a).active.value.call < |Do(s, a).calls|
    ensures a.Arrive? || a.Reset? ==> !Do(s, a).misuse
  {
    hide CallFits;
  }

  lemma LockInvariantStep(s: State, a: Action)
    requires LockInvariant(s) && Enabled(s, a)
    ensures LockInvariant(Do(s, a))
  {
    hide Do, CallFits;
    StillInRange(s, a);
    if !a.Arrive? && !a.Reset? { ActorFits(s, a); }
    forall g | 0 <= g < |Do(s, a).calls| ensures CallFits(Do(s, a), g) { EachCallFits(s, a, g); }
  }

  lemma KeptCallFits(s: State, g: nat)
    requires g < |s.calls| && CallFits(s, g)
    ensures CallFits(Do(s, Arrive), g)
  {
  }

  lemma NewCallFits(s: State)
    requires s.lock.Some? ==> s.lock.value < |s.calls|
    requires s.active.Some? ==> s.active.value.call < |s.calls|
    ensures CallFits(Do(s, Arrive), |s.calls|)
  {
  }

  lemma {:induction false} LockInvariantHolds(actions: seq<Action>)
    requires After(actions).Some?
    ensures LockInvariant(After(actions).value)
  {
    hide LockInvariant, Enabled, Do;
    if actions == [] {
      StartFits();
    } else {
      LockInvariantHolds(actions[..|actions| - 1]);
      LockInvariantStep(After(actions[..|actions| - 1]).value, actions[|actions| - 1]);
    }
  }

  lemma StartFits()
    ensures LockInvariant(Start)
  {
  }

  predicate AllDone(c: Call) {
    c.place == Returned && c.first.phase in {Unopened, Finished} && c.second.phase in {Unopened, Finished}
  }

  /** In every interleaving the mutex is only ever unlocked by the call that holds it; a call
      releases it at most once, and exactly once by the time its caller has returned and its
      stream goroutines have finished. */
  lemma {:induction false} LockReleasedExactlyOnce(actions: seq<Action>, g: nat)
    requires After(actions).Some? && g < |After(actions).value.calls|
    ensures var s := After(actions).value; var c := s.calls[g];
            && !s.misuse
            && c.releases <= 1
            && (c.releases == 1 ==> s.lock != Some(g))
            && (AllDone(c) ==> c.releases == 1)
  {
    LockInvariantHolds(actions);
    assert CallFits(After(actions).value, g);
  }

  /** If two event streams of the conversation are open at once, one of them belongs to a call
      whose prompt_async failed: without such failures streams never overlap. */
  lemma {:induction false} OverlapNeedsRejectedPrompt(actions: seq<Action>, a: Handle, b: Handle)
    requires After(actions).Some? && a != b
    requires a.call < |After(actions).value.calls| && b.call < |After(actions).value.calls|
    requires BodyOpen(StreamOf(After(actions).value.calls[a.call], a.second))
    requires BodyOpen(StreamOf(After(actions).value.calls[b.call], b.second))
    ensures After(actions).value.calls[a.call].rejected || After(actions).value.calls[b.call].rejected
  {
    var s := After(actions).value;
    LockInvariantHolds(actions);
    assert CallFits(s, a.call) && CallFits(s, b.call);
  }

  /** More exactly, one of them is a second attempt or belongs to a call that gave up the lock
      at its timeout: a rejected call that saw its stream finish has closed it before. */
  lemma {:induction false} OverlapNeedsTimeoutOrRetry(actions: seq<Action>, a: Handle, b: Handle)
    requires After(actions).Some? && a != b
    requires a.call < |After(actions).value.calls| && b.call < |After(actions).value.calls|
    requires BodyOpen(StreamOf(After(actions).value.calls[a.call], a.second))
    requires BodyOpen(StreamOf(After(actions).value.calls[b.call], b.second))
    ensures var calls := After(actions).value.calls;
            a.second || b.second || calls[a.call].timedOut || calls[b.call].timedOut
  {
    var s := After(actions).value;
    LockInvariantHolds(actions);
    hide LockInvariant, After;
    if !a.second && !b.second && !s.calls[a.call].timedOut && !s.calls[b.call].timedOut {
      OpenHoldsLock(s, a.call);
      OpenHoldsLock(s, b.call);
    }
  }

  lemma OpenHoldsLock(s: State, g: nat)
    requires LockInvariant(s) && g < |s.calls| && BodyOpen(s.calls[g].first) && !s.calls[g].timedOut
    ensures s.lock == Some(g)
  {
    assert CallFits(s, g);
    WaitingHasNoStream(s.calls[g], false);
  }

  // ----- cancel handles -----

  function At(s: State, h: Handle): Stream {
    if h.call < |s.calls| then StreamOf(s.calls[h.call], h.second) else NoStream
  }

  /** The two fields of a conversation behind its `activeMu`; each method is one critical
      section, and takes the fields from one state of the protocol to the next. */
  class ActiveCancel {
    var cancel: Option<Handle>
    var number: nat

    ghost predicate IsIn(s: State)
      reads this
    {
      cancel == s.active && number == s.activeN
    }

    constructor ()
      ensures IsIn(Start)
    {
      cancel, number := None, 0;
    }

    method SetActiveCancel(h: Handle, ghost s: State) returns (n: nat)
      requires IsIn(s) && Enabled(s, Register(h.call)) && s.calls[h.call].place.second == h.second
      modifies this
      ensures IsIn(Do(s, Register(h.call))) && At(Do(s, Register(h.call)), h).number == n
    {
      number := number + 1;
      n := number;
      cancel := Some(h);
    }

    method ClearActiveCancel(n: nat, ghost s: State, ghost h: Handle)
      requires IsIn(s) && Enabled(s, ClearHandle(h.call, h.second)) && At(s, h).number == n
      modifies this`cancel
      ensures IsIn(Do(s, ClearHandle(h.call, h.second)))
    {
      if number == n {
        cancel := None;
      }
    }

    /** `cancelActive`; its result is the handle it calls. */
    method CancelActive(ghost s: State) returns (cancelled: Option<Handle>)
      requires IsIn(s)
      modifies this`cancel
      ensures IsIn(Do(s, Reset)) && cancelled == s.active
    {
      cancelled := cancel;
      cancel := None;
    }
  }

  /** The stream has not yet reached its own `clearActiveCancel`. */
  predicate Uncleared(t: Stream) {
    t.phase in {Consuming, BodyClosed, Unlocked}
  }

  predicate NumberFits(s: State, h: Handle) {
    && (if Registered(At(s, h)) then 0 < At(s, h).number <= s.activeN else !At(s, h).wasReset)
    && (At(s, h).wasReset ==> At(s, h).cancelled)
  }

  predicate Apart(s: State, h: Handle, h': Handle) {
    Registered(At(s, h)) && Registered(At(s, h')) && At(s, h).number == At(s, h').number ==> h == h'
  }

  /** The active handle is that of the stream with the newest number, until its goroutine
      clears it or a reset takes it. */
  predicate ActiveFits(s: State, h: Handle) {
    s.active == Some(h) <==> Uncleared(At(s, h)) && At(s, h).number == s.activeN && !At(s, h).wasReset
  }

  ghost predicate HandleInvariant(s: State) {
    && (forall h :: NumberFits(s, h))
    && (forall h, h' :: Apart(s, h, h'))
    && (forall h :: ActiveFits(s, h))
  }

  /** The stream an action moves, and how. */
  function Moved(s: State, a: Action, h: Handle): Stream
    requires Enabled(s, a)
  {
    var t := At(s, h);
    if a.Arrive? then t
    else if a.Reset? then
      if s.active == Some(h) && h.call < |s.calls| then t.(cancelled := true, wasReset := true) else t
    else if h.call != a.g then t
    else
      var k := s.calls[a.g].place;
      match a
      case OpenStream(_) => if k.second == h.second then t.(phase := Opened) else t
      case Register(_) => if k.second == h.second then t.(phase := Consuming, number := s.activeN + 1) else t
      case Reject(_, _) => if k.second == h.second then t.(cancelled := true) else t
      case CloseBody(_, second) => if second == h.second then t.(phase := BodyClosed) else t
      case StreamUnlock(_, second) => if second == h.second then t.(phase := Unlocked) else t
      case ClearHandle(_, second) => if second == h.second then t.(phase := Cleared) else t
      case CloseStream(_, second) => if second == h.second then t.(phase := Finished, cancelled := true) else t
      case _ => t
  }

  lemma AtMoved(s: State, a: Action, h: Handle)
    requires Enabled(s, a)
    ensures At(Do(s, a), h) == Moved(s, a, h)
  {
    hide Do, Moved, At, Enabled;
    if a.Arrive? || a.Reset? {
      OutsiderMoved(s, a, h);
    } else if h.call != a.g {
      ElsewhereUnmoved(s, a, h);
    } else if IsStreamAction(a) {
      StreamMoved(s, a, h.second);
    } else {
      CallerMoved(s, a, h.second);
    }
  }

  lemma OutsiderMoved(s: State, a: Action, h: Handle)
    requires a.Arrive? || a.Reset?
    ensures At(Do(s, a), h) == Moved(s, a, h)
  {
  }

  lemma ElsewhereUnmoved(s: State, a: Action, h: Handle)
    requires Enabled(s, a) && !a.Arrive? && !a.Reset? && h.call != a.g
    ensures At(Do(s, a), h) == Moved(s, a, h)
  {
  }

  lemma StreamMoved(s: State, a: Action, second: bool)
    requires Enabled(s, a) && IsStreamAction(a)
    ensures At(Do(s, a), Handle(a.g, second)) == Moved(s, a, Handle(a.g, second))
  {
  }

  lemma CallerMoved(s: State, a: Action, second: bool)
    requires Enabled(s, a) && !a.Arrive? && !a.Reset? && !IsStreamAction(a)
    ensures At(Do(s, a), Handle(a.g, second)) == Moved(s, a, Handle(a.g, second))
  {
  }

  /** A finishing stream clears no handle but its own. */
  lemma ClearsOnlyItsOwn(s: State, g: nat, second: bool)
    requires HandleInvariant(s) && Enabled(s, ClearHandle(g, second))
    ensures Do(s, ClearHandle(g, second)).active == if s.active == Some(Handle(g, second)) then None else s.active
  {
    var h := Handle(g, second);
    assert NumberFits(s, h) && ActiveFits(s, h);
    if s.active.Some? {
      assert ActiveFits(s, s.active.value) && Apart(s, h, s.active.value);
    }
  }

  lemma ActiveMoved(s: State, a: Action)
    requires HandleInvariant(s) && Enabled(s, a)
    ensures var s' := Do(s, a);
            match a
            case Register(g) => s'.active == Some(Handle(g, s.calls[g].place.second)) && s'.activeN == s.activeN + 1
            case Reset => s'.active == None && s'.activeN == s.activeN
            case ClearHandle(g, k) =>
              s'.active == (if s.active == Some(Handle(g, k)) then None else s.active) && s'.activeN == s.activeN
            case _ => s'.active == s.active && s'.activeN == s.activeN
  {
    hide HandleInvariant;
    if a.ClearHandle? { ClearsOnlyItsOwn(s, a.g, a.second); }
  }

  lemma NumberStep(s: State, a: Action, h: Handle)
    requires HandleInvariant(s) && Enabled(s, a)
    requires !a.Arrive? && !a.Reset? ==> PlaceFits(s.calls[a.g])
    ensures NumberFits(Do(s, a), h)
  {
    hide Do;
    AtMoved(s, a, h);
    ActiveMoved(s, a);
    assert NumberFits(s, h) && ActiveFits(s, h);
  }

  lemma ApartStep(s: State, a: Action, h: Handle, h': Handle)
    requires HandleInvariant(s) && Enabled(s, a)
    requires !a.Arrive? && !a.Reset? ==> PlaceFits(s.calls[a.g])
    ensures Apart(Do(s, a), h, h')
  {
    hide Do;
    AtMoved(s, a, h);
    AtMoved(s, a, h');
    assert NumberFits(s, h) && NumberFits(s, h') && Apart(s, h, h');
  }

  lemma ActiveStep(s: State, a: Action, h: Handle)
    requires HandleInvariant(s) && Enabled(s, a)
    requires !a.Arrive? && !a.Reset? ==> PlaceFits(s.calls[a.g])
    ensures ActiveFits(Do(s, a), h)
  {
    hide Do;
    AtMoved(s, a, h);
    ActiveMoved(s, a);
    assert NumberFits(s, h) && ActiveFits(s, h);
  }

  lemma HandleInvariantStep(s: State, a: Action)
    requires HandleInvariant(s) && Enabled(s, a)
    requires !a.Arrive? && !a.Reset? ==> PlaceFits(s.calls[a.g])
    ensures HandleInvariant(Do(s, a))
  {
    hide Do, NumberFits, Apart, ActiveFits, PlaceFits;
    var s' := Do(s, a);
    forall h ensures NumberFits(s', h) { NumberStep(s, a, h); }
    forall h, h' ensures Apart(s', h, h') { ApartStep(s, a, h, h'); }
    forall h ensures ActiveFits(s', h) { ActiveStep(s, a, h); }
  }

  lemma {:induction false} HandleInvariantHolds(actions: seq<Action>)
    requires After(actions).Some?
    ensures HandleInvariant(After(actions).value)
  {
    hide HandleInvariant, Enabled, Do, CallFits;
    if actions == [] {
      StartHandles();
    } else {
      var before, a := actions[..|actions| - 1], actions[|actions| - 1];
      var s := After(before).value;
      HandleInvariantHolds(before);
      LockInvariantHolds(before);
      ActorPlaceFits(s, a);
      HandleInvariantStep(s, a);
    }
  }

  lemma StartHandles()
    ensures HandleInvariant(Start)
  {
  }

  lemma ActorPlaceFits(s: State, a: Action)
    requires LockInvariant(s) && Enabled(s, a)
    ensures !a.Arrive? && !a.Reset? ==> PlaceFits(s.calls[a.g])
  {
    if !a.Arrive? && !a.Reset? { assert CallFits(s, a.g); }
  }

  /** In every interleaving the active handle is the one registered under the newest number,
      until its own goroutine clears it or a reset takes it: no generation clears another's. */
  lemma {:induction false} HandlesNeverCross(actions: seq<Action>, h: Handle)
    requires After(actions).Some?
    ensures var s := After(actions).value;
            s.active == Some(h) <==> Uncleared(At(s, h)) && At(s, h).number == s.activeN && !At(s, h).wasReset
  {
    HandleInvariantHolds(actions);
    assert ActiveFits(After(actions).value, h);
  }

  /** A reset cancels the newest generation unless it is past clearing its handle or was
      reset before, and touches no other. */
  lemma {:induction false} ResetCancelsNewest(actions: seq<Action>, h: Handle)
    requires After(actions).Some?
    ensures var s := After(actions).value; var s' := Do(s, Reset); var t := At(s, h);
            At(s', h) == if Uncleared(t) && t.number == s.activeN && !t.wasReset
                         then t.(cancelled := true, wasReset := true) else t
  {
    var s := After(actions).value;
    HandlesNeverCross(actions, h);
    LockInvariantHolds(actions);
    AtMoved(s, Reset, h);
  }

  // ----- what a reset leaves running -----

  predicate NeverRetried(s: State) {
    forall g | 0 <= g < |s.calls| :: s.calls[g].second == NoStream
  }

  predicate Running(t: Stream) {
    t.phase == Consuming && !t.cancelled
  }

  ghost predicate OnlyActiveRuns(s: State) {
    forall h :: Running(At(s, h)) ==> s.active == Some(h)
  }

  lemma RunningHoldsLock(s: State, h: Handle)
    requires LockInvariant(s) && NeverRetried(s) && Running(At(s, h))
    ensures !h.second && s.lock == Some(h.call)
  {
    assert CallFits(s, h.call);
  }

  lemma ActiveExists(s: State)
    requires LockInvariant(s)
    ensures s.active.Some? ==> s.active.value.call < |s.calls|
  {
  }

  lemma OnlyActiveRunsStep(s: State, a: Action, h: Handle)
    requires LockInvariant(s) && HandleInvariant(s) && OnlyActiveRuns(s) && NeverRetried(s) && Enabled(s, a)
    requires Running(At(Do(s, a), h))
    ensures Do(s, a).active == Some(h) || (a.Register? && h != Handle(a.g, s.calls[a.g].place.second)) || a.Reset?
    ensures a.Register? ==> s.calls[a.g].place.second || s.lock == Some(a.g)
    ensures a.Register? && h != Handle(a.g, s.calls[a.g].place.second) ==> Running(At(s, h))
    ensures a.Reset? ==> Running(At(s, h)) && s.active != Some(h)
  {
    AtMoved(s, a, h);
    ActiveMoved(s, a);
    ActorPlaceFits(s, a);
    if a.Register? { assert CallFits(s, a.g); }
    ActiveExists(s);
    hide Do, HandleInvariant, LockInvariant;
  }

  lemma RetriesStay(s: State, a: Action)
    requires Enabled(s, a) && NeverRetried(Do(s, a))
    ensures NeverRetried(s)
  {
    forall g | 0 <= g < |s.calls| ensures s.calls[g].second == NoStream {
      RetryStays(s, a, g);
      hide Do;
    }
  }

  lemma RetryStays(s: State, a: Action, g: nat)
    requires Enabled(s, a) && g < |s.calls|
    ensures g < |Do(s, a).calls|
    ensures s.calls[g].second != NoStream ==> Do(s, a).calls[g].second != NoStream
  {
  }

  lemma {:induction false} OnlyActiveRunsHolds(actions: seq<Action>)
    requires After(actions).Some? && NeverRetried(After(actions).value)
    ensures OnlyActiveRuns(After(actions).value)
  {
    hide LockInvariant, HandleInvariant, Do, NeverRetried, CallFits;
    if actions != [] {
      var before, a := actions[..|actions| - 1], actions[|actions| - 1];
      var s := After(before).value;
      LockInvariantHolds(before);
      HandleInvariantHolds(before);
      RetriesStay(s, a);
      OnlyActiveRunsHolds(before);
      forall h | Running(At(Do(s, a), h)) ensures Do(s, a).active == Some(h) {
        OnlyActiveRunsStep(s, a, h);
        if a.Register? && h != Handle(a.g, s.calls[a.g].place.second) {
          RunningHoldsLock(s, h);
          NotRetrying(s, a.g);
        }
      }
    }
  }

  lemma NotRetrying(s: State, g: nat)
    requires LockInvariant(s) && NeverRetried(s) && g < |s.calls| && s.calls[g].place.Registering?
    ensures !s.calls[g].place.second
  {
    assert CallFits(s, g);
  }

  /** A reset leaves no stream running exactly when every stream running before it has the
      newest number. */
  lemma {:induction false} ResetLeavesNothingRunningIff(actions: seq<Action>)
    requires After(actions).Some?
    ensures var s := After(actions).value;
            (forall h :: !Running(At(Do(s, Reset), h))) <==>
            (forall h :: Running(At(s, h)) ==> At(s, h).number == s.activeN)
  {
    var s := After(actions).value;
    HandleInvariantHolds(actions);
    LockInvariantHolds(actions);
    hide After, Do, At, LockInvariant, HandleInvariant;
    forall h ensures Running(At(Do(s, Reset), h)) <==> Running(At(s, h)) && At(s, h).number != s.activeN {
      ResetStops(s, h);
    }
  }

  lemma ResetStops(s: State, h: Handle)
    requires LockInvariant(s) && HandleInvariant(s)
    ensures Running(At(Do(s, Reset), h)) <==> Running(At(s, h)) && At(s, h).number != s.activeN
  {
    assert NumberFits(s, h) && ActiveFits(s, h);
    ActiveExists(s);
    AtMoved(s, Reset, h);
    hide Do, At, HandleInvariant, LockInvariant;
  }

  /** So without a stale retry nothing is left running: a retry registers its second stream
      without the lock, and can hide another call's handle. */
  lemma {:induction false} ResetLeavesNothingRunning(actions: seq<Action>, h: Handle)
    requires After(actions).Some? && NeverRetried(After(actions).value)
    ensures !Running(At(Do(After(actions).value, Reset), h))
  {
    var s := After(actions).value;
    OnlyActiveRunsHolds(actions);
    HandleInvariantHolds(actions);
    hide After, Do, At;
    forall h | Running(At(s, h)) ensures At(s, h).number == s.activeN { assert ActiveFits(s, h); }
    hide HandleInvariant;
    ResetLeavesNothingRunningIff(actions);
  }

  lemma Then(actions: seq<Action>, s: State, a: Action) returns (next: seq<Action>, s': State)
    requires After(actions) == Some(s) && Enabled(s, a)
    ensures next == actions + [a] && s' == Do(s, a) && After(next) == Some(s')
  {
    next, s' := actions + [a], Do(s, a);
    assert next[..|actions|] == actions;
  }

  lemma StartRun()
    ensures After([]) == Some(Start)
  {
  }

  lemma PostingRun() returns (r: seq<Action>, s: State)
    ensures After(r) == Some(s)
    ensures s == State([Call(Posting(false), false, 0, false, false, Stream(Consuming, 1, false, false), NoStream)],
                       Some(0), false, Some(Handle(0, false)), 1)
  {
    hide After;
    StartRun();
    r, s := Then([], Start, Arrive);
    r, s := Then(r, s, Acquire(0));
    r, s := Then(r, s, SessionReady(0));
    r, s := Then(r, s, OpenStream(0));
    r, s := Then(r, s, Register(0));
  }

  lemma TimedOutRun() returns (r: seq<Action>, s: State)
    ensures After(r) == Some(s)
    ensures s == State([Call(Recreating, true, 1, true, true, Stream(Consuming, 1, true, false), NoStream)],
                       None, false, Some(Handle(0, false)), 1)
  {
    hide After;
    r, s := PostingRun();
    r, s := Then(r, s, Reject(0, true));
    r, s := Then(r, s, TimeOut(0));
    r, s := Then(r, s, Recreate(0));
  }

  lemma SecondCallRun() returns (r: seq<Action>, s: State)
    ensures After(r) == Some(s)
    ensures s == State([Call(Recreating, true, 1, true, true, Stream(Consuming, 1, true, false), NoStream),
                        Call(Returned, false, 0, false, false, Stream(Consuming, 2, false, false), NoStream)],
                       Some(1), false, Some(Handle(1, false)), 2)
  {
    hide After;
    r, s := TimedOutRun();
    r, s := Then(r, s, Arrive);
    r, s := Then(r, s, Acquire(1));
    r, s := Then(r, s, SessionReady(1));
    r, s := Then(r, s, OpenStream(1));
    r, s := Then(r, s, Register(1));
    r, s := Then(r, s, Accept(1));
  }

  /** Such a run: call 0 times out on a stale session, call 1 starts streaming, call 0 retries.
      Both streams are open, and a reset cancels only the retry. */
  lemma RetryHidesRunningStream()
    ensures exists actions, h, h' ::
              && After(actions).Some? && h != h'
              && var s := After(actions).value;
                 BodyOpen(At(s, h)) && BodyOpen(At(s, h')) && s.active == Some(h') && Running(At(Do(s, Reset), h))
  {
    var r, s := SecondCallRun();
    r, s := Then(r, s, Reopen(0));
    r, s := Then(r, s, OpenStream(0));
    r, s := Then(r, s, Register(0));
    var h, h' := Handle(1, false), Handle(0, true);
    assert BodyOpen(At(s, h)) && BodyOpen(At(s, h')) && s.active == Some(h') && Running(At(Do(s, Reset), h));
  }
}
