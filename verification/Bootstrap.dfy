/** Session ids of one conversation in bot/opencode_generator.go (lines 51-69, 146-182 and
    290-440): created on demand, dropped when stale or reset, and bootstrapped with the
    conversation history.  Calls run one after the other here. */
module Bootstrap {

  datatype CreateResult = Created(id: string) | CreateFailed

  /** How one attempt to open the event stream and post the prompt ends. */
  datatype PromptResult = Accepted | StaleSession | Rejected | StreamNotOpened

  datatype Prompt = Prompt(session: string, includeHistory: bool, result: PromptResult)

  /** The server's answers to one call; the second pair is for the stale retry. */
  datatype Answers = Answers(create: CreateResult, prompt: PromptResult, recreate: CreateResult, retry: PromptResult)

  /** `prompts` are the prompt_async requests; `dead` the sessions found stale or reset;
      `spoiled` those whose first prompt failed for another reason than being stale. */
  datatype State = State(
    sessionID: string, prompts: seq<Prompt>, created: set<string>, dead: set<string>, spoiled: set<string>)

  const Initial := State("", [], {}, {}, {})

  function Create(s: State, id: string): State {
    s.(sessionID := id, created := s.created + {id})
  }

  function Post(s: State, includeHistory: bool, result: PromptResult): State {
    var id := s.sessionID;
    var t := if result == StreamNotOpened then s else s.(prompts := s.prompts + [Prompt(id, includeHistory, result)]);
    if result == StaleSession then t.(sessionID := "", dead := s.dead + {id})
    else if includeHistory && result != Accepted then t.(spoiled := s.spoiled + {id})
    else t
  }

  function Generate(s: State, a: Answers): State {
    if s.sessionID == "" && a.create.CreateFailed? then s
    else
      var t := if s.sessionID == "" then Post(Create(s, a.create.id), true, a.prompt) else Post(s, false, a.prompt);
      if a.prompt != StaleSession || a.recreate.CreateFailed? then t
      else Post(Create(t, a.recreate.id), true, a.retry)
  }

  function Reset(s: State): State {
    if s.sessionID == "" then s else s.(sessionID := "", dead := s.dead + {s.sessionID})
  }

  class Conversation {
    var sessionID: string
    ghost var prompts: seq<Prompt>
    ghost var created: set<string>
    ghost var dead: set<string>
    ghost var spoiled: set<string>

    ghost function Model(): State
      reads this
    {
      State(sessionID, prompts, created, dead, spoiled)
    }

    constructor ()
      ensures Model() == Initial
    {
      sessionID, prompts, created, dead, spoiled := "", [], {}, {}, {};
    }

    method ClearSessionIDIfMatch(id: string)
      modifies this`sessionID
      ensures sessionID == if old(sessionID) == id then "" else old(sessionID)
    {
      if sessionID == id {
        sessionID := "";
      }
    }

    /** `postPromptWithStream`, as far as it concerns sessions. */
    method PostPrompt(id: string, includeHistory: bool, result: PromptResult)
      modifies this`prompts, this`dead, this`spoiled
      ensures var t := Post(old(Model()).(sessionID := id), includeHistory, result);
              prompts == t.prompts && dead == t.dead && spoiled == t.spoiled
    {
      if result != StreamNotOpened {
        prompts := prompts + [Prompt(id, includeHistory, result)];
      }
      if result == StaleSession {
        dead := dead + {id};
      } else if includeHistory && result != Accepted {
        spoiled := spoiled + {id};
      }
    }

    /** `GenerateRenderStream`; `ok` tells whether the caller gets a stream. */
    method GenerateRenderStream(a: Answers) returns (ok: bool)
      modifies this
      ensures Model() == Generate(old(Model()), a)
      ensures ok <==>
              && (old(sessionID) == "" ==> a.create.Created?)
              && (a.prompt == Accepted || (a.prompt == StaleSession && a.recreate.Created? && a.retry == Accepted))
    {
      var id := sessionID;
      var includeHistory := false;
      if id == "" {
        if a.create.CreateFailed? {
          return false;
        }
        id := a.create.id;
        sessionID, includeHistory := id, true;
        created := created + {id};
      }
      PostPrompt(id, includeHistory, a.prompt);
      if a.prompt == Accepted {
        return true;
      }
      if a.prompt != StaleSession {
        return false;
      }
      ClearSessionIDIfMatch(id);
      if a.recreate.CreateFailed? {
        return false;
      }
      var newID := a.recreate.id;
      sessionID, includeHistory := newID, true;
      created := created + {newID};
      PostPrompt(newID, includeHistory, a.retry);
      if a.retry == StaleSession {
        ClearSessionIDIfMatch(newID);
      }
      return a.retry == Accepted;
    }

    method ResetSession()
      modifies this
      ensures Model() == Reset(old(Model()))
    {
      if sessionID != "" {
        dead := dead + {sessionID};
      }
      sessionID := "";
    }
  }

  // ----- runs -----

  datatype Op = Generation(answers: Answers) | ResetOp

  function Do(s: State, op: Op): State {
    match op
    case Generation(a) => Generate(s, a)
    case ResetOp => Reset(s)
  }

  function After(ops: seq<Op>): State {
    if ops == [] then Initial else Do(After(ops[..|ops| - 1]), ops[|ops| - 1])
  }

  /** The server names every session it creates with a new, non-empty id. */
  predicate Fresh(s: State, op: Op) {
    op.Generation? ==>
      var a := op.answers;
      && (a.create.Created? ==> a.create.id != "" && a.create.id !in s.created)
      && (a.recreate.Created? ==> a.recreate.id != "" && a.recreate.id !in s.created && a.recreate != a.create)
  }

  predicate FreshIDs(ops: seq<Op>) {
    ops == [] ||
    (FreshIDs(ops[..|ops| - 1]) && Fresh(After(ops[..|ops| - 1]), ops[|ops| - 1]))
  }

  /** Prompt `i` is the first one its session accepted. */
  predicate IsFirstAccepted(prompts: seq<Prompt>, i: nat)
    requires i < |prompts|
  {
    && prompts[i].result == Accepted
    && forall j | 0 <= j < i :: prompts[j].session == prompts[i].session ==> prompts[j].result != Accepted
  }

  /** History goes with the first prompt of a session and no later one, and a session that
      was found stale is not prompted again. */
  predicate PairFits(prompts: seq<Prompt>, i: nat, j: nat)
    requires i < j < |prompts|
  {
    prompts[i].session == prompts[j].session ==> !prompts[j].includeHistory && prompts[i].result != StaleSession
  }

  predicate HistoryFits(s: State, i: nat)
    requires i < |s.prompts|
  {
    IsFirstAccepted(s.prompts, i) ==> (s.prompts[i].includeHistory <==> s.prompts[i].session !in s.spoiled)
  }

  ghost predicate CurrentFits(s: State) {
    s.sessionID != "" ==>
      && s.sessionID in s.created && s.sessionID !in s.dead
      && (s.sessionID !in s.spoiled ==>
            exists i | 0 <= i < |s.prompts| :: s.prompts[i].session == s.sessionID && s.prompts[i].result == Accepted)
  }

  ghost predicate Invariant(s: State) {
    && (forall i, j | 0 <= i < j < |s.prompts| :: PairFits(s.prompts, i, j))
    && (forall i | 0 <= i < |s.prompts| :: HistoryFits(s, i))
    && (forall i | 0 <= i < |s.prompts| :: s.prompts[i].session in s.created)
    && (forall i | 0 <= i < |s.prompts| :: s.prompts[i].result == StaleSession ==> s.prompts[i].session in s.dead)
    && s.dead <= s.created && s.spoiled <= s.created
  }

  /** The session about to be prompted is a new one, or the current one without history. */
  ghost predicate MayPost(s: State, includeHistory: bool) {
    && s.sessionID in s.created && s.sessionID !in s.dead
    && if includeHistory then
         s.sessionID !in s.spoiled && forall i | 0 <= i < |s.prompts| :: s.prompts[i].session != s.sessionID
       else CurrentFits(s)
  }

  lemma PostKeeps(s: State, includeHistory: bool, result: PromptResult)
    requires Invariant(s) && s.sessionID != "" && MayPost(s, includeHistory)
    ensures Invariant(Post(s, includeHistory, result)) && CurrentFits(Post(s, includeHistory, result))
  {
    var t := Post(s, includeHistory, result);
    forall i, j | 0 <= i < j < |t.prompts| ensures PairFits(t.prompts, i, j) {
      if j < |s.prompts| { assert PairFits(s.prompts, i, j); }
    }
    assert forall i | 0 <= i < |s.prompts| :: t.prompts[i] == s.prompts[i];
    forall i | 0 <= i < |t.prompts| ensures HistoryFits(t, i) {
      if i < |s.prompts| {
        assert HistoryFits(s, i);
        if IsFirstAccepted(t.prompts, i) {
          assert forall j | 0 <= j < i :: t.prompts[j] == s.prompts[j];
        }
      } else if !includeHistory && s.sessionID !in s.spoiled {
        var j :| 0 <= j < |s.prompts| && s.prompts[j].session == s.sessionID && s.prompts[j].result == Accepted;
        assert t.prompts[j] == s.prompts[j];
      }
    }
    if t.sessionID != "" && t.sessionID !in t.spoiled {
      if result == Accepted {
        assert t.prompts[|s.prompts|].session == t.sessionID;
      } else {
        var i :| 0 <= i < |s.prompts| && s.prompts[i].session == s.sessionID && s.prompts[i].result == Accepted;
        assert t.prompts[i] == s.prompts[i];
      }
    }
  }

  lemma CreateKeeps(s: State, id: string)
    requires Invariant(s) && id !in s.created
    ensures Invariant(Create(s, id)) && MayPost(Create(s, id), true)
  {
    var t := Create(s, id);
    forall i | 0 <= i < |t.prompts| ensures HistoryFits(t, i) { assert HistoryFits(s, i); }
  }

  lemma StepKeeps(s: State, op: Op)
    requires Invariant(s) && CurrentFits(s) && Fresh(s, op)
    ensures Invariant(Do(s, op)) && CurrentFits(Do(s, op))
  {
    hide Invariant, CurrentFits, MayPost;
    if op.Generation? {
      var a := op.answers;
      if s.sessionID != "" || a.create.Created? {
        var t;
        if s.sessionID == "" {
          CreateKeeps(s, a.create.id);
          PostKeeps(Create(s, a.create.id), true, a.prompt);
          t := Post(Create(s, a.create.id), true, a.prompt);
        } else {
          CurrentMayPost(s);
          PostKeeps(s, false, a.prompt);
          t := Post(s, false, a.prompt);
        }
        if a.prompt == StaleSession && a.recreate.Created? {
          CreateKeeps(t, a.recreate.id);
          PostKeeps(Create(t, a.recreate.id), true, a.retry);
        }
      }
    } else {
      ResetKeeps(s);
    }
  }

  lemma CurrentMayPost(s: State)
    requires CurrentFits(s) && s.sessionID != ""
    ensures MayPost(s, false)
  {
  }

  lemma ResetKeeps(s: State)
    requires Invariant(s) && CurrentFits(s)
    ensures Invariant(Reset(s)) && CurrentFits(Reset(s))
  {
    var t := Reset(s);
    forall i | 0 <= i < |t.prompts| ensures HistoryFits(t, i) { assert HistoryFits(s, i); }
  }

  lemma {:induction false} RunKeeps(ops: seq<Op>)
    requires FreshIDs(ops)
    ensures Invariant(After(ops)) && CurrentFits(After(ops))
  {
    hide Do, Invariant, CurrentFits, Fresh;
    if ops == [] {
      InitiallyFits();
    } else {
      RunKeeps(ops[..|ops| - 1]);
      StepKeeps(After(ops[..|ops| - 1]), ops[|ops| - 1]);
    }
  }

  lemma InitiallyFits()
    ensures Invariant(Initial) && CurrentFits(Initial)
  {
  }

  /** In every sequential run the first accepted prompt of a session carries the history
      exactly when no other failure came between creating the session and that prompt. */
  lemma BootstrapGoesFirst(ops: seq<Op>, i: nat)
    requires FreshIDs(ops) && i < |After(ops).prompts| && IsFirstAccepted(After(ops).prompts, i)
    ensures After(ops).prompts[i].includeHistory <==> After(ops).prompts[i].session !in After(ops).spoiled
  {
    RunKeeps(ops);
    assert HistoryFits(After(ops), i);
  }

  const SpoiledRun := [
    Generation(Answers(Created("a"), Rejected, CreateFailed, Rejected)),
    Generation(Answers(CreateFailed, Accepted, CreateFailed, Rejected))]

  /** Such a failure does cost the history: the first prompt of "a" is rejected, and the next
      one, the first accepted, goes without. */
  lemma {:induction false} SpoiledSessionMissesHistory()
    ensures FreshIDs(SpoiledRun)
    ensures var prompts := After(SpoiledRun).prompts;
            && |prompts| == 2 && IsFirstAccepted(prompts, 1) && !prompts[1].includeHistory
            && prompts[1].session in After(SpoiledRun).spoiled
  {
    var first := SpoiledRun[..1];
    assert first[..0] == [] && SpoiledRun[..|SpoiledRun| - 1] == first;
    assert first[0] == SpoiledRun[0];
    assert After(first) == State("a", [Prompt("a", true, Rejected)], {"a"}, {}, {"a"});
    assert After(SpoiledRun) == Post(After(first), false, Accepted);
  }

  /** No later prompt of a session carries it, and a session found stale is never prompted again. */
  lemma BootstrapGoesOnce(ops: seq<Op>, i: nat, j: nat)
    requires FreshIDs(ops) && i < j < |After(ops).prompts|
    requires After(ops).prompts[i].session == After(ops).prompts[j].session
    ensures !After(ops).prompts[j].includeHistory && After(ops).prompts[i].result != StaleSession
  {
    RunKeeps(ops);
    assert PairFits(After(ops).prompts, i, j);
  }

  /** What a generation sends, it sends to sessions that are not dead. */
  lemma DeadSessionsAreNotPrompted(ops: seq<Op>, op: Op, i: nat)
    requires FreshIDs(ops + [op])
    requires |After(ops).prompts| <= i < |Do(After(ops), op).prompts|
    ensures Do(After(ops), op).prompts[i].session !in After(ops).dead
  {
    hide After, FreshIDs, Invariant, CurrentFits, Fresh, Do;
    FreshSnoc(ops, op);
    RunKeeps(ops);
    LivePrompts(After(ops), op, i);
  }

  lemma FreshSnoc(ops: seq<Op>, op: Op)
    requires FreshIDs(ops + [op])
    ensures FreshIDs(ops) && Fresh(After(ops), op)
  {
    hide After, Fresh;
    assert (ops + [op])[..|ops|] == ops;
  }

  lemma LivePrompts(s: State, op: Op, i: nat)
    requires Invariant(s) && CurrentFits(s) && Fresh(s, op) && |s.prompts| <= i < |Do(s, op).prompts|
    ensures Do(s, op).prompts[i].session !in s.dead
  {
    assert s.dead <= s.created;
    hide Invariant;
  }

  // ----- what a reset and an accepted prompt mean for the calls after them -----

  lemma AfterSnoc(ops: seq<Op>, op: Op)
    ensures After(ops + [op]) == Do(After(ops), op)
  {
    hide Do;
    assert (ops + [op])[..|ops|] == ops;
  }

  /** Neither the session of the conversation nor one prompted since `n` is among `earlier`. */
  ghost predicate Forgets(s: State, earlier: set<string>, n: nat) {
    && earlier <= s.created
    && s.sessionID !in earlier
    && forall i | n <= i < |s.prompts| :: s.prompts[i].session !in earlier && s.prompts[i].session in s.created
  }

  lemma StepForgets(s: State, earlier: set<string>, n: nat, op: Op)
    requires Forgets(s, earlier, n) && CurrentFits(s) && Fresh(s, op) && "" !in earlier
    ensures Forgets(Do(s, op), earlier, n)
  {
  }

  lemma {:induction false} NamesAreGiven(ops: seq<Op>)
    requires FreshIDs(ops)
    ensures "" !in After(ops).created
  {
    if ops != [] {
      NamesAreGiven(ops[..|ops| - 1]);
    }
  }

  lemma {:induction false} ForgottenSinceReset(ops: seq<Op>, more: seq<Op>)
    requires FreshIDs(ops + [ResetOp] + more)
    ensures FreshIDs(ops)
    ensures Forgets(After(ops + [ResetOp] + more), After(ops).created, |After(ops).prompts|)
    decreases |more|
  {
    hide FreshIDs, After, Do, Forgets, Fresh, CurrentFits, Invariant;
    if more == [] {
      AppendNoOps(ops + [ResetOp]);
      FreshSnoc(ops, ResetOp);
      NamesAreGiven(ops);
      AfterSnoc(ops, ResetOp);
      JustReset(After(ops));
    } else {
      var before, op := more[..|more| - 1], more[|more| - 1];
      SplitLastOp(ops + [ResetOp], more);
      FreshSnoc(ops + [ResetOp] + before, op);
      ForgottenSinceReset(ops, before);
      NamesAreGiven(ops);
      RunKeeps(ops + [ResetOp] + before);
      StepForgets(After(ops + [ResetOp] + before), After(ops).created, |After(ops).prompts|, op);
      AfterSnoc(ops + [ResetOp] + before, op);
    }
  }

  lemma AppendNoOps(ops: seq<Op>)
    ensures ops + [] == ops
  {
  }

  lemma SplitLastOp(a: seq<Op>, b: seq<Op>)
    requires b != []
    ensures a + b == a + b[..|b| - 1] + [b[|b| - 1]]
  {
  }

  lemma JustReset(s: State)
    requires "" !in s.created
    ensures Forgets(Do(s, ResetOp), s.created, |s.prompts|)
  {
  }

  /** After a reset no session from before it is prompted again: each prompt sent since is of a
      session created since, and the first it accepted carries the history unless it was spoiled. */
  lemma {:induction false} ResetStartsAfresh(ops: seq<Op>, more: seq<Op>, i: nat)
    requires FreshIDs(ops + [ResetOp] + more)
    requires |After(ops).prompts| <= i < |After(ops + [ResetOp] + more).prompts|
    ensures var t := After(ops + [ResetOp] + more);
            var p := t.prompts[i];
            && p.session !in After(ops).created && p.session in t.created
            && (IsFirstAccepted(t.prompts, i) ==> (p.includeHistory <==> p.session !in t.spoiled))
  {
    ForgottenSinceReset(ops, more);
    if IsFirstAccepted(After(ops + [ResetOp] + more).prompts, i) {
      BootstrapGoesFirst(ops + [ResetOp] + more, i);
    }
    hide After, FreshIDs;
  }

  /** The first call after a reset prompts the session the server then creates, with the history. */
  lemma {:induction false} CallAfterReset(ops: seq<Op>, a: Answers)
    requires a.create.Created? && a.create.id != "" && a.prompt != StreamNotOpened
    ensures var earlier, prompts := After(ops).prompts, After(ops + [ResetOp] + [Generation(a)]).prompts;
            && |prompts| > |earlier| && prompts[..|earlier|] == earlier
            && prompts[|earlier|] == Prompt(a.create.id, true, a.prompt)
  {
    hide After;
    AfterSnoc(ops, ResetOp);
    AfterSnoc(ops + [ResetOp], Generation(a));
  }

  /** What a call adds to the prompts. */
  function Sent(ops: seq<Op>, op: Op): seq<Prompt> {
    var before, after := After(ops).prompts, After(ops + [op]).prompts;
    if |before| <= |after| then after[|before|..] else []
  }

  lemma {:induction false} SentByCall(ops: seq<Op>, op: Op)
    ensures |After(ops).prompts| <= |After(ops + [op]).prompts|
    ensures After(ops + [op]).prompts == After(ops).prompts + Sent(ops, op)
  {
    AfterSnoc(ops, op);
    hide After;
    PromptsStay(After(ops), op);
  }

  lemma PromptsStay(s: State, op: Op)
    ensures |s.prompts| <= |Do(s, op).prompts| && Do(s, op).prompts[..|s.prompts|] == s.prompts
  {
  }

  /** One attempt in session `id`, and when the server has lost it one more in a new session. */
  function OneAttempt(id: string, b: Answers): seq<Prompt> {
    match b.prompt
    case StreamNotOpened => []
    case StaleSession =>
      [Prompt(id, false, StaleSession)] +
      if b.recreate.Created? && b.retry != StreamNotOpened then [Prompt(b.recreate.id, true, b.retry)] else []
    case _ => [Prompt(id, false, b.prompt)]
  }

  /** A call whose predecessor last sent a prompt that did not find its session stale prompts the same
      session, without the history.  If the server has lost it since, the call makes one more
      attempt in a new session, with the history. */
  lemma {:induction false} SessionIsReused(ops: seq<Op>, a: Op, b: Answers)
    requires FreshIDs(ops + [a]) && Sent(ops, a) != [] && Sent(ops, a)[|Sent(ops, a)| - 1].result != StaleSession
    ensures Sent(ops + [a], Generation(b)) == OneAttempt(Sent(ops, a)[|Sent(ops, a)| - 1].session, b)
  {
    hide After, FreshIDs, OneAttempt, Do, Invariant, CurrentFits;
    AfterSnoc(ops, a);
    AfterSnoc(ops + [a], Generation(b));
    FreshSnoc(ops, a);
    NamesAreGiven(ops + [a]);
    RunKeeps(ops + [a]);
    SentByCall(ops, a);
    SentByCall(ops + [a], Generation(b));
    PromptedIsCurrent(After(ops), a);
    LivesOn(After(ops + [a]));
    AttemptIsMade(After(ops + [a]), b);
  }

  lemma LivesOn(s: State)
    requires Invariant(s) && "" !in s.created
    ensures forall i | 0 <= i < |s.prompts| :: s.prompts[i].session != ""
  {
  }

  lemma AttemptIsMade(s: State, b: Answers)
    requires s.sessionID != ""
    ensures Do(s, Generation(b)).prompts == s.prompts + OneAttempt(s.sessionID, b)
  {
  }

  lemma PromptedIsCurrent(s: State, op: Op)
    requires var n := |Do(s, op).prompts|; n > |s.prompts| && Do(s, op).prompts[n - 1].result != StaleSession
    ensures Do(s, op).sessionID == Do(s, op).prompts[|Do(s, op).prompts| - 1].session
  {
  }
}
