/** The marker protocol of mention_only threads in bot/client.go (lines 195-214, 334-391 and
    960-988): each turn ingests what was posted since the marked message, and marks its own
    trigger when it succeeds.  Every turn runs in a goroutine of its own. */
module ThreadMarker {
  import opened Text

  datatype Message = Message(id: string, user: string)

  // ----- collectMissedThreadMessages -----

  function IDs(ms: seq<Message>): set<string> {
    set m | m in ms :: m.id
  }

  /** Messages without an id, and repetitions, are dropped. */
  function Distinct(ms: seq<Message>): seq<Message> {
    if ms == [] then []
    else
      var before, m := Distinct(ms[..|ms| - 1]), ms[|ms| - 1];
      if m.id == "" || m.id in IDs(before) then before else before + [m]
  }

  function After(ms: seq<Message>, marker: string): seq<Message> {
    if ms == [] then [] else if ms[0].id == marker then ms[1..] else After(ms[1..], marker)
  }

  function NotBy(ms: seq<Message>, bot: string): seq<Message> {
    if ms == [] then []
    else NotBy(ms[..|ms| - 1], bot) + if ms[|ms| - 1].user == bot then [] else [ms[|ms| - 1]]
  }

  /** What others wrote after the marked message; everything when nothing is marked. */
  function Missed(history: seq<Message>, marker: string, bot: string): seq<Message> {
    var ms := Distinct(history);
    NotBy(if marker == "" then ms else After(ms, marker), bot)
  }

  lemma {:induction false} AfterSnoc(ms: seq<Message>, m: Message, marker: string)
    ensures After(ms + [m], marker) == if marker in IDs(ms) then After(ms, marker) + [m] else []
  {
    if ms == [] {
    } else if ms[0].id == marker {
      assert ms[0] in ms;
      assert (ms + [m])[1..] == ms[1..] + [m];
    } else {
      assert (ms + [m])[1..] == ms[1..] + [m];
      AfterSnoc(ms[1..], m, marker);
      assert marker in IDs(ms) <==> marker in IDs(ms[1..]) by {
        assert forall x :: x in ms <==> x == ms[0] || x in ms[1..];
      }
    }
  }

  lemma NotBySnoc(ms: seq<Message>, m: Message, bot: string)
    ensures NotBy(ms + [m], bot) == NotBy(ms, bot) + if m.user == bot then [] else [m]
  {
    assert (ms + [m])[..|ms|] == ms;
  }

  lemma {:induction false} AfterAbsent(ms: seq<Message>, marker: string)
    requires marker !in IDs(ms)
    ensures After(ms, marker) == []
  {
    if ms != [] {
      assert ms[0] in ms;
      assert forall x :: x in ms[1..] ==> x in ms;
      AfterAbsent(ms[1..], marker);
    }
  }

  method CollectMissedThreadMessages(history: seq<Message>, marker: string, bot: string) returns (missed: seq<Message>)
    ensures missed == Missed(history, marker, bot)
  {
    missed := [];
    var ready := marker == "";
    var seen: set<string> := {};
    ghost var kept := [];
    for i := 0 to |history|
      invariant kept == Distinct(history[..i]) && seen == IDs(kept)
      invariant ready <==> marker == "" || marker in seen
      invariant "" !in seen
      invariant missed == NotBy(if marker == "" then kept else After(kept, marker), bot)
    {
      var m := history[i];
      assert history[..i + 1][..i] == history[..i];
      if m.id == "" || m.id in seen {
        continue;
      }
      AfterSnoc(kept, m, marker);
      NotBySnoc(kept, m, bot);
      NotBySnoc(After(kept, marker), m, bot);
      IDsSnoc(kept, m);
      if marker != "" && !ready { AfterAbsent(kept, marker); }
      seen, kept := seen + {m.id}, kept + [m];
      if !ready {
        if m.id == marker {
          ready := true;
        }
        continue;
      }
      if m.id == marker || m.user == bot {
        continue;
      }
      missed := missed + [m];
    }
    assert history[..|history|] == history;
  }

  lemma IDsSnoc(ms: seq<Message>, m: Message)
    ensures IDs(ms + [m]) == IDs(ms) + {m.id}
  {
  }

  // ----- what is missed in any history -----

  /** Message `i` has an id, and is the first of the history to have it. */
  predicate IsFirst(history: seq<Message>, i: nat)
    requires i < |history|
  {
    history[i].id != "" && forall k | 0 <= k < i :: history[k].id != history[i].id
  }

  ghost predicate IsMissed(history: seq<Message>, marker: string, bot: string, i: nat)
    requires i < |history|
  {
    && IsFirst(history, i) && history[i].user != bot
    && (marker == "" || exists k | 0 <= k < i :: history[k].id == marker)
  }

  /** The messages of the history at places `ps`, in order. */
  ghost predicate AreAt(history: seq<Message>, ps: seq<nat>, ms: seq<Message>) {
    && |ps| == |ms|
    && (forall k | 0 <= k < |ps| :: ps[k] < |history| && history[ps[k]] == ms[k])
    && forall j, k | 0 <= j < k < |ps| :: ps[j] < ps[k]
  }

  /** For any history, with ids repeated or missing: what is missed are, in order, the first messages
      of their ids that others wrote and that come after one with the marked id, if one is marked. */
  lemma {:induction false} MissedMeans(history: seq<Message>, marker: string, bot: string) returns (ps: seq<nat>)
    ensures AreAt(history, ps, Missed(history, marker, bot))
    ensures AreMissed(history, marker, bot, ps)
  {
    hide Missed, IsMissed, AreAt, AreMissed;
    if history == [] {
      ps := [];
      NothingMissed(marker, bot);
    } else {
      var n := |history| - 1;
      var before, m := history[..n], history[n];
      var qs := MissedMeans(before, marker, bot);
      assert before + [m] == history;
      MissedSnoc(before, m, marker, bot);
      AtSnoc(before, m, qs, Missed(before, marker, bot));
      MissedPlaces(before, m, marker, bot, qs);
      AppendNothing(Missed(before, marker, bot));
      ps := if IsMissed(history, marker, bot, n) then qs + [n] else qs;
    }
  }

  ghost predicate AreMissed(history: seq<Message>, marker: string, bot: string, ps: seq<nat>) {
    forall i: nat | i < |history| :: i in ps <==> IsMissed(history, marker, bot, i)
  }

  lemma NothingMissed(marker: string, bot: string)
    ensures AreAt([], [], Missed([], marker, bot)) && AreMissed([], marker, bot, [])
  {
  }

  lemma AtSnoc(history: seq<Message>, m: Message, ps: seq<nat>, ms: seq<Message>)
    requires AreAt(history, ps, ms)
    ensures AreAt(history + [m], ps, ms) && AreAt(history + [m], ps + [|history|], ms + [m])
    ensures |history| !in ps
  {
    var all, qs := history + [m], ps + [|history|];
    assert forall k | 0 <= k < |ps| :: all[ps[k]] == history[ps[k]];
    assert forall k | 0 <= k < |ps| :: qs[k] == ps[k];
  }

  lemma MissedPlaces(history: seq<Message>, m: Message, marker: string, bot: string, ps: seq<nat>)
    requires AreMissed(history, marker, bot, ps) && |history| !in ps
    ensures var all, n := history + [m], |history|;
            AreMissed(all, marker, bot, if IsMissed(all, marker, bot, n) then ps + [n] else ps)
  {
    hide IsMissed;
    var all, n := history + [m], |history|;
    var qs := if IsMissed(all, marker, bot, n) then ps + [n] else ps;
    forall i: nat | i < |all| ensures i in qs <==> IsMissed(all, marker, bot, i) {
      if i < n { MissedBefore(history, m, marker, bot, i); }
    }
  }

  lemma MissedBefore(history: seq<Message>, m: Message, marker: string, bot: string, i: nat)
    requires i < |history|
    ensures IsMissed(history + [m], marker, bot, i) <==> IsMissed(history, marker, bot, i)
  {
    var all := history + [m];
    assert forall k | 0 <= k <= i :: all[k] == history[k];
  }

  lemma {:induction false} DistinctIDs(ms: seq<Message>)
    ensures forall id :: id in IDs(Distinct(ms)) <==> id != "" && id in IDs(ms)
  {
    if ms != [] {
      hide IDs, Distinct;
      var before, m := ms[..|ms| - 1], ms[|ms| - 1];
      DistinctIDs(before);
      IDsSnoc(before, m);
      IDsSnoc(Distinct(before), m);
      assert before + [m] == ms;
      DistinctSnoc(before, m);
    } else {
      assert Distinct(ms) == [];
    }
  }

  lemma DistinctSnoc(ms: seq<Message>, m: Message)
    ensures Distinct(ms + [m]) == Distinct(ms) + if m.id == "" || m.id in IDs(Distinct(ms)) then [] else [m]
  {
    hide IDs;
    assert (ms + [m])[..|ms|] == ms;
  }

  lemma IDOf(ms: seq<Message>, id: string)
    ensures id in IDs(ms) <==> exists k | 0 <= k < |ms| :: ms[k].id == id
  {
    if id in IDs(ms) {
      var m :| m in ms && m.id == id;
      var k :| 0 <= k < |ms| && ms[k] == m;
    }
  }

  lemma LastIsMissed(history: seq<Message>, m: Message, marker: string, bot: string)
    ensures IsMissed(history + [m], marker, bot, |history|) <==>
            && m.id != "" && m.id !in IDs(history) && m.user != bot && (marker == "" || marker in IDs(history))
  {
    hide IDs;
    var all := history + [m];
    IDOf(history, m.id);
    IDOf(history, marker);
    assert all[|history|] == m;
    assert forall k | 0 <= k < |history| :: all[k] == history[k];
  }

  lemma MissedSnoc(history: seq<Message>, m: Message, marker: string, bot: string)
    ensures Missed(history + [m], marker, bot) ==
            Missed(history, marker, bot) + if IsMissed(history + [m], marker, bot, |history|) then [m] else []
  {
    hide IDs, Distinct, NotBy, After, IsMissed;
    var kept := Distinct(history);
    LastIsMissed(history, m, marker, bot);
    DistinctSnoc(history, m);
    DistinctIDs(history);
    AfterSnoc(kept, m, marker);
    NotBySnoc(kept, m, bot);
    NotBySnoc(After(kept, marker), m, bot);
    if marker !in IDs(kept) { AfterAbsent(kept, marker); }
    AppendNothing(NotBy(kept, bot));
    AppendNothing(NotBy(After(kept, marker), bot));
    AppendNothing(kept);
  }

  // ----- what a fetched window yields -----

  /** The ids in a thread are unique and not empty. */
  ghost predicate IsThread(ms: seq<Message>) {
    && (forall i | 0 <= i < |ms| :: ms[i].id != "")
    && (forall i, j | 0 <= i < j < |ms| :: ms[i].id != ms[j].id)
  }

  /** `FetchThreadHistory`: the message that started the thread, then its replies from `a` to `b`. */
  function Fetched(thread: seq<Message>, a: nat, b: nat): seq<Message>
    requires 1 <= a <= b <= |thread|
  {
    [thread[0]] + thread[a..b]
  }

  lemma {:induction false} DistinctThread(ms: seq<Message>)
    requires IsThread(ms)
    ensures Distinct(ms) == ms
  {
    if ms != [] {
      var before, m := ms[..|ms| - 1], ms[|ms| - 1];
      DistinctThread(before);
      assert before + [m] == ms;
      assert m.id !in IDs(before);
    }
  }

  lemma {:induction false} AfterAt(ms: seq<Message>, i: nat)
    requires IsThread(ms) && i < |ms|
    ensures After(ms, ms[i].id) == ms[i + 1..]
  {
    if i > 0 {
      assert ms[0].id != ms[i].id;
      AfterAt(ms[1..], i - 1);
    }
  }

  lemma FetchedIsThread(thread: seq<Message>, a: nat, b: nat)
    requires IsThread(thread) && 1 <= a <= b <= |thread|
    ensures IsThread(Fetched(thread, a, b))
  {
    var f := Fetched(thread, a, b);
    forall i | 0 <= i < |f| ensures f[i] == thread[if i == 0 then 0 else a + i - 1] {}
  }

  lemma AfterInWindow(thread: seq<Message>, a: nat, b: nat, m: nat)
    requires IsThread(thread) && 1 <= a <= b <= |thread| && m < |thread|
    ensures After(Fetched(thread, a, b), thread[m].id) ==
            if m == 0 then thread[a..b] else if a <= m < b then thread[m + 1..b] else []
  {
    hide After, IsThread;
    var f := Fetched(thread, a, b);
    FetchedIsThread(thread, a, b);
    if m == 0 {
      AfterAt(f, 0);
      assert f[1..] == thread[a..b];
    } else if a <= m < b {
      assert f[m - a + 1] == thread[m];
      AfterAt(f, m - a + 1);
      assert f[m - a + 2..] == thread[m + 1..b];
    } else {
      NotFetched(thread, a, b, m);
      AfterAbsent(f, thread[m].id);
    }
  }

  lemma NotFetched(thread: seq<Message>, a: nat, b: nat, m: nat)
    requires IsThread(thread) && 1 <= a <= b <= |thread| && 0 < m < |thread| && !(a <= m < b)
    ensures thread[m].id !in IDs(Fetched(thread, a, b))
  {
    var f := Fetched(thread, a, b);
    forall x | x in f ensures x.id != thread[m].id {
      var i :| 0 <= i < |f| && f[i] == x;
      assert x == thread[if i == 0 then 0 else a + i - 1];
    }
  }

  /** A turn that read the marker at place `m` is given all that others wrote after it up to
      the end of the window; but nothing if the window misses a marked reply, and not the
      replies before the window if the starter is marked. */
  lemma MissedInWindow(thread: seq<Message>, a: nat, b: nat, m: nat, bot: string)
    requires IsThread(thread) && 1 <= a <= b <= |thread| && m < |thread|
    ensures Missed(Fetched(thread, a, b), thread[m].id, bot) ==
            NotBy(Part(thread, a, b, m), bot)
  {
    hide After, NotBy, Distinct;
    FetchedIsThread(thread, a, b);
    DistinctThread(Fetched(thread, a, b));
    AfterInWindow(thread, a, b, m);
  }

  lemma {:induction false} NotByMembers(ms: seq<Message>, bot: string, m: Message)
    ensures m in NotBy(ms, bot) <==> m in ms && m.user != bot
  {
    if ms != [] {
      NotByMembers(ms[..|ms| - 1], bot, m);
      assert ms == ms[..|ms| - 1] + [ms[|ms| - 1]];
    }
  }

  // ----- turns -----

  /** What the generator is given: the trigger alone, or the messages missed. */
  function Batch(trigger: Message, history: seq<Message>, marker: string, bot: string): seq<Message> {
    if Missed(history, marker, bot) == [] then [trigger] else Missed(history, marker, bot)
  }

  /** A window from `a` to `b` brings message `i`, which is after the marked place `m`: the
      replies before it are cut even when the starter is marked, and a window that misses a
      marked reply brings nothing. */
  predicate Brings(a: nat, b: nat, m: nat, i: nat) {
    i < b && if m == 0 then a <= i else a <= m
  }

  /** Nothing that others wrote since the marker is in the window; the trigger goes alone then. */
  predicate BringsNothing(bot: string, thread: seq<Message>, a: nat, b: nat, m: nat) {
    forall i | m < i < |thread| && Brings(a, b, m, i) :: thread[i].user == bot
  }

  /** From the marker to the trigger the window cuts only messages of the bot, or a trigger
      that goes alone anyway. */
  predicate NothingSkipped(bot: string, thread: seq<Message>, a: nat, b: nat, m: nat, trigger: nat)
    requires trigger < |thread|
  {
    forall i | m < i <= trigger && !Brings(a, b, m, i) ::
      thread[i].user == bot || (i == trigger && BringsNothing(bot, thread, a, b, m))
  }

  function Part(thread: seq<Message>, a: nat, b: nat, m: nat): seq<Message>
    requires 1 <= a <= b <= |thread|
  {
    if m == 0 then thread[a..b] else if a <= m < b then thread[m + 1..b] else []
  }

  lemma PartMembers(thread: seq<Message>, a: nat, b: nat, m: nat, i: nat)
    requires IsThread(thread) && 1 <= a <= b <= |thread| && m < i < |thread|
    ensures thread[i] in Part(thread, a, b, m) <==> Brings(a, b, m, i)
  {
    var part, from := Part(thread, a, b, m), if m == 0 then a else m + 1;
    if Brings(a, b, m, i) { assert part[i - from] == thread[i]; }
    if thread[i] in part {
      var q :| 0 <= q < |part| && part[q] == thread[i];
      assert thread[from + q].id == thread[i].id;
    }
  }

  lemma PartPlace(thread: seq<Message>, a: nat, b: nat, m: nat, x: Message)
    requires 1 <= a <= b <= |thread| && x in Part(thread, a, b, m)
    ensures exists i | m < i < b :: thread[i] == x
  {
    var part, from := Part(thread, a, b, m), if m == 0 then a else m + 1;
    var q :| 0 <= q < |part| && part[q] == x;
    assert thread[from + q] == x;
  }

  lemma MissedNothing(bot: string, thread: seq<Message>, a: nat, b: nat, m: nat)
    requires IsThread(thread) && 1 <= a <= b <= |thread| && m < |thread|
    ensures Missed(Fetched(thread, a, b), thread[m].id, bot) == [] <==> BringsNothing(bot, thread, a, b, m)
  {
    hide Missed, Fetched, NotBy, Part, Brings, IsThread;
    MissedInWindow(thread, a, b, m, bot);
    var missed := NotBy(Part(thread, a, b, m), bot);
    if missed == [] {
      forall i | m < i < |thread| && Brings(a, b, m, i) ensures thread[i].user == bot {
        PartMembers(thread, a, b, m, i);
        NotByMembers(Part(thread, a, b, m), bot, thread[i]);
      }
    } else {
      var x := missed[0];
      NotByMembers(Part(thread, a, b, m), bot, x);
      PartPlace(thread, a, b, m, x);
      var i :| m < i < b && thread[i] == x;
      PartMembers(thread, a, b, m, i);
    }
  }

  lemma InBatch(bot: string, thread: seq<Message>, a: nat, b: nat, m: nat, trigger: nat, i: nat)
    requires IsThread(thread) && 1 <= a <= b <= |thread| && m < i <= trigger < |thread| && thread[i].user != bot
    ensures thread[i] in Batch(thread[trigger], Fetched(thread, a, b), thread[m].id, bot) <==>
            Brings(a, b, m, i) || (i == trigger && BringsNothing(bot, thread, a, b, m))
  {
    hide Missed, Fetched, NotBy, Part;
    MissedInWindow(thread, a, b, m, bot);
    MissedNothing(bot, thread, a, b, m);
    NotByMembers(Part(thread, a, b, m), bot, thread[i]);
    PartMembers(thread, a, b, m, i);
    assert thread[i] == thread[trigger] <==> i == trigger by {
      if i < trigger { assert thread[i].id != thread[trigger].id; }
    }
  }

  /** A fetched window completes the batch exactly when it skips nothing. */
  lemma FetchCompletesIffNothingSkipped(
    bot: string, thread: seq<Message>, a: nat, b: nat, m: nat, trigger: nat)
    requires IsThread(thread) && 1 <= a <= b <= |thread| && m < trigger < |thread|
    ensures (forall i | m < i <= trigger :: thread[i].user != bot ==>
               thread[i] in Batch(thread[trigger], Fetched(thread, a, b), thread[m].id, bot))
            <==> NothingSkipped(bot, thread, a, b, m, trigger)
  {
    hide Batch, Fetched, Brings, BringsNothing, IsThread;
    forall i | m < i <= trigger && thread[i].user != bot
      ensures thread[i] in Batch(thread[trigger], Fetched(thread, a, b), thread[m].id, bot) <==>
              Brings(a, b, m, i) || (i == trigger && BringsNothing(bot, thread, a, b, m))
    {
      InBatch(bot, thread, a, b, m, trigger, i);
    }
  }

  function ThreadKey(roomID: string, threadID: string): string {
    roomID + ":" + threadID
  }

  /** Room ids have no colon, so threads do not share keys. */
  lemma ThreadKeysDiffer(roomID: string, threadID: string, roomID': string, threadID': string)
    requires ':' !in roomID && ':' !in roomID' && ThreadKey(roomID, threadID) == ThreadKey(roomID', threadID')
    ensures roomID == roomID' && threadID == threadID'
  {
    var key := ThreadKey(roomID, threadID);
    assert key[|roomID|] == ':' && key[|roomID'|] == ':';
    assert forall i | 0 <= i < |roomID| :: key[i] == roomID[i] != ':';
    assert forall i | 0 <= i < |roomID'| :: key[i] == roomID'[i] != ':';
    assert key[..|roomID|] == roomID && key[|roomID| + 1..] == threadID;
    assert key[..|roomID'|] == roomID' && key[|roomID'| + 1..] == threadID';
  }

  /** The client's map of active room threads. */
  class ActiveRoomThreads {
    var lastIngested: map<string, string>

    constructor ()
      ensures lastIngested == map[]
    {
      lastIngested := map[];
    }

    method Get(roomID: string, threadID: string) returns (marker: Option<string>)
      ensures marker == if roomID != "" && threadID != "" && ThreadKey(roomID, threadID) in lastIngested
                        then Some(lastIngested[ThreadKey(roomID, threadID)]) else None
    {
      if roomID == "" || threadID == "" {
        return None;
      }
      var key := ThreadKey(roomID, threadID);
      marker := if key in lastIngested then Some(lastIngested[key]) else None;
    }

    method Mark(roomID: string, threadID: string, messageID: string)
      modifies this
      ensures lastIngested == if roomID == "" || threadID == "" then old(lastIngested)
                              else old(lastIngested)[ThreadKey(roomID, threadID) := messageID]
    {
      if roomID == "" || threadID == "" {
        return;
      }
      lastIngested := lastIngested[ThreadKey(roomID, threadID) := messageID];
    }

    /** `prepareMessageForGenerator` in a mention_only room thread; `history` is what it fetches. */
    method PrepareMessage(roomID: string, threadID: string, trigger: Message, history: seq<Message>, bot: string)
      returns (batch: seq<Message>)
      ensures var key := ThreadKey(roomID, threadID);
              batch == if roomID != "" && threadID != "" && key in lastIngested
                       then Batch(trigger, history, lastIngested[key], bot) else [trigger]
    {
      var marker := Get(roomID, threadID);
      if marker == None || history == [] {
        return [trigger];
      }
      var missed := CollectMissedThreadMessages(history, marker.value, bot);
      batch := if missed == [] then [trigger] else missed;
    }
  }

  /** A bot's client; `count` is the number of replies it asks for, 100 in the code. */
  datatype Client = Client(bot: string, count: nat)

  /** The window skips nothing; a turn whose trigger is not after its marker has nothing to ingest. */
  predicate Covers(bot: string, thread: seq<Message>, a: nat, b: nat, m: nat, trigger: nat)
    requires trigger < |thread|
  {
    trigger <= m || NothingSkipped(bot, thread, a, b, m, trigger)
  }

  /** A turn whose fetch fails is given its trigger alone, which is all when only the bot wrote
      in between. */
  predicate AloneCovers(bot: string, thread: seq<Message>, m: nat, trigger: nat)
    requires trigger < |thread|
  {
    forall i | m < i < trigger :: thread[i].user == bot
  }

  /** A turn, with its trigger and the marker it read given by their places in the thread.
      `covering` records that its fetch skipped nothing from that marker to the trigger. */
  datatype Turn = Turn(
    trigger: nat, read: Option<nat>, prepared: bool, covering: bool, batch: seq<Message>, outcome: Option<bool>)

  /** `marker` is the place of the marked message; the thread is active once there is one. */
  datatype State = State(thread: seq<Message>, marker: Option<nat>, turns: seq<Turn>)

  const Quiet := State([], None, [])

  datatype Action =
    | Post(m: Message)
    | Begin(i: nat)
    | Fetch(t: nat, a: nat, b: nat)   // replies `a` to `b` of the thread, after its starter
    | FetchFails(t: nat)
    | End(t: nat, ok: bool)

  /** The turn has read a marker and still has to fetch. */
  predicate Preparing(s: State, t: nat) {
    && t < |s.turns| && !s.turns[t].prepared && s.turns[t].trigger < |s.thread|
    && s.turns[t].read.Some? && s.turns[t].read.value < |s.thread|
  }

  /** The server answers with `count` replies in a row, or with all when there are no more. */
  predicate IsWindow(c: Client, thread: seq<Message>, a: nat, b: nat) {
    1 <= a <= b <= |thread| && b - a == if |thread| - 1 <= c.count then |thread| - 1 else c.count
  }

  ghost predicate Enabled(c: Client, s: State, act: Action) {
    match act
    case Post(m) => IsThread(s.thread + [m])
    case Begin(i) => i < |s.thread| && s.thread[i].user != c.bot && forall t :: t in s.turns ==> t.trigger != i
    case Fetch(t, a, b) => Preparing(s, t) && IsWindow(c, s.thread, a, b)
    case FetchFails(t) => Preparing(s, t)
    case End(t, _) => t < |s.turns| && s.turns[t].prepared && s.turns[t].outcome == None
  }

  ghost function Do(c: Client, s: State, act: Action): State
    requires Enabled(c, s, act)
  {
    match act
    case Post(m) => s.(thread := s.thread + [m])
    case Begin(i) =>
      var t := Turn(i, s.marker, s.marker == None, s.marker == None,
                    if s.marker == None then [s.thread[i]] else [], None);
      s.(turns := s.turns + [t])
    case Fetch(t, a, b) =>
      var turn := s.turns[t];
      var m := turn.read.value;
      var batch := Batch(s.thread[turn.trigger], Fetched(s.thread, a, b), s.thread[m].id, c.bot);
      var covering := Covers(c.bot, s.thread, a, b, m, turn.trigger);
      s.(turns := s.turns[t := turn.(prepared := true, batch := batch, covering := covering)])
    case FetchFails(t) =>
      var turn := s.turns[t];
      var covering := AloneCovers(c.bot, s.thread, turn.read.value, turn.trigger);
      s.(turns := s.turns[t := turn.(prepared := true, batch := [s.thread[turn.trigger]], covering := covering)])
    case End(t, ok) =>
      var turn := s.turns[t];
      s.(marker := if ok then Some(turn.trigger) else s.marker, turns := s.turns[t := turn.(outcome := Some(ok))])
  }

  /** The state after a run, if each of its actions was enabled in turn. */
  ghost function Run(c: Client, actions: seq<Action>): Option<State> {
    if actions == [] then Some(Quiet)
    else
      var s, act := Run(c, actions[..|actions| - 1]), actions[|actions| - 1];
      if s.Some? && Enabled(c, s.value, act) then Some(Do(c, s.value, act)) else None
  }

  /** The turn succeeded, so its batch was ingested and its trigger marked. */
  predicate Succeeded(turn: Turn) {
    turn.outcome == Some(true)
  }

  // ----- no message is lost -----

  /** Message `i` needs no further turn: a bot wrote it, a turn begun before the thread was
      active has it or a later trigger, or it was in the batch of a turn that succeeded. */
  ghost predicate Ingested(c: Client, s: State, i: nat)
    requires i < |s.thread|
  {
    || s.thread[i].user == c.bot
    || (exists t :: t in s.turns && Succeeded(t) && t.read == None && i <= t.trigger)
    || (exists t :: t in s.turns && Succeeded(t) && s.thread[i] in t.batch)
  }

  ghost predicate IngestedUpTo(c: Client, s: State, m: nat) {
    m < |s.thread| && forall i | 0 <= i <= m :: Ingested(c, s, i)
  }

  ghost predicate TurnFits(c: Client, s: State, t: Turn) {
    && t.trigger < |s.thread|
    && (t.read.None? ==> t.prepared)
    && (Succeeded(t) ==> t.prepared)
    && (t.read.Some? ==> IngestedUpTo(c, s, t.read.value))
    && (t.read.Some? && t.prepared && t.covering ==>
          forall i | t.read.value < i <= t.trigger :: s.thread[i].user != c.bot ==> s.thread[i] in t.batch)
  }

  /** Every successful turn of the active thread had fetched all from its marker to its trigger. */
  predicate AllCovering(s: State) {
    forall t | 0 <= t < |s.turns| :: Succeeded(s.turns[t]) ==> s.turns[t].covering
  }

  ghost predicate Invariant(c: Client, s: State) {
    && IsThread(s.thread)
    && (s.marker.Some? ==> IngestedUpTo(c, s, s.marker.value))
    && (forall t | 0 <= t < |s.turns| :: TurnFits(c, s, s.turns[t]))
  }

  /** Nothing done takes away what has been ingested. */
  lemma IngestedStays(c: Client, s: State, act: Action, i: nat)
    requires Enabled(c, s, act) && i < |s.thread| && Ingested(c, s, i)
    requires forall t | 0 <= t < |s.turns| :: Succeeded(s.turns[t]) ==> s.turns[t].prepared
    ensures i < |Do(c, s, act).thread| && Ingested(c, Do(c, s, act), i)
  {
    hide IsThread, Batch, Covers;
    var s' := Do(c, s, act);
    forall t | t in s.turns && Succeeded(t) ensures t in s'.turns {
      var n :| 0 <= n < |s.turns| && s.turns[n] == t;
      assert s'.turns[n] == t;
    }
  }

  lemma UpToStays(c: Client, s: State, act: Action, m: nat)
    requires Enabled(c, s, act) && IngestedUpTo(c, s, m)
    requires forall t | 0 <= t < |s.turns| :: Succeeded(s.turns[t]) ==> s.turns[t].prepared
    ensures IngestedUpTo(c, Do(c, s, act), m)
  {
    forall i | 0 <= i <= m ensures i < |Do(c, s, act).thread| && Ingested(c, Do(c, s, act), i) {
      IngestedStays(c, s, act, i);
    }
  }

  /** A covering fetch gives a turn everything others wrote since the marker it read. */
  lemma FetchFits(c: Client, s: State, turn: Turn, a: nat, b: nat, i: nat)
    requires IsThread(s.thread) && 1 <= a <= b <= |s.thread| && turn.trigger < |s.thread|
    requires turn.read.Some? && turn.read.value < i <= turn.trigger && s.thread[i].user != c.bot
    requires Covers(c.bot, s.thread, a, b, turn.read.value, turn.trigger)
    ensures s.thread[i] in Batch(s.thread[turn.trigger], Fetched(s.thread, a, b), s.thread[turn.read.value].id, c.bot)
  {
    hide Batch, Fetched;
    InBatch(c.bot, s.thread, a, b, turn.read.value, turn.trigger, i);
  }

  lemma TurnStays(c: Client, s: State, act: Action, n: nat)
    requires Invariant(c, s) && Enabled(c, s, act) && n < |s.turns|
    ensures n < |Do(c, s, act).turns| && TurnFits(c, Do(c, s, act), Do(c, s, act).turns[n])
  {
    var s', t := Do(c, s, act), s.turns[n];
    assert TurnFits(c, s, t);
    if t.read.Some? { UpToStays(c, s, act, t.read.value); }
    if act.Fetch? && act.t == n && Covers(c.bot, s.thread, act.a, act.b, t.read.value, t.trigger) {
      forall i | t.read.value < i <= t.trigger && s.thread[i].user != c.bot
        ensures s.thread[i] in s'.turns[n].batch
      {
        FetchFits(c, s, t, act.a, act.b, i);
      }
    }
    hide IngestedUpTo, IsThread, Batch, Covers;
  }

  lemma NewTurnFits(c: Client, s: State, i: nat)
    requires Invariant(c, s) && Enabled(c, s, Begin(i))
    ensures TurnFits(c, Do(c, s, Begin(i)), Do(c, s, Begin(i)).turns[|s.turns|])
  {
    if s.marker.Some? { UpToStays(c, s, Begin(i), s.marker.value); }
  }

  /** A turn that succeeds has everything up to its trigger ingested. */
  lemma MarkFits(c: Client, s: State, n: nat)
    requires Invariant(c, s) && Enabled(c, s, End(n, true)) && s.turns[n].covering
    ensures IngestedUpTo(c, Do(c, s, End(n, true)), s.turns[n].trigger)
  {
    var s', t := Do(c, s, End(n, true)), s.turns[n];
    assert TurnFits(c, s, t);
    assert s'.turns[n] in s'.turns;
    forall i | 0 <= i <= t.trigger ensures Ingested(c, s', i) {
      if t.read.Some? && i <= t.read.value {
        IngestedStays(c, s, End(n, true), i);
      }
    }
  }

  lemma InvariantStep(c: Client, s: State, act: Action)
    requires Invariant(c, s) && Enabled(c, s, act) && AllCovering(Do(c, s, act))
    ensures Invariant(c, Do(c, s, act))
  {
    var s' := Do(c, s, act);
    forall n | 0 <= n < |s'.turns| ensures TurnFits(c, s', s'.turns[n]) {
      if n < |s.turns| { TurnStays(c, s, act, n); } else { NewTurnFits(c, s, act.i); }
    }
    if act.End? && act.ok {
      assert s'.turns[act.t].covering;
      MarkFits(c, s, act.t);
    } else if s.marker.Some? {
      UpToStays(c, s, act, s.marker.value);
    }
    hide IngestedUpTo, TurnFits, Batch, Covers;
  }

  predicate PreparedFirst(s: State) {
    forall t | 0 <= t < |s.turns| :: s.turns[t].outcome != None ==> s.turns[t].prepared
  }

  lemma {:induction false} PreparedFirstHolds(c: Client, actions: seq<Action>)
    requires Run(c, actions).Some?
    ensures PreparedFirst(Run(c, actions).value)
  {
    hide IsThread, Batch, Covers;
    if actions != [] { PreparedFirstHolds(c, actions[..|actions| - 1]); }
  }

  lemma CoveringBefore(c: Client, s: State, act: Action)
    requires Enabled(c, s, act) && AllCovering(Do(c, s, act)) && PreparedFirst(s)
    ensures AllCovering(s)
  {
    hide IsThread, Batch, Covers;
    forall t | 0 <= t < |s.turns| && Succeeded(s.turns[t]) ensures s.turns[t].covering {
      assert Do(c, s, act).turns[t] == s.turns[t];
    }
  }

  lemma {:induction false} InvariantHolds(c: Client, actions: seq<Action>)
    requires Run(c, actions).Some? && AllCovering(Run(c, actions).value)
    ensures Invariant(c, Run(c, actions).value)
  {
    hide Do, Enabled, Invariant, AllCovering;
    if actions == [] {
      QuietFits(c);
    } else {
      var s := Run(c, actions[..|actions| - 1]).value;
      PreparedFirstHolds(c, actions[..|actions| - 1]);
      CoveringBefore(c, s, actions[|actions| - 1]);
      InvariantHolds(c, actions[..|actions| - 1]);
      InvariantStep(c, s, actions[|actions| - 1]);
    }
  }

  lemma QuietFits(c: Client)
    ensures Invariant(c, Quiet)
  {
  }

  /** No message is lost, however turns overlap and finish: up to the marker, every message of
      another user after the last trigger of a turn begun before the thread was active was in
      the batch of a turn that succeeded. */
  lemma NoMessageIsLost(c: Client, actions: seq<Action>, i: nat)
    requires Run(c, actions).Some? && AllCovering(Run(c, actions).value)
    requires var s := Run(c, actions).value;
             && s.marker.Some? && i <= s.marker.value && i < |s.thread| && s.thread[i].user != c.bot
             && forall t :: t in s.turns && Succeeded(t) && t.read == None ==> t.trigger < i
    ensures var s := Run(c, actions).value;
            exists t :: t in s.turns && Succeeded(t) && s.thread[i] in t.batch
  {
    hide TurnFits;
    InvariantHolds(c, actions);
    assert Ingested(c, Run(c, actions).value, i);
  }

  lemma Then(c: Client, actions: seq<Action>, s: State, act: Action) returns (next: seq<Action>, s': State)
    requires Run(c, actions) == Some(s) && Enabled(c, s, act)
    ensures next == actions + [act] && s' == Do(c, s, act) && Run(c, next) == Some(s')
  {
    next, s' := actions + [act], Do(c, s, act);
    assert next[..|actions|] == actions;
  }

  // ----- when fetches skip nothing -----

  /** Replies as many as the client asks for are never cut, nor are those since a marked reply. */
  lemma {:induction false} FewRepliesAreCovered(c: Client, thread: seq<Message>, a: nat, b: nat, m: nat, trigger: nat)
    requires IsWindow(c, thread, a, b) && trigger < |thread|
    requires |thread| - 1 <= c.count || (b == |thread| && |thread| - m <= c.count)
    ensures Covers(c.bot, thread, a, b, m, trigger)
  {
    assert forall i | m < i <= trigger :: Brings(a, b, m, i);
  }

  ghost predicate PreparedCover(s: State) {
    forall t | 0 <= t < |s.turns| :: s.turns[t].prepared ==> s.turns[t].covering
  }

  lemma {:induction false} ShortThreadsAreCovered(c: Client, actions: seq<Action>)
    requires Run(c, actions).Some? && |Run(c, actions).value.thread| <= c.count + 1
    requires forall act :: act in actions ==> !act.FetchFails?
    ensures PreparedCover(Run(c, actions).value)
  {
    hide IsThread, Batch, Covers;
    if actions != [] {
      var before, act := actions[..|actions| - 1], actions[|actions| - 1];
      var s := Run(c, before).value;
      assert act in actions;
      assert |s.thread| <= |Do(c, s, act).thread|;
      ShortThreadsAreCovered(c, before);
      if act.Fetch? {
        FewRepliesAreCovered(c, s.thread, act.a, act.b, s.turns[act.t].read.value, s.turns[act.t].trigger);
      }
    }
  }

  /** So in a thread with at most `count` replies no message is lost while fetches succeed. */
  lemma ShortThreadsLoseNothing(c: Client, actions: seq<Action>, i: nat)
    requires Run(c, actions).Some? && |Run(c, actions).value.thread| <= c.count + 1
    requires forall act :: act in actions ==> !act.FetchFails?
    requires var s := Run(c, actions).value;
             && s.marker.Some? && i <= s.marker.value && i < |s.thread| && s.thread[i].user != c.bot
             && forall t :: t in s.turns && Succeeded(t) && t.read == None ==> t.trigger < i
    ensures var s := Run(c, actions).value;
            exists t :: t in s.turns && Succeeded(t) && s.thread[i] in t.batch
  {
    hide Run, Ingested;
    ShortThreadsAreCovered(c, actions);
    PreparedFirstHolds(c, actions);
    NoMessageIsLost(c, actions, i);
  }

  // ----- a run that loses a message -----

  lemma PrefixIsThread(thread: seq<Message>, k: nat)
    requires IsThread(thread) && k < |thread|
    ensures IsThread(thread[..k] + [thread[k]]) && thread[..k] + [thread[k]] == thread[..k + 1]
  {
  }

  /** The starter activates the thread, then messages come up to place `k`. */
  lemma {:induction false} PostedRun(c: Client, thread: seq<Message>, k: nat) returns (r: seq<Action>, s: State)
    requires IsThread(thread) && 1 <= k <= |thread| && thread[0].user != c.bot
    ensures Run(c, r) == Some(s)
    ensures s == State(thread[..k], Some(0), [Turn(0, None, true, true, [thread[0]], Some(true))])
    decreases k
  {
    hide IsThread, Run, Batch, Covers;
    if k == 1 {
      PrefixIsThread(thread, 0);
      EmptyRun(c);
      assert thread[..0] == [] && thread[..1][0] == thread[0];
      r, s := Then(c, [], Quiet, Post(thread[0]));
      r, s := Then(c, r, s, Begin(0));
      r, s := Then(c, r, s, End(0, true));
    } else {
      r, s := PostedRun(c, thread, k - 1);
      PrefixIsThread(thread, k - 1);
      r, s := Then(c, r, s, Post(thread[k - 1]));
    }
  }

  lemma EmptyRun(c: Client)
    ensures Run(c, []) == Some(Quiet)
  {
  }

  lemma CutReply(c: Client, thread: seq<Message>)
    requires IsThread(thread) && 1 <= c.count && |thread| == c.count + 2
    requires thread[1].user != c.bot && thread[c.count + 1].user != c.bot
    ensures thread[1] !in Batch(thread[c.count + 1], Fetched(thread, 2, |thread|), thread[0].id, c.bot)
    ensures thread[1] != thread[0]
  {
    hide Batch, Fetched;
    InBatch(c.bot, thread, 2, |thread|, 0, c.count + 1, 1);
    assert thread[0].id != thread[1].id;
  }

  /** Covering fetches are needed: whatever the count, in a thread with one reply more a fetch of
      the latest replies cuts the one next to a marked starter, although it holds both the marker
      and the trigger; the marker then passes that reply and no batch ever had it. */
  lemma ShortWindowLosesMessage(c: Client, thread: seq<Message>)
    requires IsThread(thread) && 1 <= c.count && |thread| == c.count + 2
    requires thread[0].user != c.bot && thread[1].user != c.bot && thread[c.count + 1].user != c.bot
    ensures exists actions ::
              && Run(c, actions).Some?
              && var s := Run(c, actions).value;
                 && s.thread == thread && s.marker == Some(c.count + 1)
                 && (forall t :: t in s.turns ==> Succeeded(t) && thread[1] !in t.batch)
  {
    hide IsThread, Run, Batch, Covers, Fetched;
    var last := c.count + 1;
    var r, s := PostedRun(c, thread, |thread|);
    assert thread[..|thread|] == thread;
    r, s := Then(c, r, s, Begin(last));
    r, s := Then(c, r, s, Fetch(1, 2, |thread|));
    r, s := Then(c, r, s, End(1, true));
    CutReply(c, thread);
  }

  // ----- sequential turns -----

  /** One turn at a time, its trigger after the marker it read and, if it fetches, the last
      message fetched. */
  ghost predicate OneAtATime(s: State, act: Action) {
    match act
    case Begin(_) => forall t | 0 <= t < |s.turns| :: s.turns[t].outcome != None
    case Fetch(t, a, b) => Preparing(s, t) ==> s.turns[t].read.value < b == s.turns[t].trigger + 1
    case FetchFails(t) => Preparing(s, t) ==> s.turns[t].read.value <= s.turns[t].trigger
    case _ => true
  }

  ghost predicate IsSequential(c: Client, actions: seq<Action>) {
    actions == [] ||
    var n := |actions| - 1;
    && IsSequential(c, actions[..n])
    && (Run(c, actions[..n]).Some? ==> OneAtATime(Run(c, actions[..n]).value, actions[n]))
  }

  predicate IsWithin(t: Turn, p: nat) {
    p <= t.trigger && if t.read == None then p == t.trigger else t.read.value < p
  }

  /** The batch of a turn lies between the marker it read and its trigger. */
  ghost predicate BatchWithin(s: State, t: Turn) {
    forall x :: x in t.batch ==> exists p | 0 <= p < |s.thread| :: s.thread[p] == x && IsWithin(t, p)
  }

  ghost predicate SequentialTurn(s: State, n: nat)
    requires n < |s.turns|
  {
    var t := s.turns[n];
    && t.trigger < |s.thread|
    && (t.prepared ==> BatchWithin(s, t))
    && (t.outcome == None ==> n == |s.turns| - 1 && t.read == s.marker)
    && (t.outcome != None ==> t.prepared)
    && (t.read.Some? ==> t.read.value != t.trigger && (t.prepared ==> t.read.value < t.trigger))
    && (Succeeded(t) ==> s.marker.Some? && t.trigger <= s.marker.value)
  }

  /** Turn `n'` came after turn `n`. */
  predicate InOrder(s: State, n: nat, n': nat)
    requires n < n' < |s.turns|
  {
    && s.turns[n].trigger != s.turns[n'].trigger
    && (Succeeded(s.turns[n]) ==> s.turns[n'].read.Some? && s.turns[n].trigger <= s.turns[n'].read.value)
  }

  ghost predicate SequentialFits(s: State) {
    && IsThread(s.thread)
    && (s.marker.Some? ==> exists n | 0 <= n < |s.turns| :: s.turns[n].trigger == s.marker.value)
    && (forall n | 0 <= n < |s.turns| :: SequentialTurn(s, n))
    && (forall n, n' | 0 <= n < n' < |s.turns| :: InOrder(s, n, n'))
  }

  lemma BatchPlace(bot: string, thread: seq<Message>, a: nat, m: nat, trigger: nat, x: Message)
    requires IsThread(thread) && 1 <= a <= trigger + 1 <= |thread| && m < trigger
    requires x in Batch(thread[trigger], Fetched(thread, a, trigger + 1), thread[m].id, bot)
    ensures exists p | m < p <= trigger :: thread[p] == x
  {
    hide Missed, NotBy, Fetched, IsThread, Part;
    MissedInWindow(thread, a, trigger + 1, m, bot);
    NotByMembers(Part(thread, a, trigger + 1, m), bot, x);
    if x in Part(thread, a, trigger + 1, m) {
      PartPlace(thread, a, trigger + 1, m, x);
      var p :| m < p < trigger + 1 && thread[p] == x;
    } else {
      assert thread[trigger] == x;
    }
  }

  lemma FetchedWithin(c: Client, s: State, n: nat, a: nat, b: nat)
    requires SequentialFits(s) && Enabled(c, s, Fetch(n, a, b)) && OneAtATime(s, Fetch(n, a, b))
    ensures Do(c, s, Fetch(n, a, b)).turns[n].read.value < s.turns[n].trigger
    ensures BatchWithin(Do(c, s, Fetch(n, a, b)), Do(c, s, Fetch(n, a, b)).turns[n])
  {
    hide Batch, Fetched, IsThread, Covers;
    var t, t' := s.turns[n], Do(c, s, Fetch(n, a, b)).turns[n];
    assert SequentialTurn(s, n);
    forall x | x in t'.batch
      ensures exists p | 0 <= p < |s.thread| :: s.thread[p] == x && IsWithin(t', p)
    {
      BatchPlace(c.bot, s.thread, a, t.read.value, t.trigger, x);
      var p :| t.read.value < p <= t.trigger && s.thread[p] == x;
      assert IsWithin(t', p);
    }
  }

  lemma SequentialTurnStep(c: Client, s: State, act: Action, n: nat)
    requires SequentialFits(s) && Enabled(c, s, act) && OneAtATime(s, act) && n < |Do(c, s, act).turns|
    ensures SequentialTurn(Do(c, s, act), n)
  {
    hide IsThread, Batch;
    var s' := Do(c, s, act);
    if n < |s.turns| {
      assert SequentialTurn(s, n);
      if act.Fetch? && act.t == n {
        FetchedWithin(c, s, n, act.a, act.b);
      } else if act.FetchFails? && act.t == n {
        assert IsWithin(s'.turns[n], s.turns[n].trigger);
      } else if s'.turns[n].prepared {
        forall x | x in s'.turns[n].batch
          ensures exists p | 0 <= p < |s'.thread| :: s'.thread[p] == x && IsWithin(s'.turns[n], p)
        {
          var p :| 0 <= p < |s.thread| && s.thread[p] == x && IsWithin(s.turns[n], p);
          assert s'.thread[p] == x && IsWithin(s'.turns[n], p);
        }
      }
      if act.End? { assert SequentialTurn(s, act.t); }
    } else if s.marker.Some? {
      var k :| 0 <= k < |s.turns| && s.turns[k].trigger == s.marker.value;
      assert s.turns[k] in s.turns;
    }
  }

  lemma InOrderStep(c: Client, s: State, act: Action, n: nat, n': nat)
    requires SequentialFits(s) && Enabled(c, s, act) && OneAtATime(s, act) && n < n' < |Do(c, s, act).turns|
    ensures InOrder(Do(c, s, act), n, n')
  {
    hide IsThread, Batch;
    assert SequentialTurn(s, n);
    if n' < |s.turns| {
      assert InOrder(s, n, n');
    } else {
      assert s.turns[n] in s.turns;
    }
  }

  lemma SequentialStep(c: Client, s: State, act: Action)
    requires SequentialFits(s) && Enabled(c, s, act) && OneAtATime(s, act)
    ensures SequentialFits(Do(c, s, act))
  {
    var s' := Do(c, s, act);
    forall n | 0 <= n < |s'.turns| ensures SequentialTurn(s', n) { SequentialTurnStep(c, s, act, n); }
    forall n, n' | 0 <= n < n' < |s'.turns| ensures InOrder(s', n, n') { InOrderStep(c, s, act, n, n'); }
    hide SequentialTurn, InOrder, Batch;
    if s'.marker.Some? {
      if act.End? && act.ok {
        assert s'.turns[act.t].trigger == s'.marker.value;
      } else {
        var n :| 0 <= n < |s.turns| && s.turns[n].trigger == s.marker.value;
        assert s'.turns[n].trigger == s'.marker.value;
      }
    }
  }

  lemma {:induction false} SequentialHolds(c: Client, actions: seq<Action>)
    requires Run(c, actions).Some? && IsSequential(c, actions)
    ensures SequentialFits(Run(c, actions).value)
  {
    hide Do, Enabled, SequentialFits, OneAtATime;
    if actions == [] {
      QuietIsSequential();
    } else {
      var n := |actions| - 1;
      SequentialHolds(c, actions[..n]);
      SequentialStep(c, Run(c, actions[..n]).value, actions[n]);
    }
  }

  lemma QuietIsSequential()
    ensures SequentialFits(Quiet)
  {
  }

  /** When turns come one after the other, no message is in the batches of two that succeeded. */
  lemma BatchesAreDisjoint(c: Client, actions: seq<Action>, n: nat, n': nat, x: Message)
    requires Run(c, actions).Some? && IsSequential(c, actions)
    requires n < n' < |Run(c, actions).value.turns|
    requires Succeeded(Run(c, actions).value.turns[n]) && Succeeded(Run(c, actions).value.turns[n'])
    ensures !(x in Run(c, actions).value.turns[n].batch && x in Run(c, actions).value.turns[n'].batch)
  {
    SequentialHolds(c, actions);
    var s := Run(c, actions).value;
    var t, t' := s.turns[n], s.turns[n'];
    assert SequentialTurn(s, n) && SequentialTurn(s, n') && InOrder(s, n, n');
  }

  // ----- what a turn starts from -----

  lemma RunSnoc(c: Client, actions: seq<Action>, act: Action)
    requires Run(c, actions + [act]).Some?
    ensures Run(c, actions).Some? && Enabled(c, Run(c, actions).value, act)
    ensures Run(c, actions + [act]) == Some(Do(c, Run(c, actions).value, act))
  {
    hide Do, Enabled;
    assert (actions + [act])[..|actions|] == actions;
  }

  ghost predicate NoneSucceeds(actions: seq<Action>) {
    forall act :: act in actions ==> !(act.End? && act.ok)
  }

  lemma {:induction false} MarkStays(c: Client, actions: seq<Action>, more: seq<Action>)
    requires Run(c, actions + more).Some? && NoneSucceeds(more)
    ensures Run(c, actions).Some? && Run(c, actions + more).value.marker == Run(c, actions).value.marker
    decreases |more|
  {
    if more == [] {
      AppendNothing(actions);
    } else {
      hide Run, Enabled;
      var before, act := more[..|more| - 1], more[|more| - 1];
      SplitLast(actions, more);
      assert act in more;
      RunSnoc(c, actions + before, act);
      MarkStays(c, actions, before);
    }
  }

  lemma TurnBegins(c: Client, actions: seq<Action>, i: nat)
    requires Run(c, actions + [Begin(i)]).Some?
    ensures Run(c, actions).Some?
    ensures var s, s' := Run(c, actions).value, Run(c, actions + [Begin(i)]).value;
            && i < |s.thread| && |s'.turns| == |s.turns| + 1
            && s'.turns[|s.turns|] == Turn(i, s.marker, s.marker == None, s.marker == None,
                                           if s.marker == None then [s.thread[i]] else [], None)
  {
    hide Run;
    RunSnoc(c, actions, Begin(i));
  }

  /** Until a turn of the thread has succeeded, a turn is given its trigger alone. */
  lemma {:induction false} FirstTurnsGoAlone(c: Client, actions: seq<Action>, i: nat)
    requires Run(c, actions + [Begin(i)]).Some? && NoneSucceeds(actions)
    ensures var s := Run(c, actions + [Begin(i)]).value;
            && s.turns != [] && i < |s.thread|
            && var turn := s.turns[|s.turns| - 1];
               turn.read == None && turn.prepared && turn.batch == [s.thread[i]]
  {
    hide Run;
    RunSnoc(c, actions, Begin(i));
    TurnBegins(c, actions, i);
    EmptyRun(c);
    assert [] + actions == actions;
    MarkStays(c, [], actions);
  }

  /** After that, a turn starts from the trigger of the one that was last to succeed. */
  lemma {:induction false} TurnStartsFromLastSuccess(
    c: Client, actions: seq<Action>, t: nat, more: seq<Action>, i: nat)
    requires Run(c, actions + [End(t, true)] + more + [Begin(i)]).Some? && NoneSucceeds(more)
    ensures Run(c, actions).Some? && t < |Run(c, actions).value.turns|
    ensures var s := Run(c, actions + [End(t, true)] + more + [Begin(i)]).value;
            && s.turns != []
            && var turn := s.turns[|s.turns| - 1];
               turn.trigger == i && !turn.prepared && turn.read == Some(Run(c, actions).value.turns[t].trigger)
  {
    hide Run;
    var ended := actions + [End(t, true)];
    RunSnoc(c, ended + more, Begin(i));
    TurnBegins(c, ended + more, i);
    MarkStays(c, ended, more);
    RunSnoc(c, actions, End(t, true));
  }
}
