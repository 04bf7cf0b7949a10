/** The two ways bot/opencode_generator.go turns server events into text chunks: the older
    consumer `consumeEvents` (lines 1158-1340), and `GenerateResponseStream` (lines 200-247)
    over what `consumeRenderEvents` sends.  They send the same chunks of a part unless text is resumed. */
module ChunkStream {
  import opened Text
  import opened RenderEvents
  import opened EventStream
  import opened StreamReplay
  import opened StreamBuffering
  import opened SampleStreams

  /** A chunk on the channel; the part it came from is not sent, only recorded here. */
  datatype Chunk = Chunk(partID: string, text: string)

  /** The new text of a part as a chunk, given the text sent before. */
  function Difference(previous: string, next: string): seq<string> {
    if next == "" then []
    else if previous == "" || !(previous <= next) then [next]
    else if previous == next then []
    else [next[|previous|..]]
  }

  function Of(chunks: seq<Chunk>, p: string): seq<string> {
    if chunks == [] then []
    else
      var c := chunks[|chunks| - 1];
      Of(chunks[..|chunks| - 1], p) + if c.partID == p then [c.text] else []
  }

  function Tagged(p: string, texts: seq<string>): seq<Chunk> {
    seq(|texts|, i requires 0 <= i < |texts| => Chunk(p, texts[i]))
  }

  lemma {:induction false} OfAppend(a: seq<Chunk>, b: seq<Chunk>, p: string)
    ensures Of(a + b, p) == Of(a, p) + Of(b, p)
  {
    if b == [] {
      AppendNothing(a);
      AppendNothing(Of(a, p));
    } else {
      hide Of;
      var before, c := b[..|b| - 1], b[|b| - 1];
      SplitLast(a, b);
      OfAppend(a, before, p);
      OfSnoc(a + before, c, p);
      OfSnoc(before, c, p);
      Assoc(Of(a, p), Of(before, p), if c.partID == p then [c.text] else []);
    }
  }

  lemma OfSnoc(chunks: seq<Chunk>, c: Chunk, p: string)
    ensures Of(chunks + [c], p) == Of(chunks, p) + if c.partID == p then [c.text] else []
  {
    assert (chunks + [c])[..|chunks|] == chunks;
  }

  lemma OfDifference(q: string, previous: string, next: string, p: string)
    ensures Of(Tagged(q, Difference(previous, next)), p) == if p == q then Difference(previous, next) else []
  {
    var c := Tagged(q, Difference(previous, next));
    if c != [] {
      assert c[..0] == [];
    }
  }

  // ----- GenerateResponseStream over render events -----

  function Adapt(previous: string, e: RenderEvent): seq<Chunk> {
    match e
    case TextDelta(_, q, t) => if t == "" then [] else [Chunk(q, t)]
    case TextSet(_, q, t) => Tagged(q, Difference(previous, t))
    case _ => []
  }

  function EventPart(e: RenderEvent): string {
    if e.TextDelta? || e.TextSet? then e.partID else ""
  }

  function Adapted(out: seq<RenderEvent>): seq<Chunk> {
    if out == [] then []
    else
      var before, e := out[..|out| - 1], out[|out| - 1];
      Adapted(before) + Adapt(Replay("", before, EventPart(e)), e)
  }

  class ChunkAdapter {
    var partText: map<string, string>
    ghost var received: seq<RenderEvent>
    ghost var sent: seq<Chunk>

    /** The adapter keeps, per part, the replay of what it received. */
    ghost predicate Valid()
      reads this
    {
      sent == Adapted(received) && forall p :: Get(partText, p) == Replay("", received, p)
    }

    constructor ()
      ensures Valid() && received == []
    {
      partText, received, sent := map[], [], [];
    }

    /** `sendChunk`; it fails when the context is cancelled. */
    method Send(p: string, chunk: string) returns (ok: bool)
      modifies this`sent
      ensures sent == if ok then old(sent) + [Chunk(p, chunk)] else old(sent)
    {
      ok := *;
      if ok { sent := sent + [Chunk(p, chunk)]; }
    }

    /** One event; when `ok` is false the adapter stops, having sent nothing for it. */
    method Feed(e: RenderEvent) returns (ok: bool)
      requires Valid()
      modifies this
      ensures if ok then Valid() && received == old(received) + [e] else sent == old(sent)
    {
      hide Replay, Adapted;
      ghost var before := received;
      ok, received := true, received + [e];
      AdaptedSnoc(before, e);
      forall p ensures Replay("", received, p) == ReplayEvent(Replay("", before, p), e, p) {
        ReplaySnoc("", before, e, p);
      }
      match e {
        case TextDelta(_, q, t) =>
          if t != "" {
            partText := partText[q := Get(partText, q) + t];
            ok := Send(q, t);
          }
        case TextSet(_, q, t) =>
          var previous := Get(partText, q);
          partText := partText[q := t];
          if t != "" {
            var chunk := t;
            if previous != "" && previous <= t {
              chunk := t[|previous|..];
            }
            if chunk != "" {
              ok := Send(q, chunk);
            }
          }
        case _ =>
      }
    }

    /** The whole loop: the first `n` of the events became chunks, and all did unless the
        context was cancelled. */
    method FeedAll(es: seq<RenderEvent>) returns (n: nat, ok: bool)
      requires Valid() && received == []
      modifies this
      ensures n <= |es| && sent == Adapted(es[..n]) && (ok ==> n == |es|)
    {
      hide Adapted, Replay;
      n, ok := 0, true;
      while n < |es|
        invariant n <= |es| && Valid() && received == es[..n] && ok
      {
        ok := Feed(es[n]);
        if !ok {
          return;
        }
        assert es[..n + 1] == es[..n] + [es[n]];
        n := n + 1;
      }
    }
  }

  lemma AdaptedSnoc(out: seq<RenderEvent>, e: RenderEvent)
    ensures Adapted(out + [e]) == Adapted(out) + Adapt(Replay("", out, EventPart(e)), e)
  {
    assert (out + [e])[..|out|] == out;
  }

  // ----- consumeEvents -----

  datatype OldState = OldState(assistants: set<string>, partText: map<string, string>, pending: map<string, Pending>)

  const OldInitial := OldState({}, map[], map[])

  function OldFlush(pending: map<string, Pending>, id: string, order: seq<string>): seq<Chunk> {
    if order == [] then []
    else
      var k := order[|order| - 1];
      OldFlush(pending, id, order[..|order| - 1]) +
      if k in pending && Releases(pending[k], id) then [Chunk(k, pending[k].text)] else []
  }

  function OldKept(pending: map<string, Pending>, id: string, left: set<string>): map<string, Pending> {
    map k | k in pending && (k in left || pending[k].messageID != id) :: pending[k]
  }

  /** The older consumer decodes snapshots only. */
  predicate IsSnapshot(sid: string, w: Wire) {
    Concerns(sid, w) && w.body.TextPart? && !w.body.txt.isDelta
  }

  function OldNext(sid: string, s: OldState, w: Wire): OldState {
    if Concerns(sid, w) && w.body.AssistantMessage? then
      var id := w.body.messageID;
      OldState(s.assistants + {id}, s.partText + MovedTexts(s.pending, id, {}), OldKept(s.pending, id, {}))
    else if IsSnapshot(sid, w) then
      var u := w.body.txt;
      if u.messageID in s.assistants then s.(partText := s.partText[u.partID := u.text])
      else s.(pending := s.pending[u.partID := Pending(u.messageID, u.text)])
    else s
  }

  function OldEmit(sid: string, s: OldState, w: Wire, order: seq<string>): seq<Chunk> {
    if Concerns(sid, w) && w.body.AssistantMessage? then OldFlush(s.pending, w.body.messageID, order)
    else if IsSnapshot(sid, w) && w.body.txt.messageID in s.assistants then
      var u := w.body.txt;
      Tagged(u.partID, Difference(Get(s.partText, u.partID), u.text))
    else []
  }

  function OldAfter(sid: string, ws: seq<Wire>): OldState {
    if ws == [] then OldInitial else OldNext(sid, OldAfter(sid, ws[..|ws| - 1]), ws[|ws| - 1])
  }

  function OldOutput(sid: string, ws: seq<Wire>, os: seq<seq<string>>): seq<Chunk>
    requires |os| == |ws|
  {
    if ws == [] then []
    else
      var n := |ws| - 1;
      OldOutput(sid, ws[..n], os[..n]) + OldEmit(sid, OldAfter(sid, ws[..n]), ws[n], os[n])
  }

  ghost predicate AreOldOrders(sid: string, ws: seq<Wire>, os: seq<seq<string>>) {
    && |os| == |ws|
    && (ws == [] ||
        var n := |ws| - 1;
        AreOldOrders(sid, ws[..n], os[..n]) && IsOrder(os[n], OldAfter(sid, ws[..n]).pending.Keys))
  }

  class ChunkConsumer {
    const sessionID: string
    var assistants: set<string>
    var partText: map<string, string>
    var pending: map<string, Pending>
    ghost var out: seq<Chunk>

    ghost function Model(): OldState
      reads this
    {
      OldState(assistants, partText, pending)
    }

    constructor (sid: string)
      ensures sessionID == sid && Model() == OldInitial && out == []
    {
      sessionID, assistants, partText, pending, out := sid, {}, map[], map[], [];
    }

    /** `sendChunk`. */
    method Send(p: string, chunk: string) returns (ok: bool)
      modifies this`out
      ensures out == if ok then old(out) + [Chunk(p, chunk)] else old(out)
    {
      ok := *;
      if ok { out := out + [Chunk(p, chunk)]; }
    }

    method FlushPending(id: string) returns (ok: bool, ghost order: seq<string>)
      modifies this`partText, this`pending, this`out
      ensures IsPartialOrder(order, old(pending).Keys)
      ensures out == old(out) + OldFlush(old(pending), id, order)
      ensures ok ==> IsOrder(order, old(pending).Keys)
      ensures ok ==> pending == OldKept(old(pending), id, {})
      ensures ok ==> partText == old(partText) + MovedTexts(old(pending), id, {})
    {
      hide OldKept, MovedTexts, KeptTexts, OldFlush, IsOrder, IsPartialOrder;
      var keys := pending.Keys;
      order := [];
      ghost var before := pending;
      TextsStart(before, id);
      OldStart(before, id);
      while keys != {}
        invariant keys <= before.Keys && IsOrder(order, before.Keys - keys)
        invariant pending == OldKept(before, id, keys)
        invariant partText == old(partText) + MovedTexts(before, id, keys)
        invariant out == old(out) + OldFlush(before, id, order)
      {
        var k :| k in keys;
        TextsStep(old(partText), before, id, keys, k);
        OldStep(before, id, keys, k);
        OldFlushStep(before, id, order, k);
        var pp := pending[k];
        if pp.messageID == id {
          if pp.text != "" {
            partText := partText[k := pp.text];
            ok := Send(k, pp.text);
            if !ok {
              PartialOrder(order, before.Keys - keys, before.Keys);
              return;
            }
          }
          pending := pending - {k};
        }
        OrderStep(order, before.Keys - keys, k);
        Visited(before.Keys, keys, k);
        keys, order := keys - {k}, order + [k];
      }
      assert before.Keys - keys == before.Keys;
      PartialOrder(order, before.Keys, before.Keys);
      ok := true;
    }

    /** One pass of the loop; `order` is the order its range took, or what the range had
        covered when a send was cancelled. */
    method Consume(w: Wire) returns (status: Status, ghost order: seq<string>)
      modifies this
      ensures status == Cancelled ==>
                && IsPartialOrder(order, old(pending).Keys)
                && (out == old(out) || out == old(out) + OldEmit(sessionID, old(Model()), w, order))
      ensures status != Cancelled ==>
                && IsOrder(order, old(pending).Keys)
                && Model() == OldNext(sessionID, old(Model()), w)
                && (status == Continue <==> !Halts(sessionID, w))
                && out == old(out) + OldEmit(sessionID, old(Model()), w, order)
    {
      hide IsOrder, IsPartialOrder, AnyOrder, OldFlush, OldKept, MovedTexts;
      PartialOrder(AnyOrder(pending.Keys), pending.Keys, pending.Keys);
      status, order := Continue, AnyOrder(pending.Keys);
      if w.sessionID != sessionID {
        return;
      }
      var ok := true;
      match w.body {
        case SessionIdle => status := Finished;
        case PermissionAsked(reply) =>
          if reply == ReplyFailed { status := Failed; }
        case AssistantMessage(id) =>
          assistants := assistants + {id};
          ok, order := FlushPending(id);
        case TextPart(u) =>
          if !u.isDelta && u.sessionID == sessionID {
            ok := ConsumeSnapshot(u);
          }
        case _ =>
      }
      if !ok {
        status := Cancelled;
      }
    }

    method ConsumeSnapshot(u: TextUpdate) returns (ok: bool)
      modifies this`partText, this`pending, this`out
      ensures if u.messageID in assistants then
                && pending == old(pending) && partText == old(partText)[u.partID := u.text]
                && out == old(out) +
                          if ok then Tagged(u.partID, Difference(Get(old(partText), u.partID), u.text)) else []
              else
                ok && partText == old(partText) && out == old(out) &&
                pending == old(pending)[u.partID := Pending(u.messageID, u.text)]
    {
      ok := true;
      if u.messageID !in assistants {
        pending := pending[u.partID := Pending(u.messageID, u.text)];
        return;
      }
      var previous := Get(partText, u.partID);
      partText := partText[u.partID := u.text];
      if u.text == "" {
        return;
      }
      var chunk := u.text;
      if previous != "" && previous <= u.text {
        chunk := u.text[|previous|..];
      }
      if chunk != "" {
        ok := Send(u.partID, chunk);
      }
    }

    /** The whole loop over a stream that ends after `ws`; `n` events were read to the end. */
    method ConsumeAll(ws: seq<Wire>) returns (status: Status, n: nat, ghost orders: seq<seq<string>>)
      requires Model() == OldInitial && out == []
      modifies this
      ensures n <= |ws|
      ensures status != Cancelled ==> IsOldRun(sessionID, ws[..n], orders, Model(), out)
      ensures status == Cancelled ==> IsCancelledOldRun(sessionID, ws, orders, n, out)
      ensures status == Continue ==> n == |ws| && forall i | 0 <= i < n :: !Halts(sessionID, ws[i])
      ensures status in {Finished, Failed} ==>
                n > 0 && Halts(sessionID, ws[n - 1]) && forall i | 0 <= i < n - 1 :: !Halts(sessionID, ws[i])
    {
      hide OldNext, OldEmit, Halts, IsOrder, IsPartialOrder;
      status, n, orders := Continue, 0, [];
      while n < |ws|
        invariant n <= |ws| && status == Continue
        invariant IsOldRun(sessionID, ws[..n], orders, Model(), out)
        invariant forall i | 0 <= i < n :: !Halts(sessionID, ws[i])
      {
        if * {
          status := Cancelled;
          OldCancelledBefore(sessionID, ws, orders, n, Model(), out);
          return;
        }
        ghost var order;
        ghost var s, sent := Model(), out;
        status, order := Consume(ws[n]);
        if status == Cancelled {
          OldCancelledStep(sessionID, ws, orders, order, n, s, sent, out);
          orders := orders + [order];
          return;
        }
        OldRunStep(sessionID, ws, orders, order, n, s, sent);
        n, orders := n + 1, orders + [order];
        if status != Continue {
          return;
        }
      }
    }
  }

  ghost predicate IsOldRun(sid: string, ws: seq<Wire>, os: seq<seq<string>>, s: OldState, out: seq<Chunk>) {
    AreOldOrders(sid, ws, os) && s == OldAfter(sid, ws) && out == OldOutput(sid, ws, os)
  }

  /** The stream was cancelled just before its event number `n`, or while sending for it. */
  ghost predicate IsCancelledOldRun(sid: string, ws: seq<Wire>, os: seq<seq<string>>, n: nat, out: seq<Chunk>) {
    && n <= |ws| && n <= |os|
    && AreOldOrders(sid, ws[..n], os[..n])
    && var sent := OldOutput(sid, ws[..n], os[..n]);
       || out == sent
       || (&& n < |ws| && n < |os|
           && var s := OldAfter(sid, ws[..n]);
              IsPartialOrder(os[n], s.pending.Keys) && out == sent + OldEmit(sid, s, ws[n], os[n]))
  }

  lemma OldCancelledBefore(sid: string, ws: seq<Wire>, os: seq<seq<string>>, n: nat, s: OldState, sent: seq<Chunk>)
    requires n < |ws| && IsOldRun(sid, ws[..n], os, s, sent)
    ensures IsCancelledOldRun(sid, ws, os, n, sent)
  {
    assert os[..n] == os;
  }

  lemma OldCancelledStep(
    sid: string, ws: seq<Wire>, os: seq<seq<string>>, order: seq<string>, n: nat,
    s: OldState, sent: seq<Chunk>, out: seq<Chunk>)
    requires n < |ws| && IsOldRun(sid, ws[..n], os, s, sent) && IsPartialOrder(order, s.pending.Keys)
    requires out == sent || out == sent + OldEmit(sid, s, ws[n], order)
    ensures IsCancelledOldRun(sid, ws, os + [order], n, out)
  {
    assert (os + [order])[..n] == os;
  }

  lemma OldRunStep(
    sid: string, ws: seq<Wire>, os: seq<seq<string>>, order: seq<string>, n: nat, s: OldState, sent: seq<Chunk>)
    requires n < |ws| && IsOldRun(sid, ws[..n], os, s, sent) && IsOrder(order, s.pending.Keys)
    ensures IsOldRun(sid, ws[..n + 1], os + [order], OldNext(sid, s, ws[n]), sent + OldEmit(sid, s, ws[n], order))
  {
    hide OldNext, OldEmit, IsOrder;
    assert ws[..n + 1][..n] == ws[..n];
    assert (os + [order])[..n] == os;
  }

  lemma OldStart(pending: map<string, Pending>, id: string)
    ensures OldKept(pending, id, pending.Keys) == pending && OldFlush(pending, id, []) == []
  {
  }

  lemma OldStep(pending: map<string, Pending>, id: string, left: set<string>, k: string)
    requires k in pending && k in left
    ensures k in OldKept(pending, id, left) && OldKept(pending, id, left)[k] == pending[k]
    ensures OldKept(pending, id, left - {k}) ==
            if pending[k].messageID == id then OldKept(pending, id, left) - {k} else OldKept(pending, id, left)
  {
  }

  // ----- the simulation -----

  ghost predicate SameText(a: map<string, string>, b: map<string, string>) {
    forall p :: Get(a, p) == Get(b, p)
  }

  ghost predicate SamePending(a: map<string, Pending>, b: map<string, Pending>) {
    && (forall p :: p in a ==> p in b && a[p] == b[p])
    && (forall p :: p in b && b[p].text != "" ==> p in a)
  }

  /** The machines agree on everything but buffered empty texts, which only the newer one keeps. */
  ghost predicate Similar(prior: OldState, s: State) {
    && prior.assistants == s.assistants
    && SameText(prior.partText, s.partText)
    && SamePending(prior.pending, s.pending)
  }

  /** The chunks an event makes of part `p` for a receiver that has `text` of it. */
  function EventChunks(text: string, e: RenderEvent, p: string): seq<string> {
    match e
    case TextDelta(_, q, t) => if q == p && t != "" then [t] else []
    case TextSet(_, q, t) => if q == p then Difference(text, t) else []
    case _ => []
  }

  function PartChunks(text: string, out: seq<RenderEvent>, p: string): seq<string> {
    if out == [] then []
    else
      var before, e := out[..|out| - 1], out[|out| - 1];
      PartChunks(text, before, p) + EventChunks(Replay(text, before, p), e, p)
  }

  lemma PartChunksSnoc(text: string, out: seq<RenderEvent>, e: RenderEvent, p: string)
    ensures PartChunks(text, out + [e], p) == PartChunks(text, out, p) + EventChunks(Replay(text, out, p), e, p)
  {
    hide Replay, EventChunks;
    assert (out + [e])[..|out|] == out;
  }

  lemma {:induction false} PartChunksAppend(text: string, a: seq<RenderEvent>, b: seq<RenderEvent>, p: string)
    ensures PartChunks(text, a + b, p) == PartChunks(text, a, p) + PartChunks(Replay(text, a, p), b, p)
  {
    if b == [] {
      AppendNothing(a);
      AppendNothing(PartChunks(text, a, p));
    } else {
      hide PartChunks, Replay, EventChunks;
      var before, e := b[..|b| - 1], b[|b| - 1];
      SplitLast(a, b);
      PartChunksAppend(text, a, before, p);
      ReplayAppend(text, a, before, p);
      PartChunksSnoc(text, a + before, e, p);
      PartChunksSnoc(Replay(text, a, p), before, e, p);
      Assoc(PartChunks(text, a, p), PartChunks(Replay(text, a, p), before, p),
            EventChunks(Replay(text, a + before, p), e, p));
    }
  }

  lemma {:induction false} AdaptedByPart(out: seq<RenderEvent>, p: string)
    ensures Of(Adapted(out), p) == PartChunks("", out, p)
  {
    if out != [] {
      hide Of, Replay, Adapt, EventChunks;
      var before, e := out[..|out| - 1], out[|out| - 1];
      AdaptedByPart(before, p);
      OfAppend(Adapted(before), Adapt(Replay("", before, EventPart(e)), e), p);
      AdaptByPart(Replay("", before, EventPart(e)), e, p);
      if EventPart(e) != p { NoEventChunks(Replay("", before, EventPart(e)), Replay("", before, p), e, p); }
    }
  }

  lemma AdaptByPart(previous: string, e: RenderEvent, p: string)
    ensures Of(Adapt(previous, e), p) == EventChunks(previous, e, p)
  {
    match e {
      case TextDelta(_, q, t) => if t != "" { OfOne(Chunk(q, t), p); }
      case TextSet(_, q, t) => OfDifference(q, previous, t, p);
      case _ =>
    }
  }

  lemma NoEventChunks(text: string, text': string, e: RenderEvent, p: string)
    requires EventPart(e) != p
    ensures EventChunks(text, e, p) == EventChunks(text', e, p)
  {
  }

  lemma {:induction false} PartChunksTools(text: string, seen: set<string>, us: seq<ToolUpdate>, p: string)
    ensures PartChunks(text, MapTools(seen, us), p) == []
  {
    if us != [] {
      var out := MapTools(seen, us);
      assert out[..|out| - 1] == MapTools(seen, us[..|us| - 1]);
      PartChunksTools(text, seen, us[..|us| - 1], p);
    }
  }

  lemma SeenOnce(before: seq<string>, k: string, p: string)
    requires multiset(before + [k])[p] <= 1
    ensures multiset(before)[p] <= 1
    ensures p in before + [k] <==> k == p || p in before
    ensures k == p ==> p !in before
  {
    assert multiset(before + [k]) == multiset(before) + multiset{k};
    if p in before { assert p in multiset(before); }
  }

  lemma {:induction false} FlushChunks(
    text: string, pending: map<string, Pending>, id: string, order: seq<string>, p: string)
    requires multiset(order)[p] <= 1
    ensures PartChunks(text, FlushTexts(pending, id, order), p) ==
            if p in order && p in pending && Releases(pending[p], id) then Difference(text, pending[p].text) else []
  {
    if order == [] {
    } else {
      hide PartChunks, FlushTexts, Releases, Difference;
      var before, k := order[..|order| - 1], order[|order| - 1];
      assert order == before + [k];
      SeenOnce(before, k, p);
      FlushChunks(text, pending, id, before, p);
      FlushChunksStep(text, pending, id, before, k, p);
    }
  }

  lemma FlushChunksStep(
    text: string, pending: map<string, Pending>, id: string, order: seq<string>, k: string, p: string)
    requires k == p ==> p !in order
    ensures PartChunks(text, FlushTexts(pending, id, order + [k]), p) ==
            PartChunks(text, FlushTexts(pending, id, order), p) +
            if k == p && p in pending && Releases(pending[p], id) then Difference(text, pending[p].text) else []
  {
    hide PartChunks, FlushTexts, Replay, Difference;
    FlushTextsStep(pending, id, order, k);
    var sent := FlushTexts(pending, id, order);
    if k in pending && Releases(pending[k], id) {
      ReplayFlush(text, pending, id, order, p);
      PartChunksSnoc(text, sent, TextSet(id, k, pending[k].text), p);
    } else {
      assert sent + [] == sent;
    }
  }

  lemma {:induction false} OldFlushChunks(pending: map<string, Pending>, id: string, order: seq<string>, p: string)
    requires multiset(order)[p] <= 1
    ensures Of(OldFlush(pending, id, order), p) ==
            if p in order && p in pending && Releases(pending[p], id) then [pending[p].text] else []
  {
    if order != [] {
      hide Of, OldFlush;
      var before, k := order[..|order| - 1], order[|order| - 1];
      assert order == before + [k];
      SeenOnce(before, k, p);
      OldFlushChunks(pending, id, before, p);
      OldFlushStep(pending, id, before, k);
      var sent := OldFlush(pending, id, before);
      if k in pending && Releases(pending[k], id) {
        OfAppend(sent, [Chunk(k, pending[k].text)], p);
        OfOne(Chunk(k, pending[k].text), p);
      } else {
        assert sent + [] == sent;
      }
    }
  }

  lemma OldFlushStep(pending: map<string, Pending>, id: string, order: seq<string>, k: string)
    ensures OldFlush(pending, id, order + [k]) == OldFlush(pending, id, order) +
            if k in pending && Releases(pending[k], id) then [Chunk(k, pending[k].text)] else []
  {
    assert (order + [k])[..|order|] == order;
  }

  lemma OfOne(c: Chunk, p: string)
    ensures Of([c], p) == if c.partID == p then [c.text] else []
  {
    assert [c][..0] == [];
  }

  lemma VisitedOnce(order: seq<string>, keys: set<string>, p: string)
    requires IsOrder(order, keys)
    ensures multiset(order)[p] <= 1 && (p in order <==> p in keys)
  {
    assert multiset(keys)[p] <= 1;
    OrderMembers(order, keys);
  }

  lemma SimilarAnnounce(prior: OldState, s: State, id: string)
    requires Similar(prior, s)
    ensures Similar(OldState(prior.assistants + {id}, prior.partText + MovedTexts(prior.pending, id, {}),
                             OldKept(prior.pending, id, {})), Announce(s, id))
  {
    hide KeptTools, ReleasedCalls;
    assert MovedTexts(prior.pending, id, {}) == MovedTexts(s.pending, id, {});
    forall p
      ensures Get(prior.partText + MovedTexts(s.pending, id, {}), p) ==
              Get(s.partText + MovedTexts(s.pending, id, {}), p)
    {
      assert Get(prior.partText, p) == Get(s.partText, p);
    }
  }

  lemma SameTextUpdate(a: map<string, string>, b: map<string, string>, q: string, text: string)
    requires SameText(a, b)
    ensures SameText(a[q := text], b[q := text])
  {
    var a', b' := a[q := text], b[q := text];
    forall p ensures Get(a', p) == Get(b', p) {
      assert Get(a, p) == Get(b, p);
    }
  }

  lemma SamePendingUpdate(a: map<string, Pending>, b: map<string, Pending>, q: string, pp: Pending)
    requires SamePending(a, b)
    ensures SamePending(a[q := pp], b[q := pp])
  {
  }

  lemma SimilarText(prior: OldState, s: State, u: TextUpdate)
    requires Similar(prior, s) && !u.isDelta
    ensures u.messageID in s.assistants ==>
              Similar(prior.(partText := prior.partText[u.partID := u.text]), NextText(s, u))
    ensures u.messageID !in s.assistants ==>
              Similar(prior.(pending := prior.pending[u.partID := Pending(u.messageID, u.text)]), NextText(s, u))
  {
    hide NextText, SameText, SamePending;
    SnapshotNext(s, u);
    SameTextUpdate(prior.partText, s.partText, u.partID, u.text);
    SamePendingUpdate(prior.pending, s.pending, u.partID, Pending(u.messageID, u.text));
  }

  lemma {:induction false} SimilarStep(sid: string, prior: OldState, s: State, w: Wire)
    requires Similar(prior, s)
    requires Drops(sid, s, w)
    ensures Similar(OldNext(sid, prior, w), Next(sid, s, w))
  {
    hide Announce, NextText, MovedTexts, OldKept, Accepted, RecordType, SameText, SamePending;
    if Concerns(sid, w) {
      match w.body {
        case AssistantMessage(id) => SimilarAnnounce(prior, s, id);
        case TextPart(u) => if u.isDelta { DroppedDelta(s, u); } else { SimilarText(prior, s, u); }
        case _ =>
      }
    }
  }

  /** The newer machine drops the delta, which the older consumer never decodes. */
  predicate Drops(sid: string, s: State, w: Wire) {
    Concerns(sid, w) && w.body.TextPart? && w.body.txt.isDelta ==>
      !Accepted(Get(RecordType(s.partTypes, w.body.txt), w.body.txt.partID), w.body.txt)
  }

  /** Every text that counts comes in snapshots. */
  ghost predicate SnapshotsCount(sid: string, ws: seq<Wire>) {
    ws == [] ||
    var n := |ws| - 1;
    SnapshotsCount(sid, ws[..n]) && Drops(sid, StateAfter(sid, ws[..n]), ws[n])
  }

  lemma {:induction false} SnapshotsOnlyCount(sid: string, ws: seq<Wire>)
    requires forall w :: w in ws && w.body.TextPart? ==> !w.body.txt.isDelta
    ensures SnapshotsCount(sid, ws)
  {
    hide Next, Accepted, RecordType;
    if ws != [] { SnapshotsOnlyCount(sid, ws[..|ws| - 1]); }
  }

  lemma DroppedDelta(s: State, u: TextUpdate)
    requires u.isDelta && !Accepted(Get(RecordType(s.partTypes, u), u.partID), u)
    ensures NextText(s, u) == s.(partTypes := RecordType(s.partTypes, u)) && EmitText(s, u) == []
  {
  }

  lemma {:induction false} RunsAreSimilar(sid: string, ws: seq<Wire>)
    requires SnapshotsCount(sid, ws)
    ensures Similar(OldAfter(sid, ws), StateAfter(sid, ws))
  {
    hide Next, OldNext, SameText, SamePending;
    if ws == [] {
      InitiallySimilar();
    } else {
      var n := |ws| - 1;
      RunsAreSimilar(sid, ws[..n]);
      SimilarStep(sid, OldAfter(sid, ws[..n]), StateAfter(sid, ws[..n]), ws[n]);
    }
  }

  lemma InitiallySimilar()
    ensures Similar(OldInitial, Initial)
  {
  }

  // ----- when the two agree -----

  /** What a receiver has of a part, by `ReplayIsLagAndText`. */
  function Had(sid: string, ws: seq<Wire>, p: string): string {
    Lag(sid, ws, p) + Get(StateAfter(sid, ws).partText, p)
  }

  /** A snapshot resumes, after an empty one, text the receiver still has. */
  predicate Rewinds(sid: string, s: State, w: Wire, p: string, had: string) {
    && IsSnapshot(sid, w)
    && w.body.txt.messageID in s.assistants && w.body.txt.partID == p
    && Get(s.partText, p) == ""
    && had != "" && had <= w.body.txt.text
  }

  /** An announcement releases a text that resumes what the receiver has of the part, from
      another message. */
  predicate ReleaseResumes(sid: string, s: State, w: Wire, p: string, had: string) {
    && Concerns(sid, w) && w.body.AssistantMessage?
    && p in s.pending && Releases(s.pending[p], w.body.messageID)
    && had != "" && had <= s.pending[p].text
  }

  /** Either way the adapter sends the rest of the text, the older consumer all of it. */
  predicate Resumes(sid: string, s: State, w: Wire, p: string, had: string) {
    Rewinds(sid, s, w, p, had) || ReleaseResumes(sid, s, w, p, had)
  }

  /** Without deltas that count, text can lag only while the machine has none of its own. */
  predicate LagsAlone(s: State, p: string, lag: string) {
    lag == "" || Get(s.partText, p) == ""
  }

  lemma LagsAloneStep(sid: string, s: State, w: Wire, p: string, lag: string)
    requires Drops(sid, s, w)
    requires LagsAlone(s, p, lag)
    ensures LagsAlone(Next(sid, s, w), p, NextLag(sid, s, w, p, lag))
  {
    hide NextText, KeptTexts, KeptTools, ReleasedCalls, Accepted, RecordType;
    if Concerns(sid, w) && w.body.TextPart? {
      if w.body.txt.isDelta { DroppedDelta(s, w.body.txt); } else { SnapshotNext(s, w.body.txt); }
    }
  }

  lemma {:induction false} LagsAloneHolds(sid: string, ws: seq<Wire>, p: string)
    requires SnapshotsCount(sid, ws)
    ensures LagsAlone(StateAfter(sid, ws), p, Lag(sid, ws, p))
  {
    hide Next, NextLag;
    if ws != [] {
      var n := |ws| - 1;
      LagsAloneHolds(sid, ws[..n], p);
      LagsAloneStep(sid, StateAfter(sid, ws[..n]), ws[n], p, Lag(sid, ws[..n], p));
    }
  }

  lemma FirstOrRest(had: string, text: string)
    requires text != ""
    ensures Difference(had, text) == [text] <==> !(had != "" && had <= text)
  {
    if had != "" && had <= text {
      assert text[|had|..] != text;
      if Difference(had, text) != [] { assert Difference(had, text)[0] == text[|had|..]; }
    }
  }

  lemma TextChunks(s: State, u: TextUpdate, p: string, had: string)
    requires !u.isDelta && u.messageID in s.assistants
    requires had == Get(s.partText, p) || Get(s.partText, p) == ""
    ensures u.partID != p ==> PartChunks(had, EmitText(s, u), p) == []
    ensures u.partID == p ==>
              (PartChunks(had, EmitText(s, u), p) == Difference(Get(s.partText, p), u.text) <==>
               !(Get(s.partText, p) == "" && had != "" && had <= u.text))
  {
    hide PartChunks, RecordType;
    var out, text := EmitText(s, u), Get(s.partText, u.partID);
    NoChunks(had, p);
    ChunksOfOne(had, TextSet(u.messageID, u.partID, u.text), p);
    if text <= u.text { ChunksOfOne(had, TextDelta(u.messageID, u.partID, u.text[|text|..]), p); }
    if u.text != "" { FirstOrRest(had, u.text); }
  }

  lemma ChunksOfOne(text: string, e: RenderEvent, p: string)
    ensures PartChunks(text, [e], p) == EventChunks(text, e, p)
  {
    assert [e][..0] == [];
  }

  lemma NoChunks(text: string, p: string)
    ensures PartChunks(text, [], p) == [] && Of([], p) == [] && PartChunks(text, [Done], p) == []
  {
    assert [Done][..0] == [];
  }

  lemma Unsent(s: State, u: TextUpdate)
    requires u.messageID !in s.assistants
    ensures EmitText(s, u) == []
  {
  }

  lemma AnnounceAgrees(
    sid: string, prior: OldState, s: State, w: Wire, o: Order, order: seq<string>, p: string, had: string)
    requires Similar(prior, s) && Concerns(sid, w) && w.body.AssistantMessage?
    requires IsRangeOrder(s, o) && IsOrder(order, prior.pending.Keys)
    ensures PartChunks(had, Emit(sid, s, w, o), p) == Of(OldEmit(sid, prior, w, order), p) <==>
            !ReleaseResumes(sid, s, w, p, had)
  {
    hide FlushTexts, MapTools, OldFlush, IsOrder, ReleasedTools, PartChunks, Of, SameText, Difference;
    var id := w.body.messageID;
    var flushed := FlushTexts(s.pending, id, o.texts);
    var us := ReleasedTools(s.pendingTools, id, o.tools);
    PartChunksAppend(had, flushed, MapTools(s.seenCalls, us), p);
    PartChunksTools(Replay(had, flushed, p), s.seenCalls, us, p);
    assert PartChunks(had, flushed, p) + [] == PartChunks(had, flushed, p);
    VisitedOnce(order, prior.pending.Keys, p);
    OldFlushChunks(prior.pending, id, order, p);
    VisitedOnce(o.texts, s.pending.Keys, p);
    FlushChunks(had, s.pending, id, o.texts, p);
    if p in s.pending && Releases(s.pending[p], id) { FirstOrRest(had, s.pending[p].text); }
  }

  lemma {:induction false} AgreeStep(
    sid: string, prior: OldState, s: State, w: Wire, o: Order, order: seq<string>, p: string, had: string)
    requires Similar(prior, s)
    requires Drops(sid, s, w)
    requires had == Get(s.partText, p) || Get(s.partText, p) == ""
    requires IsRangeOrder(s, o) && IsOrder(order, prior.pending.Keys)
    ensures PartChunks(had, Emit(sid, s, w, o), p) == Of(OldEmit(sid, prior, w, order), p) <==>
            !Resumes(sid, s, w, p, had)
  {
    hide FlushTexts, MapTools, OldFlush, EmitText, IsOrder, ReleasedTools, PartChunks, Of, Tagged, SamePending,
         Accepted, RecordType;
    NoChunks(had, p);
    if Concerns(sid, w) {
      match w.body {
        case AssistantMessage(id) => AnnounceAgrees(sid, prior, s, w, o, order, p, had);
        case ToolPart(u) => PartChunksTools(had, s.seenCalls, [u], p);
        case TextPart(u) =>
          if u.isDelta {
            DroppedDelta(s, u);
          } else if u.messageID in s.assistants {
            TextChunks(s, u, p, had);
            assert Get(prior.partText, u.partID) == Get(s.partText, u.partID);
            OfDifference(u.partID, Get(prior.partText, u.partID), u.text, p);
          } else {
            Unsent(s, u);
          }
        case _ =>
      }
    }
  }

  /** After every event the two consumers have sent, part by part, the same chunks. */
  ghost predicate Agree(sid: string, ws: seq<Wire>, os: seq<Order>, os': seq<seq<string>>)
    requires |os| == |os'| == |ws|
  {
    && (forall p :: Of(Adapted(Output(sid, ws, os)), p) == Of(OldOutput(sid, ws, os'), p))
    && (ws == [] || var n := |ws| - 1; Agree(sid, ws[..n], os[..n], os'[..n]))
  }

  /** No step resumes text; this depends on the stream alone. */
  ghost predicate NoResume(sid: string, ws: seq<Wire>) {
    ws == [] ||
    var n := |ws| - 1;
    && NoResume(sid, ws[..n])
    && forall p :: !Resumes(sid, StateAfter(sid, ws[..n]), ws[n], p, Had(sid, ws[..n], p))
  }

  lemma {:induction false} LastStepAgrees(sid: string, ws: seq<Wire>, os: seq<Order>, os': seq<seq<string>>, p: string)
    requires ws != [] && SnapshotsCount(sid, ws)
    requires AreRangeOrders(sid, ws, os) && AreOldOrders(sid, ws, os')
    requires var n := |ws| - 1;
             Of(Adapted(Output(sid, ws[..n], os[..n])), p) == Of(OldOutput(sid, ws[..n], os'[..n]), p)
    ensures var n := |ws| - 1;
            Of(Adapted(Output(sid, ws, os)), p) == Of(OldOutput(sid, ws, os'), p) <==>
            !Resumes(sid, StateAfter(sid, ws[..n]), ws[n], p, Had(sid, ws[..n], p))
  {
    hide Next, Emit, OldNext, OldEmit, IsRangeOrder, IsOrder, Resumes, Similar, Lag, Replay, PartChunks, Adapted, Of;
    var n := |ws| - 1;
    var s, prior := StateAfter(sid, ws[..n]), OldAfter(sid, ws[..n]);
    var out, had := Output(sid, ws[..n], os[..n]), Had(sid, ws[..n], p);
    AdaptedByPart(Output(sid, ws, os), p);
    AdaptedByPart(out, p);
    PartChunksAppend("", out, Emit(sid, s, ws[n], os[n]), p);
    OfAppend(OldOutput(sid, ws[..n], os'[..n]), OldEmit(sid, prior, ws[n], os'[n]), p);
    RunsAreSimilar(sid, ws[..n]);
    LagsAloneHolds(sid, ws[..n], p);
    assert "" + Get(s.partText, p) == Get(s.partText, p);
    ReplayIsLagAndText(sid, ws[..n], os[..n], p);
    AgreeStep(sid, prior, s, ws[n], os[n], os'[n], p, had);
    Cancel(PartChunks("", out, p), PartChunks(had, Emit(sid, s, ws[n], os[n]), p),
           Of(OldEmit(sid, prior, ws[n], os'[n]), p));
  }

  lemma Cancel<T>(a: seq<T>, x: seq<T>, y: seq<T>)
    ensures a + x == a + y <==> x == y
  {
    if a + x == a + y {
      assert x == (a + x)[|a|..] && y == (a + y)[|a|..];
    }
  }

  /** On texts that come in snapshots the two consumers send the same chunks of every part after
      every event, whatever orders their ranges take, exactly when no step resumes text. */
  lemma {:induction false} ConsumersAgreeIffNoResume(sid: string, ws: seq<Wire>, os: seq<Order>, os': seq<seq<string>>)
    requires SnapshotsCount(sid, ws) && AreRangeOrders(sid, ws, os) && AreOldOrders(sid, ws, os')
    ensures Agree(sid, ws, os, os') <==> NoResume(sid, ws)
  {
    hide Next, OldNext, Emit, OldEmit, IsRangeOrder, IsOrder, Resumes, Adapted, Of, Had, Output, OldOutput,
         StateAfter, OldAfter;
    if ws != [] {
      var n := |ws| - 1;
      RunPrefix(sid, ws, os, os');
      ConsumersAgreeIffNoResume(sid, ws[..n], os[..n], os'[..n]);
      if NoResume(sid, ws[..n]) {
        forall p
          ensures Of(Adapted(Output(sid, ws, os)), p) == Of(OldOutput(sid, ws, os'), p) <==>
                  !Resumes(sid, StateAfter(sid, ws[..n]), ws[n], p, Had(sid, ws[..n], p))
        {
          LastStepAgrees(sid, ws, os, os', p);
        }
      }
    } else {
      NothingSent(sid, os, os');
    }
  }

  lemma RunPrefix(sid: string, ws: seq<Wire>, os: seq<Order>, os': seq<seq<string>>)
    requires ws != [] && SnapshotsCount(sid, ws) && AreRangeOrders(sid, ws, os) && AreOldOrders(sid, ws, os')
    ensures var n := |ws| - 1;
            && SnapshotsCount(sid, ws[..n])
            && AreRangeOrders(sid, ws[..n], os[..n]) && AreOldOrders(sid, ws[..n], os'[..n])
  {
    hide IsRangeOrder, IsOrder, Next, OldNext;
  }

  lemma NothingSent(sid: string, os: seq<Order>, os': seq<seq<string>>)
    requires os == [] && os' == []
    ensures forall p :: Of(Adapted(Output(sid, [], os)), p) == Of(OldOutput(sid, [], os'), p)
  {
  }

  /** In particular they agree when each part belongs to one message and no empty snapshot
      follows text. */
  lemma {:induction false} UnwipedPartsAgree(
    sid: string, ws: seq<Wire>, os: seq<Order>, os': seq<seq<string>>, owner: string -> string)
    requires SnapshotsCount(sid, ws) && AreRangeOrders(sid, ws, os) && AreOldOrders(sid, ws, os')
    requires OneMessagePerPart(sid, ws, owner) && NoWipe(sid, ws)
    ensures Agree(sid, ws, os, os')
  {
    hide Agree, NoResume, AreRangeOrders, AreOldOrders, OneMessagePerPart;
    UnwipedNoResume(sid, ws, owner);
    ConsumersAgreeIffNoResume(sid, ws, os, os');
  }

  ghost predicate OneMessagePerPart(sid: string, ws: seq<Wire>, owner: string -> string) {
    forall p :: BelongsTo(sid, ws, owner(p), p)
  }

  lemma {:induction false} UnwipedNoResume(sid: string, ws: seq<Wire>, owner: string -> string)
    requires OneMessagePerPart(sid, ws, owner) && NoWipe(sid, ws)
    ensures NoResume(sid, ws)
  {
    hide Next, Resumes, FoldStep, Wipes, NextLag, BelongsTo;
    if ws != [] {
      var n := |ws| - 1;
      var s := StateAfter(sid, ws[..n]);
      forall p ensures BelongsTo(sid, ws[..n], owner(p), p) { BelongsBefore(sid, ws, owner(p), p, n); }
      UnwipedNoResume(sid, ws[..n], owner);
      forall p ensures !Resumes(sid, s, ws[n], p, Had(sid, ws[..n], p)) {
        NoWipeNoLag(sid, ws[..n], p);
        assert "" + Get(s.partText, p) == Get(s.partText, p);
        FoldHolds(sid, ws[..n], owner(p), p);
        OwnPartNoResume(sid, s, ws[n], owner(p), p, Fold(sid, ws[..n], p));
      }
    }
  }

  lemma OwnPartNoResume(sid: string, s: State, w: Wire, message: string, p: string, v: PartView)
    requires Holds(s, message, p, v)
    ensures !Resumes(sid, s, w, p, Get(s.partText, p))
  {
  }

  // ----- runs that disagree -----

  lemma {:induction false} SomeOldOrders(sid: string, ws: seq<Wire>) returns (os: seq<seq<string>>)
    ensures AreOldOrders(sid, ws, os)
  {
    hide OldNext;
    if ws == [] {
      os := [];
    } else {
      var n := |ws| - 1;
      var before := SomeOldOrders(sid, ws[..n]);
      os := before + [AnyOrder(OldAfter(sid, ws[..n]).pending.Keys)];
      assert os[..n] == before;
    }
  }

  /** The stream has runs, and the consumers agree on none. */
  ghost predicate Disagree(sid: string, ws: seq<Wire>) {
    && SnapshotsCount(sid, ws)
    && (exists os, os' :: AreRangeOrders(sid, ws, os) && AreOldOrders(sid, ws, os'))
    && (forall os, os' :: AreRangeOrders(sid, ws, os) && AreOldOrders(sid, ws, os') ==> !Agree(sid, ws, os, os'))
  }

  lemma {:induction false} ResumedDisagree(sid: string, ws: seq<Wire>)
    requires SnapshotsCount(sid, ws) && !NoResume(sid, ws)
    ensures Disagree(sid, ws)
  {
    hide Agree, NoResume, StateAfter, OldAfter, IsRangeOrder, IsOrder;
    var os := SomeOrders(sid, ws);
    var os' := SomeOldOrders(sid, ws);
    forall os, os' | AreRangeOrders(sid, ws, os) && AreOldOrders(sid, ws, os') ensures !Agree(sid, ws, os, os') {
      ConsumersAgreeIffNoResume(sid, ws, os, os');
    }
  }

  lemma ResumesLast(sid: string, ws: seq<Wire>, w: Wire, p: string)
    requires Resumes(sid, StateAfter(sid, ws), w, p, Had(sid, ws, p))
    ensures !NoResume(sid, ws + [w])
  {
    hide Resumes, Had, StateAfter;
    assert (ws + [w])[..|ws|] == ws;
  }

  /** After "x" and an empty snapshot, "xy" makes the adapter send "y" only. */
  lemma {:induction false} RewoundTextDisagrees()
    ensures Disagree("s", Wiped + [Snapshot("a", "p", "xy")])
  {
    hide Disagree, NoResume, StateAfter, Lag;
    WipedLags();
    SnapshotsOnlyCount("s", Wiped + [Snapshot("a", "p", "xy")]);
    assert "x" <= "xy" && "x" + "" == "x";
    ResumesLast("s", Wiped, Snapshot("a", "p", "xy"), "p");
    ResumedDisagree("s", Wiped + [Snapshot("a", "p", "xy")]);
  }

  const Shared := [Announced("a"), Snapshot("a", "p", "x"), Snapshot("b", "p", "xy")]

  /** With no empty snapshot at all: "b" is announced with the same part, and its "xy" makes the
      adapter send "y" only. */
  lemma {:induction false} SharedPartDisagrees()
    ensures Disagree("s", Shared + [Announced("b")])
  {
    hide Disagree, NoResume, StateAfter, Lag;
    var before := [Announced("a"), Snapshot("a", "p", "x")];
    OneSnapshot();
    assert Shared == before + [Snapshot("b", "p", "xy")];
    AfterSnoc("s", before, Snapshot("b", "p", "xy"));
    LagSnoc("s", before, Snapshot("b", "p", "xy"), "p");
    SnapshotStep(StateAfter("s", before), "b", "p", "xy");
    SnapshotsOnlyCount("s", Shared + [Announced("b")]);
    assert "x" <= "xy" && "" + "x" == "x";
    ResumesLast("s", Shared, Announced("b"), "p");
    ResumedDisagree("s", Shared + [Announced("b")]);
  }
}
