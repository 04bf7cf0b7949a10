/** The text that the chunks of `GenerateResponseStream` make together (bot/opencode_generator.go,
    lines 183-247): `GenerateResponse` joins them all, so a text that is rewritten is in the
    response along with what replaced it. */
module ChunkText {
  import opened Text
  import opened RenderEvents
  import opened StreamReplay
  import opened ChunkStream

  function Together(texts: seq<string>): string {
    if texts == [] then "" else Together(texts[..|texts| - 1]) + texts[|texts| - 1]
  }

  lemma TogetherSnoc(texts: seq<string>, t: string)
    ensures Together(texts + [t]) == Together(texts) + t
  {
    assert (texts + [t])[..|texts|] == texts;
  }

  lemma {:induction false} TogetherAppend(a: seq<string>, b: seq<string>)
    ensures Together(a + b) == Together(a) + Together(b)
  {
    if b == [] {
      AppendNothing(a);
      AppendNothing(Together(a));
    } else {
      hide Together;
      var before, t := b[..|b| - 1], b[|b| - 1];
      SplitLast(a, b);
      TogetherAppend(a, before);
      TogetherSnoc(a + before, t);
      TogetherSnoc(before, t);
      Assoc(Together(a), Together(before), t);
    }
  }

  /** `GenerateResponse`, over the chunks on the channel. */
  method GenerateResponse(chunks: seq<string>) returns (response: string)
    ensures response == Together(chunks)
  {
    response := "";
    for i := 0 to |chunks|
      invariant response == Together(chunks[..i])
    {
      TogetherSnoc(chunks[..i], chunks[i]);
      assert chunks[..i + 1] == chunks[..i] + [chunks[i]];
      response := response + chunks[i];
    }
    assert chunks[..|chunks|] == chunks;
  }

  // ----- one part -----

  /** The event replaces no text of the part but by one that goes on from it. */
  predicate GoesOn(text: string, e: RenderEvent, p: string) {
    e.TextSet? && e.partID == p ==> text <= e.text
  }

  /** The text of the part only ever grows. */
  ghost predicate Grows(out: seq<RenderEvent>, p: string) {
    forall i | 0 <= i < |out| :: GoesOn(Replay("", out[..i], p), out[i], p)
  }

  lemma TogetherOne(t: string)
    ensures Together([t]) == t && Together([]) == ""
  {
    assert [t][..0] == [];
  }

  /** What the chunks of one event add. */
  lemma EventAdds(text: string, e: RenderEvent, p: string)
    ensures var more, next := Together(EventChunks(text, e, p)), ReplayEvent(text, e, p);
            if GoesOn(text, e, p) then next == text + more else |next| < |text| + |more|
  {
    hide Together;
    match e {
      case TextDelta(_, _, t) =>
        TogetherOne(t);
      case TextSet(_, _, t) =>
        TogetherOne(t);
        if text <= t { TogetherOne(t[|text|..]); }
      case _ =>
        TogetherOne("");
    }
  }

  lemma GrowsSnoc(out: seq<RenderEvent>, e: RenderEvent, p: string)
    ensures Grows(out + [e], p) <==> Grows(out, p) && GoesOn(Replay("", out, p), e, p)
  {
    hide Replay, GoesOn;
    var all := out + [e];
    assert all[..|out|] == out && all[|out|] == e;
    assert forall i | 0 <= i < |out| :: all[..i] == out[..i] && all[i] == out[i];
  }

  lemma {:induction false} JoinedOrLonger(out: seq<RenderEvent>, p: string)
    ensures var joined, text := Together(PartChunks("", out, p)), Replay("", out, p);
            if Grows(out, p) then joined == text else |joined| > |text|
  {
    if out != [] {
      hide Together, Replay, ReplayEvent, PartChunks, EventChunks, Grows, GoesOn;
      var before, e := out[..|out| - 1], out[|out| - 1];
      assert before + [e] == out;
      var text := Replay("", before, p);
      JoinedOrLonger(before, p);
      GrowsSnoc(before, e, p);
      PartChunksSnoc("", before, e, p);
      ReplaySnoc("", before, e, p);
      TogetherAppend(PartChunks("", before, p), EventChunks(text, e, p));
      EventAdds(text, e, p);
    }
  }

  /** Together the chunks of a part are its text exactly when the text only grew, and are longer
      otherwise. */
  lemma {:induction false} ChunksAreTextIffGrowing(out: seq<RenderEvent>, p: string)
    ensures Together(Of(Adapted(out), p)) == Replay("", out, p) <==> Grows(out, p)
    ensures !Grows(out, p) ==> |Together(Of(Adapted(out), p))| > |Replay("", out, p)|
  {
    hide Together, Replay, Grows, PartChunks, Adapted, Of;
    AdaptedByPart(out, p);
    JoinedOrLonger(out, p);
  }

  /** No chunk is empty. */
  lemma {:induction false} NoEmptyChunk(out: seq<RenderEvent>)
    ensures forall c :: c in Adapted(out) ==> c.text != ""
  {
    if out != [] {
      NoEmptyChunk(out[..|out| - 1]);
    }
  }

  // ----- the whole response -----

  ghost predicate AllOf(out: seq<RenderEvent>, p: string) {
    forall e :: e in out && (e.TextDelta? || e.TextSet?) ==> e.partID == p
  }

  function Texts(chunks: seq<Chunk>): seq<string> {
    if chunks == [] then [] else Texts(chunks[..|chunks| - 1]) + [chunks[|chunks| - 1].text]
  }

  lemma {:induction false} ChunksOfOnePart(chunks: seq<Chunk>, p: string)
    requires forall c :: c in chunks ==> c.partID == p
    ensures Of(chunks, p) == Texts(chunks)
  {
    if chunks != [] {
      ChunksOfOnePart(chunks[..|chunks| - 1], p);
    }
  }

  lemma {:induction false} AdaptedOfOnePart(out: seq<RenderEvent>, p: string)
    requires AllOf(out, p)
    ensures forall c :: c in Adapted(out) ==> c.partID == p
  {
    if out != [] {
      hide Replay, Difference;
      AdaptedOfOnePart(out[..|out| - 1], p);
    }
  }

  /** For an answer of one part, `GenerateResponse` returns its text exactly when that only grew. */
  lemma {:induction false} ResponseIsTextIffGrowing(out: seq<RenderEvent>, p: string)
    requires AllOf(out, p)
    ensures Together(Texts(Adapted(out))) == Replay("", out, p) <==> Grows(out, p)
  {
    AdaptedOfOnePart(out, p);
    ChunksOfOnePart(Adapted(out), p);
    ChunksAreTextIffGrowing(out, p);
    hide *;
  }
}
