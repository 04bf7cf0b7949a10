/** Events for the streams that show where a property of the event-stream machine ends
    (bot/opencode_generator.go, lines 899-1147), and what they do to its state. */
module SampleStreams {
  import opened Text
  import opened EventStream

  function Announced(m: string): Wire {
    Wire("s", AssistantMessage(m))
  }

  function Snapshot(m: string, p: string, text: string): Wire {
    Wire("s", TextPart(TextUpdate("s", m, p, "text", text, false)))
  }

  function Delta(m: string, p: string, text: string): Wire {
    Wire("s", TextPart(TextUpdate("s", m, p, "text", text, true)))
  }

  lemma AfterSnoc(sid: string, ws: seq<Wire>, w: Wire)
    ensures StateAfter(sid, ws + [w]) == Next(sid, StateAfter(sid, ws), w)
  {
    hide Next;
    assert (ws + [w])[..|ws|] == ws;
  }

  lemma SnapshotStep(s: State, m: string, p: string, text: string)
    requires p != ""
    ensures Next("s", s, Snapshot(m, p, text)) ==
            if m in s.assistants then s.(partTypes := s.partTypes[p := "text"], partText := s.partText[p := text])
            else s.(partTypes := s.partTypes[p := "text"], pending := s.pending[p := Pending(m, text)])
  {
    hide Trim;
  }

  /** An announcement of a message nothing waits for. */
  lemma AnnounceStep(s: State, m: string)
    requires s.pending == map[] && s.pendingTools == map[]
    ensures Next("s", s, Announced(m)) == s.(assistants := s.assistants + {m})
  {
    var t := Announce(s, m);
    assert t.partText == s.partText && t.pending == map[] && t.pendingTools == map[];
    assert ReleasedCalls(s.pendingTools, m, {}) == {};
  }
}
