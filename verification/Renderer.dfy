/** The progressive renderer (bot/message_renderer.go): tool lines above the answer, and the
    placeholder that bot/client.go (lines 1130-1147) finds again in what it rendered. */
module Renderer {
  import opened Text
  import opened RenderEvents

  /** The wording of a tool event: its summary line and its category. */
  datatype Wording = Wording(summarize: RenderEvent -> string, classify: RenderEvent -> string)

  datatype ToolView = ToolView(id: string, summary: string, status: string, failed: bool, category: string)

  datatype View = View(tools: seq<ToolView>, index: map<string, nat>, answer: string)

  const Blank := View([], map[], "")

  /** The line an event belongs to. */
  function LineID(e: RenderEvent): string
    requires e.Tool?
  {
    if Trim(e.callID) != "" then Trim(e.callID)
    else if Trim(e.partID) != "" then Trim(e.partID)
    else if Trim(e.toolName) != "" then Trim(e.toolName)
    else "tool"
  }

  function HasFailed(e: RenderEvent): bool
    requires e.Tool?
  {
    e.kind == Error || Lower(e.status) == "error"
  }

  function Keep(prior: string, latest: string): string {
    if latest == "" then prior else latest
  }

  function NewLine(w: Wording, e: RenderEvent): ToolView
    requires e.Tool?
  {
    ToolView(LineID(e), w.summarize(e), e.status, HasFailed(e), w.classify(e))
  }

  function ChangeLine(w: Wording, t: ToolView, e: RenderEvent): ToolView
    requires e.Tool?
  {
    ToolView(t.id, Keep(t.summary, w.summarize(e)), Keep(t.status, e.status), HasFailed(e),
             Keep(t.category, w.classify(e)))
  }

  /** Index and list agree: they are inverse to each other. */
  ghost predicate IndexAgrees(v: View) {
    && (forall k :: k in v.index ==> v.index[k] < |v.tools| && v.tools[v.index[k]].id == k)
    && (forall i | 0 <= i < |v.tools| :: v.tools[i].id in v.index && v.index[v.tools[i].id] == i)
  }

  function ApplyTo(w: Wording, v: View, e: RenderEvent): View {
    match e
    case TextDelta(_, _, t) => v.(answer := v.answer + t)
    case TextSet(_, _, t) => v.(answer := t)
    case Done => v
    case Tool(_, _, _, _, _, _, _) =>
      var id := LineID(e);
      if id in v.index && v.index[id] < |v.tools| then
        v.(tools := v.tools[v.index[id] := ChangeLine(w, v.tools[v.index[id]], e)])
      else
        v.(tools := v.tools + [NewLine(w, e)], index := v.index[id := |v.tools|])
  }

  lemma IndexKept(w: Wording, v: View, e: RenderEvent)
    requires IndexAgrees(v)
    ensures IndexAgrees(ApplyTo(w, v, e))
  {
    hide LineID, ChangeLine, NewLine;
    if e.Tool? { LineIDs(w, e); }
  }

  lemma LineIDs(w: Wording, e: RenderEvent)
    requires e.Tool?
    ensures NewLine(w, e).id == LineID(e)
    ensures forall t :: ChangeLine(w, t, e).id == t.id
  {
    hide LineID, HasFailed;
  }

  function ViewAfter(w: Wording, es: seq<RenderEvent>): View {
    if es == [] then Blank else ApplyTo(w, ViewAfter(w, es[..|es| - 1]), es[|es| - 1])
  }

  lemma ViewSnoc(w: Wording, es: seq<RenderEvent>, e: RenderEvent)
    ensures ViewAfter(w, es + [e]) == ApplyTo(w, ViewAfter(w, es), e)
  {
    hide ApplyTo;
    assert (es + [e])[..|es|] == es;
  }

  // ----- the rendered text -----

  function FormatCount(n: nat, singular: string, plural: string): string {
    if n == 1 then "1 " + singular else Itoa(n) + " " + plural
  }

  datatype Kind = Skill | Reading | Other

  function KindOf(t: ToolView): Kind {
    if t.category == "skill" then Skill else if t.category == "read" then Reading else Other
  }

  function CountOf(tools: seq<ToolView>, k: Kind): nat {
    if tools == [] then 0
    else CountOf(tools[..|tools| - 1], k) + if KindOf(tools[|tools| - 1]) == k then 1 else 0
  }

  function Joined(parts: seq<string>): string {
    if parts == [] then "" else if |parts| == 1 then parts[0]
    else Joined(parts[..|parts| - 1]) + ", " + parts[|parts| - 1]
  }

  function Shown(n: nat, singular: string, plural: string): seq<string> {
    if n > 0 then [FormatCount(n, singular, plural)] else []
  }

  function ConciseSummary(tools: seq<ToolView>): string {
    Joined(Shown(CountOf(tools, Skill), "skill", "skills") + Shown(CountOf(tools, Reading), "read", "reads") +
           Shown(CountOf(tools, Other), "tool", "tools"))
  }

  function Lines(tools: seq<ToolView>): string {
    if tools == [] then ""
    else
      var t := tools[|tools| - 1];
      Lines(tools[..|tools| - 1]) + if Trim(t.summary) == "" then "" else "> `" + t.summary + "`\n"
  }

  function Header(concise: bool, tools: seq<ToolView>): string {
    if concise then
      var summary := ConciseSummary(tools);
      if summary == "" then "" else "> `" + summary + "`\n"
    else Lines(tools)
  }

  function BodyText(answer: string): string {
    if Trim(answer) == "" then "..." else Trim(answer)
  }

  function Layout(header: string, body: string): string {
    header + (if header != "" then "\n" else "") + body
  }

  function Rendered(concise: bool, v: View): string {
    Layout(Header(concise, v.tools), BodyText(v.answer))
  }

  class ProgressiveRenderer {
    const wording: Wording
    const concise: bool
    var tools: seq<ToolView>
    var toolIndex: map<string, nat>
    var answer: string
    var done: bool

    ghost function Model(): View
      reads this
    {
      View(tools, toolIndex, answer)
    }

    ghost predicate Valid()
      reads this
    {
      IndexAgrees(Model())
    }

    constructor (w: Wording, concise: bool)
      ensures Valid() && Model() == Blank && !done && wording == w && this.concise == concise
    {
      wording, this.concise := w, concise;
      tools, toolIndex, answer, done := [], map[], "", false;
    }

    /** The flag tells exactly whether answer or lines changed, so without it the rendering is
        what it was. */
    method Apply(e: RenderEvent) returns (changed: bool)
      requires Valid()
      modifies this
      ensures Valid() && Model() == ApplyTo(wording, old(Model()), e)
      ensures changed <==> tools != old(tools) || answer != old(answer)
      ensures !changed ==> Rendered(concise, Model()) == Rendered(concise, old(Model()))
      ensures done == (old(done) || e.Done?)
    {
      match e {
        case TextDelta(_, _, t) =>
          if t == "" {
            return false;
          }
          answer := answer + t;
          return true;
        case TextSet(_, _, t) =>
          if t == answer {
            return false;
          }
          answer := t;
          return true;
        case Tool(_, _, _, _, _, _, _) =>
          changed := UpsertTool(e);
        case Done =>
          done := true;
          return false;
      }
    }

    method UpsertTool(e: RenderEvent) returns (changed: bool)
      requires Valid() && e.Tool?
      modifies this`tools, this`toolIndex
      ensures Valid() && Model() == ApplyTo(wording, old(Model()), e)
      ensures changed <==> tools != old(tools)
    {
      var id := Trim(e.callID);
      if id == "" {
        id := Trim(e.partID);
      }
      if id == "" {
        id := Trim(e.toolName);
      }
      if id == "" {
        id := "tool";
      }
      var summary, failed, category := wording.summarize(e), HasFailed(e), wording.classify(e);
      hide Trim, Lower;
      IndexKept(wording, Model(), e);
      if id in toolIndex {
        var i := toolIndex[id];
        var t;
        t, changed := UpdateLine(tools[i], summary, e.status, failed, category);
        assert changed ==> tools[i := t][i] != tools[i];
        tools := tools[i := t];
        return;
      }
      toolIndex := toolIndex[id := |tools|];
      tools := tools + [ToolView(id, summary, e.status, failed, category)];
      return true;
    }

    /** The in-place update of one entry. */
    static method UpdateLine(prior: ToolView, summary: string, status: string, failed: bool, category: string)
      returns (t: ToolView, changed: bool)
      ensures t == ToolView(prior.id, Keep(prior.summary, summary), Keep(prior.status, status), failed,
                            Keep(prior.category, category))
      ensures changed <==> t != prior
    {
      t, changed := prior, false;
      if summary != "" && t.summary != summary {
        t, changed := t.(summary := summary), true;
      }
      if status != "" && t.status != status {
        t, changed := t.(status := status), true;
      }
      if t.failed != failed {
        t, changed := t.(failed := failed), true;
      }
      if category != "" && t.category != category {
        t, changed := t.(category := category), true;
      }
    }

    method RenderConciseSummary() returns (summary: string)
      ensures summary == ConciseSummary(tools)
    {
      var skills, readings, others := 0, 0, 0;
      for i := 0 to |tools|
        invariant skills == CountOf(tools[..i], Skill) && readings == CountOf(tools[..i], Reading)
        invariant others == CountOf(tools[..i], Other)
      {
        assert tools[..i + 1][..i] == tools[..i];
        if tools[i].category == "skill" {
          skills := skills + 1;
        } else if tools[i].category == "read" {
          readings := readings + 1;
        } else {
          others := others + 1;
        }
      }
      assert tools[..|tools|] == tools;
      var parts := [];
      if skills > 0 {
        parts := parts + [FormatCount(skills, "skill", "skills")];
      }
      if readings > 0 {
        parts := parts + [FormatCount(readings, "read", "reads")];
      }
      if others > 0 {
        parts := parts + [FormatCount(others, "tool", "tools")];
      }
      assert parts == Shown(skills, "skill", "skills") + Shown(readings, "read", "reads") +
                      Shown(others, "tool", "tools");
      summary := Joined(parts);
    }

    method Render() returns (text: string)
      ensures text == Rendered(concise, Model())
    {
      text := "";
      if concise {
        var summary := RenderConciseSummary();
        if summary != "" {
          text := "> `" + summary + "`\n";
        }
      } else {
        for i := 0 to |tools|
          invariant text == Lines(tools[..i])
        {
          assert tools[..i + 1][..i] == tools[..i];
          if Trim(tools[i].summary) != "" {
            text := text + ("> `" + tools[i].summary + "`\n");
          }
        }
        assert tools[..|tools|] == tools;
      }
      var body := Trim(answer);
      if body == "" {
        body := "...";
      }
      if text != "" {
        text := text + "\n";
      }
      text := text + body;
    }
  }

  // ----- index and list -----

  function ToolEvents(es: seq<RenderEvent>, id: string): (r: seq<RenderEvent>)
    ensures forall e :: e in r ==> e.Tool? && LineID(e) == id
  {
    if es == [] then []
    else
      var e := es[|es| - 1];
      ToolEvents(es[..|es| - 1], id) + if e.Tool? && LineID(e) == id then [e] else []
  }

  /** The ids of the tool events, each where it came first. */
  function FirstSeen(es: seq<RenderEvent>): seq<string> {
    if es == [] then []
    else
      var before, e := FirstSeen(es[..|es| - 1]), es[|es| - 1];
      if e.Tool? && LineID(e) !in before then before + [LineID(e)] else before
  }

  function LastNonEmpty(texts: seq<string>): string {
    if texts == [] then "" else Keep(LastNonEmpty(texts[..|texts| - 1]), texts[|texts| - 1])
  }

  /** What the events of one call amount to: the last summary, status and category that say
      something, and whether the last event reported a failure. */
  function Digest(w: Wording, id: string, own: seq<RenderEvent>): ToolView
    requires own != [] && forall e :: e in own ==> e.Tool?
  {
    ToolView(
      id,
      LastNonEmpty(seq(|own|, i requires 0 <= i < |own| => w.summarize(own[i]))),
      LastNonEmpty(seq(|own|, i requires 0 <= i < |own| => own[i].status)),
      HasFailed(own[|own| - 1]),
      LastNonEmpty(seq(|own|, i requires 0 <= i < |own| => w.classify(own[i]))))
  }

  lemma LastNonEmptySnoc(texts: seq<string>, t: string)
    ensures LastNonEmpty(texts + [t]) == Keep(LastNonEmpty(texts), t)
  {
    assert (texts + [t])[..|texts|] == texts;
  }

  lemma DigestSnoc(w: Wording, id: string, own: seq<RenderEvent>, e: RenderEvent)
    requires own != [] && e.Tool? && LineID(e) == id && forall e :: e in own ==> e.Tool?
    ensures Digest(w, id, own + [e]) == ChangeLine(w, Digest(w, id, own), e)
  {
    hide Trim, Lower, HasFailed, LineID;
    var all := own + [e];
    var summaries := seq(|own|, i requires 0 <= i < |own| => w.summarize(own[i]));
    var statuses := seq(|own|, i requires 0 <= i < |own| => own[i].status);
    var categories := seq(|own|, i requires 0 <= i < |own| => w.classify(own[i]));
    assert seq(|all|, i requires 0 <= i < |all| => w.summarize(all[i])) == summaries + [w.summarize(e)];
    assert seq(|all|, i requires 0 <= i < |all| => all[i].status) == statuses + [e.status];
    assert seq(|all|, i requires 0 <= i < |all| => w.classify(all[i])) == categories + [w.classify(e)];
    LastNonEmptySnoc(summaries, w.summarize(e));
    LastNonEmptySnoc(statuses, e.status);
    LastNonEmptySnoc(categories, w.classify(e));
  }

  lemma DigestOne(w: Wording, e: RenderEvent)
    requires e.Tool?
    ensures Digest(w, LineID(e), [e]) == NewLine(w, e)
  {
    hide Trim, Lower, HasFailed, LineID;
    hide LastNonEmpty;
    assert seq(1, i requires 0 <= i < 1 => w.summarize([e][i])) == [w.summarize(e)];
    assert seq(1, i requires 0 <= i < 1 => [e][i].status) == [e.status];
    assert seq(1, i requires 0 <= i < 1 => w.classify([e][i])) == [w.classify(e)];
    LastOfOne(w.summarize(e));
    LastOfOne(e.status);
    LastOfOne(w.classify(e));
  }

  lemma LastOfOne(t: string)
    ensures LastNonEmpty([t]) == t
  {
    assert [t][..0] == [];
  }

  ghost predicate ListFits(w: Wording, es: seq<RenderEvent>, v: View) {
    && IndexAgrees(v)
    && |v.tools| == |FirstSeen(es)|
    && forall i | 0 <= i < |v.tools| :: LineFits(w, es, v, i)
  }

  ghost predicate LineFits(w: Wording, es: seq<RenderEvent>, v: View, i: nat)
    requires i < |v.tools| == |FirstSeen(es)|
  {
    var id := FirstSeen(es)[i];
    var own := ToolEvents(es, id);
    v.tools[i].id == id && own != [] && v.tools[i] == Digest(w, id, own)
  }

  /** After any events index and list agree, the list has one entry per distinct call in
      first-seen order, and each entry is the digest of that call's own events. */
  lemma {:induction false} ListIsDigestOfEvents(w: Wording, es: seq<RenderEvent>)
    ensures ListFits(w, es, ViewAfter(w, es))
  {
    if es != [] {
      hide ListFits, ApplyTo;
      var before, e := es[..|es| - 1], es[|es| - 1];
      ListIsDigestOfEvents(w, before);
      ListStep(w, before, e, ViewAfter(w, before));
      assert before + [e] == es;
    }
  }

  lemma Snocs(es: seq<RenderEvent>, e: RenderEvent)
    ensures FirstSeen(es + [e]) ==
            if e.Tool? && LineID(e) !in FirstSeen(es) then FirstSeen(es) + [LineID(e)] else FirstSeen(es)
    ensures forall id :: ToolEvents(es + [e], id) ==
                         ToolEvents(es, id) + if e.Tool? && LineID(e) == id then [e] else []
  {
    assert (es + [e])[..|es|] == es;
  }

  lemma {:induction false} SeenHasEvents(es: seq<RenderEvent>, id: string)
    ensures id in FirstSeen(es) <==> ToolEvents(es, id) != []
  {
    hide LineID;
    if es != [] { SeenHasEvents(es[..|es| - 1], id); }
  }

  lemma ListStep(w: Wording, es: seq<RenderEvent>, e: RenderEvent, v: View)
    requires ListFits(w, es, v)
    ensures ListFits(w, es + [e], ApplyTo(w, v, e))
  {
    hide LineID, Digest, ToolEvents, FirstSeen, ChangeLine, NewLine, IndexAgrees;
    var v' := ApplyTo(w, v, e);
    Snocs(es, e);
    IndexKept(w, v, e);
    SeenIsIndexed(w, es, v);
    assert |v'.tools| == |FirstSeen(es + [e])|;
    forall i | 0 <= i < |v'.tools| ensures LineFits(w, es + [e], v', i) {
      if i < |v.tools| { assert LineFits(w, es, v, i); }
      if e.Tool? {
        var id := LineID(e);
        SeenHasEvents(es, id);
        LineStep(w, es, e, v, i);
      } else {
        var own := ToolEvents(es, FirstSeen(es)[i]);
        assert own + [] == own;
      }
    }
  }

  lemma SeenIsIndexed(w: Wording, es: seq<RenderEvent>, v: View)
    requires ListFits(w, es, v)
    ensures forall id :: id in v.index <==> id in FirstSeen(es)
    ensures forall id :: id in v.index ==> v.index[id] < |v.tools| && FirstSeen(es)[v.index[id]] == id
  {
    hide LineID, Digest, ToolEvents, FirstSeen;
    forall id ensures id in v.index <==> id in FirstSeen(es) {
      if id in v.index { assert LineFits(w, es, v, v.index[id]); }
      if id in FirstSeen(es) {
        var i :| 0 <= i < |FirstSeen(es)| && FirstSeen(es)[i] == id;
        assert LineFits(w, es, v, i);
      }
    }
    forall id | id in v.index ensures v.index[id] < |v.tools| && FirstSeen(es)[v.index[id]] == id {
      assert LineFits(w, es, v, v.index[id]);
    }
  }

  lemma LineStep(w: Wording, es: seq<RenderEvent>, e: RenderEvent, v: View, i: nat)
    requires e.Tool? && ListFits(w, es, v)
    requires i < |ApplyTo(w, v, e).tools| == |FirstSeen(es + [e])|
    ensures LineFits(w, es + [e], ApplyTo(w, v, e), i)
  {
    hide LineID, Digest, ToolEvents, FirstSeen;
    var id := LineID(e);
    Snocs(es, e);
    SeenIsIndexed(w, es, v);
    SeenHasEvents(es, id);
    if i < |v.tools| {
      assert LineFits(w, es, v, i);
      assert v.tools[i].id in v.index && v.index[v.tools[i].id] == i;
      var own := ToolEvents(es, FirstSeen(es)[i]);
      assert own + [] == own;
      if id in v.index && v.index[id] == i {
        DigestSnoc(w, id, own, e);
      }
    } else {
      DigestOne(w, e);
      assert ToolEvents(es + [e], id) == [e];
    }
  }

  /** The three concise counts cover the list. */
  lemma {:induction false} CountsAddUp(tools: seq<ToolView>)
    ensures CountOf(tools, Skill) + CountOf(tools, Reading) + CountOf(tools, Other) == |tools|
  {
    if tools != [] { CountsAddUp(tools[..|tools| - 1]); }
  }

  // ----- the placeholder -----

  const Mark := "\n\n..."

  predicate HasPlaceholder(rendered: string) {
    Trim(rendered) == "..." || HasSuffix(Trim(rendered), Mark)
  }

  function ReplacePlaceholder(rendered: string, replacement: string): string {
    var trimmed := Trim(rendered);
    if trimmed == "..." then replacement
    else if HasSuffix(trimmed, Mark) then trimmed[..|trimmed| - |Mark|] + "\n\n" + replacement
    else rendered
  }

  /** A header is empty or a block of whole lines. */
  predicate IsHeader(h: string) {
    h != "" ==> h[0] == '>' && h[|h| - 1] == '\n'
  }

  lemma {:induction false} LinesAreHeader(tools: seq<ToolView>)
    ensures IsHeader(Lines(tools))
  {
    hide Trim;
    if tools != [] { LinesAreHeader(tools[..|tools| - 1]); }
  }

  lemma HeaderIsHeader(concise: bool, tools: seq<ToolView>)
    ensures IsHeader(Header(concise, tools))
  {
    hide ConciseSummary;
    LinesAreHeader(tools);
  }

  lemma LayoutIsTrimmed(h: string, body: string)
    requires IsHeader(h) && body != "" && !IsSpace(body[0]) && !IsSpace(body[|body| - 1])
    ensures Trim(Layout(h, body)) == Layout(h, body)
  {
    TrimOfTrimmed(Layout(h, body));
  }

  lemma LayoutEndsInMark(h: string, body: string)
    requires IsHeader(h) && body != "" && !IsSpace(body[0])
    ensures Layout(h, body) == "..." || HasSuffix(Layout(h, body), Mark) <==> body == "..." || HasSuffix(body, Mark)
  {
    var r := Layout(h, body);
    if HasSuffix(body, Mark) {
      assert r[|r| - 5..] == body[|body| - 5..];
    }
    if body == "..." && h != "" {
      assert r[|r| - 5..] == Mark;
    }
    if HasSuffix(r, Mark) {
      assert r[|r| - 1] == '.' && r[|r| - 2] == '.' && r[|r| - 3] == '.' && r[|r| - 4] == '\n' && r[|r| - 5] == '\n';
      if |body| >= 5 {
        assert body[|body| - 5..] == r[|r| - 5..];
      } else if |body| == 3 {
        assert body == r[|r| - 3..] == "...";
      }
    }
  }

  lemma TrimmedBody(answer: string)
    ensures var b := BodyText(answer); b != "" && !IsSpace(b[0]) && !IsSpace(b[|b| - 1])
  {
  }

  /** The placeholder is found exactly when the answer is blank, or reads like one itself. */
  lemma PlaceholderShowsBlankAnswer(concise: bool, v: View)
    ensures HasPlaceholder(Rendered(concise, v)) <==>
            Trim(v.answer) == "" || Trim(v.answer) == "..." || HasSuffix(Trim(v.answer), Mark)
  {
    hide Header, ConciseSummary, Trim, IsSpace;
    var h, body := Header(concise, v.tools), BodyText(v.answer);
    HeaderIsHeader(concise, v.tools);
    TrimmedBody(v.answer);
    LayoutIsTrimmed(h, body);
    LayoutEndsInMark(h, body);
    assert !HasSuffix("", Mark);
  }

  /** What replacing the placeholder makes of an answer: a blank one gives way to the notice, a
      last paragraph "..." of a longer one too, and any other stays. */
  function ReplacedAnswer(answer: string, notice: string): string {
    var body := BodyText(answer);
    if body == "..." then notice
    else if HasSuffix(body, Mark) then body[..|body| - |Mark|] + "\n\n" + notice
    else body
  }

  /** Replacing the placeholder of a rendering keeps its header, whatever the answer. */
  lemma {:induction false} ReplacedPlaceholderKeepsHeader(concise: bool, v: View, notice: string)
    ensures ReplacePlaceholder(Rendered(concise, v), notice) ==
            Layout(Header(concise, v.tools), ReplacedAnswer(v.answer, notice))
  {
    hide Header, BodyText, Trim, IsSpace, Layout, HasSuffix;
    var h, body := Header(concise, v.tools), BodyText(v.answer);
    HeaderIsHeader(concise, v.tools);
    TrimmedBody(v.answer);
    LayoutIsTrimmed(h, body);
    LayoutEndsInMark(h, body);
    if body == "..." {
      LayoutOfDots(h, notice);
    } else if HasSuffix(body, Mark) {
      LayoutOfLongAnswer(h, body, notice);
    }
  }

  lemma LayoutOfDots(h: string, notice: string)
    ensures h == "" ==> Layout(h, "...") == "..." && Layout(h, notice) == notice
    ensures h != "" && Layout(h, "...") != "..." && HasSuffix(Layout(h, "..."), Mark) ==>
              var r := Layout(h, "...");
              r[..|r| - |Mark|] + "\n\n" + notice == Layout(h, notice)
    ensures h != "" ==> Layout(h, "...") != "..."
  {
    var r := Layout(h, "...");
    if h != "" {
      assert |r| > 3;
      if HasSuffix(r, Mark) {
        assert r[|r| - 4] == '\n' == Mark[1] && r[|r| - 5..][0] == '\n';
        assert r[..|r| - 5] + "\n\n" == h + "\n";
      }
    }
  }

  lemma LayoutOfLongAnswer(h: string, body: string, notice: string)
    requires HasSuffix(body, Mark)
    ensures var r := Layout(h, body);
            r != "..." && HasSuffix(r, Mark) &&
            r[..|r| - |Mark|] + "\n\n" + notice == Layout(h, body[..|body| - |Mark|] + "\n\n" + notice)
  {
    var r, front := Layout(h, body), body[..|body| - 5];
    assert r[|r| - 5..] == body[|body| - 5..];
    assert r[..|r| - 5] == Layout(h, front);
    LayoutAppend(h, front, "\n\n");
    LayoutAppend(h, front + "\n\n", notice);
  }

  lemma LayoutAppend(h: string, a: string, b: string)
    ensures Layout(h, a) + b == Layout(h, a + b)
  {
  }

  // ----- what the text says -----

  /** The answer shows without the white space around it, under the header and a blank line; when
      it is all white space, "..." stands for it. */
  lemma {:induction false} AnswerIsShown(concise: bool, v: View) returns (i: nat, j: nat)
    ensures i <= j <= |v.answer| && AllSpace(v.answer[..i]) && AllSpace(v.answer[j..])
    ensures var above := if Header(concise, v.tools) == "" then "" else Header(concise, v.tools) + "\n";
            if AllSpace(v.answer) then Rendered(concise, v) == above + "..."
            else
              && Rendered(concise, v) == above + v.answer[i..j]
              && i < j && !IsSpace(v.answer[i]) && !IsSpace(v.answer[j - 1])
  {
    hide Header, IsSpace;
    i, j := TrimCutsSpace(v.answer);
    if !AllSpace(v.answer) {
      var shown := Trim(v.answer);
      assert shown == v.answer[i..j] && shown != "";
      assert v.answer[i] == shown[0] && v.answer[j - 1] == shown[|shown| - 1];
    }
    hide Trim, AllSpace;
  }

  /** Every tool has a line with its summary, in order, but for blank ones. */
  lemma {:induction false} LinesAppend(a: seq<ToolView>, b: seq<ToolView>)
    ensures Lines(a + b) == Lines(a) + Lines(b)
    ensures forall t :: Lines([t]) == if AllSpace(t.summary) then "" else "> `" + t.summary + "`\n"
    ensures Lines([]) == "" && forall tools :: Header(false, tools) == Lines(tools)
  {
    forall t ensures Lines([t]) == if AllSpace(t.summary) then "" else "> `" + t.summary + "`\n" { OneLine(t); }
    if b == [] {
      AppendNothing(a);
      AppendNothing(Lines(a));
    } else {
      var before, t := b[..|b| - 1], b[|b| - 1];
      SplitLast(a, b);
      LinesAppend(a, before);
      LinesSnoc(a + before, t);
      LinesSnoc(before, t);
      Assoc(Lines(a), Lines(before), Lines([t]));
    }
  }

  lemma LinesSnoc(tools: seq<ToolView>, t: ToolView)
    ensures Lines(tools + [t]) == Lines(tools) + Lines([t])
  {
    hide Trim;
    assert (tools + [t])[..|tools|] == tools && [t][..0] == [];
    var line := if Trim(t.summary) == "" then "" else "> `" + t.summary + "`\n";
    AppendNothing(line);
  }

  lemma OneLine(t: ToolView)
    ensures Lines([t]) == if AllSpace(t.summary) then "" else "> `" + t.summary + "`\n"
  {
    hide Trim, AllSpace;
    var i, j := TrimCutsSpace(t.summary);
    assert [t][..0] == [];
  }

  predicate IsFiled(t: ToolView, k: Kind) {
    match k
    case Skill => t.category == "skill"
    case Reading => t.category == "read"
    case Other => t.category != "skill" && t.category != "read"
  }

  function FiledUnder(tools: seq<ToolView>, k: Kind): set<nat> {
    set i: nat | i < |tools| && IsFiled(tools[i], k)
  }

  /** The counts are those of the entries filed under "skill", under "read" and elsewhere. */
  lemma {:induction false} CountOfMeans(tools: seq<ToolView>, k: Kind)
    ensures CountOf(tools, k) == |FiledUnder(tools, k)|
  {
    if tools == [] {
      assert FiledUnder(tools, k) == {};
    } else {
      var n := |tools| - 1;
      CountOfMeans(tools[..n], k);
      KindIsFiled(tools[n], k);
      FiledSnoc(tools, k);
    }
  }

  lemma FiledSnoc(tools: seq<ToolView>, k: Kind)
    requires tools != []
    ensures var n := |tools| - 1;
            |FiledUnder(tools, k)| == |FiledUnder(tools[..n], k)| + if IsFiled(tools[n], k) then 1 else 0
  {
    hide IsFiled;
    var n := |tools| - 1;
    var before := FiledUnder(tools[..n], k);
    if IsFiled(tools[n], k) {
      assert FiledUnder(tools, k) == before + {n};
    } else {
      assert FiledUnder(tools, k) == before;
    }
  }

  lemma KindIsFiled(t: ToolView, k: Kind)
    ensures KindOf(t) == k <==> IsFiled(t, k)
  {
  }

  function Counted(n: nat, noun: string): string {
    if n == 0 then "" else if n == 1 then "1 " + noun else Itoa(n) + " " + noun + "s"
  }

  function Listed(a: string, b: string): string {
    if a == "" then b else if b == "" then a else a + ", " + b
  }

  /** The concise header lists the counts that are not zero: skills, reads, other tools. */
  lemma {:induction false} ConciseHeaderReads(tools: seq<ToolView>)
    ensures var s, r := Counted(CountOf(tools, Skill), "skill"), Counted(CountOf(tools, Reading), "read");
            var text := Listed(Listed(s, r), Counted(CountOf(tools, Other), "tool"));
            Header(true, tools) == if tools == [] then "" else "> `" + text + "`\n"
  {
    var a, b, c := CountOf(tools, Skill), CountOf(tools, Reading), CountOf(tools, Other);
    CountsAddUp(tools);
    hide CountOf, Itoa;
    ShownIsCounted(a, "skill");
    ShownIsCounted(b, "read");
    ShownIsCounted(c, "tool");
    hide Shown, Counted;
    JoinedIsListed(Counted(a, "skill"), Counted(b, "read"), Counted(c, "tool"));
    assert "skill" + "s" == "skills";
    assert "read" + "s" == "reads";
    assert "tool" + "s" == "tools";
    SomethingCounted(a, "skill");
    SomethingCounted(b, "read");
    SomethingCounted(c, "tool");
  }

  lemma SomethingCounted(n: nat, noun: string)
    ensures Counted(n, noun) == "" <==> n == 0
  {
  }

  function Present(text: string): seq<string> {
    if text == "" then [] else [text]
  }

  lemma ShownIsCounted(n: nat, noun: string)
    ensures Shown(n, noun, noun + "s") == Present(Counted(n, noun))
  {
    hide Itoa;
    assert Itoa(n) + " " + (noun + "s") == Itoa(n) + " " + noun + "s";
  }

  lemma JoinedIsListed(a: string, b: string, c: string)
    ensures Joined(Present(a) + Present(b) + Present(c)) == Listed(Listed(a, b), c)
  {
    var parts := Present(a) + Present(b) + Present(c);
    if |parts| == 3 {
      assert parts == [a, b, c] && parts[..2] == [a, b] && [a, b][..1] == [a];
      assert Joined([a, b]) == a + ", " + b;
    } else if |parts| == 2 {
      assert parts[..1] == [parts[0]];
    }
  }

  /** What a tool event calls its line: the first of call id, part id and tool that is not blank. */
  predicate NamesLine(e: RenderEvent, name: string) {
    && e.Tool?
    && (!AllSpace(e.callID) ==> name == Trim(e.callID))
    && (AllSpace(e.callID) && !AllSpace(e.partID) ==> name == Trim(e.partID))
    && (AllSpace(e.callID) && AllSpace(e.partID) && !AllSpace(e.toolName) ==> name == Trim(e.toolName))
    && (AllSpace(e.callID) && AllSpace(e.partID) && AllSpace(e.toolName) ==> name == "tool")
  }

  lemma LineIsNamed(e: RenderEvent, name: string)
    requires e.Tool?
    ensures NamesLine(e, name) <==> name == LineID(e)
  {
    hide Trim, AllSpace;
    var i, j := TrimCutsSpace(e.callID);
    i, j := TrimCutsSpace(e.partID);
    i, j := TrimCutsSpace(e.toolName);
  }

  /** Line `id` has had an event when line `later` has had none. */
  ghost predicate ComesFirst(es: seq<RenderEvent>, id: string, later: string) {
    exists p | 0 <= p < |es| :: NamesLine(es[p], id) && forall q | 0 <= q <= p :: !NamesLine(es[q], later)
  }

  lemma {:induction false} SeenIsNamed(es: seq<RenderEvent>, id: string)
    ensures id in FirstSeen(es) <==> IsNamed(es, id)
  {
    hide LineID, NamesLine;
    if es != [] {
      var n := |es| - 1;
      SeenIsNamed(es[..n], id);
      if es[n].Tool? { LineIsNamed(es[n], id); } else { NotNamed(es[n], id); }
      if IsNamed(es[..n], id) {
        var p :| 0 <= p < n && NamesLine(es[..n][p], id);
        assert NamesLine(es[p], id);
      }
      if IsNamed(es, id) && !NamesLine(es[n], id) {
        var p :| 0 <= p < |es| && NamesLine(es[p], id);
        assert NamesLine(es[..n][p], id);
      }
    }
  }

  lemma {:induction false} SeenInOrder(es: seq<RenderEvent>, i: nat, k: nat)
    requires i < k < |FirstSeen(es)|
    ensures ComesFirst(es, FirstSeen(es)[i], FirstSeen(es)[k])
  {
    hide LineID, NamesLine;
    var n := |es| - 1;
    var before := es[..n];
    var id, later := FirstSeen(es)[i], FirstSeen(es)[k];
    if k < |FirstSeen(before)| {
      SeenInOrder(before, i, k);
      var p :| 0 <= p < n && NamesLine(before[p], id) && forall q | 0 <= q <= p :: !NamesLine(before[q], later);
      assert NamesLine(es[p], id);
      forall q | 0 <= q <= p ensures !NamesLine(es[q], later) { assert es[q] == before[q]; }
    } else {
      assert FirstSeen(before)[i] == id && id in FirstSeen(before);
      SeenIsNamed(before, id);
      SeenIsNamed(before, later);
      var p :| 0 <= p < n && NamesLine(before[p], id);
      assert NamesLine(es[p], id);
      forall q | 0 <= q <= p ensures !NamesLine(es[q], later) {
        assert es[q] == before[q];
        NamedAt(before, q, later);
      }
    }
  }

  lemma NamedAt(es: seq<RenderEvent>, q: nat, name: string)
    requires q < |es|
    ensures NamesLine(es[q], name) ==> IsNamed(es, name)
  {
  }

  ghost predicate HasLine(tools: seq<ToolView>, name: string) {
    exists i | 0 <= i < |tools| :: tools[i].id == name
  }

  ghost predicate IsNamed(es: seq<RenderEvent>, name: string) {
    exists p | 0 <= p < |es| :: NamesLine(es[p], name)
  }

  /** One line for every name, where it came first, and no other. */
  lemma {:induction false} OneLinePerName(w: Wording, es: seq<RenderEvent>)
    ensures var tools := ViewAfter(w, es).tools;
            && (forall i, k | 0 <= i < k < |tools| :: tools[i].id != tools[k].id)
            && (forall name :: HasLine(tools, name) <==> IsNamed(es, name))
            && (forall i, k | 0 <= i < k < |tools| :: ComesFirst(es, tools[i].id, tools[k].id))
  {
    hide LineID, NamesLine, Digest, ToolEvents, FirstSeen, IsNamed, ComesFirst;
    var v := ViewAfter(w, es);
    ListIsDigestOfEvents(w, es);
    hide ViewAfter;
    forall i | 0 <= i < |v.tools| ensures v.tools[i].id == FirstSeen(es)[i] { assert LineFits(w, es, v, i); }
    forall i, k | 0 <= i < k < |v.tools| ensures v.tools[i].id != v.tools[k].id { DifferentLines(v, i, k); }
    forall name ensures HasLine(v.tools, name) <==> IsNamed(es, name) {
      SeenIsNamed(es, name);
      if HasLine(v.tools, name) {
        var i :| 0 <= i < |v.tools| && v.tools[i].id == name;
        assert FirstSeen(es)[i] in FirstSeen(es);
      }
      if name in FirstSeen(es) {
        var i :| 0 <= i < |FirstSeen(es)| && FirstSeen(es)[i] == name;
        assert v.tools[i].id == name;
      }
    }
    forall i, k | 0 <= i < k < |v.tools| ensures ComesFirst(es, v.tools[i].id, v.tools[k].id) { SeenInOrder(es, i, k); }
  }

  lemma NotNamed(e: RenderEvent, name: string)
    requires !e.Tool?
    ensures !NamesLine(e, name)
  {
  }

  lemma DifferentLines(v: View, i: nat, k: nat)
    requires IndexAgrees(v) && i < k < |v.tools|
    ensures v.tools[i].id != v.tools[k].id
  {
  }

  /** No event of the line after event `p` has such a text. */
  ghost predicate NoneLater(es: seq<RenderEvent>, id: string, p: nat, text: RenderEvent -> string) {
    forall q | p < q < |es| :: NamesLine(es[q], id) ==> text(es[q]) == ""
  }

  /** A line shows the last summary, status and category its events gave that were not empty, and
      whether its last event had failed. */
  lemma {:induction false} LineShowsLast(w: Wording, es: seq<RenderEvent>, i: nat, p: nat)
    requires i < |ViewAfter(w, es).tools| && p < |es| && NamesLine(es[p], ViewAfter(w, es).tools[i].id)
    ensures LineShows(w, es, ViewAfter(w, es).tools[i], p)
  {
    hide LineShows, NamesLine, ApplyTo, FirstSeen, LineFits, IndexAgrees;
    var n := |es| - 1;
    var before, e := es[..n], es[n];
    ListIsDigestOfEvents(w, before);
    if p < n {
      NamedLineStays(w, es, i, p);
      assert before[p] == es[p];
      LineShowsLast(w, before, i, p);
      NamesTool(es[p], ViewAfter(w, es).tools[i].id);
      LineShowsNext(w, ViewAfter(w, before), before, e, i, p);
      assert before + [e] == es;
    } else {
      NamesTool(e, ViewAfter(w, es).tools[i].id);
      LineShowsNow(w, ViewAfter(w, before), es, i);
    }
  }

  lemma NamesTool(e: RenderEvent, name: string)
    requires NamesLine(e, name)
    ensures e.Tool?
  {
  }

  ghost predicate LineShows(w: Wording, es: seq<RenderEvent>, t: ToolView, p: nat)
    requires p < |es| && es[p].Tool?
  {
    && (w.summarize(es[p]) != "" && NoneLater(es, t.id, p, w.summarize) ==> t.summary == w.summarize(es[p]))
    && (es[p].status != "" && NoneLater(es, t.id, p, StatusOf) ==> t.status == es[p].status)
    && (w.classify(es[p]) != "" && NoneLater(es, t.id, p, w.classify) ==> t.category == w.classify(es[p]))
    && ((forall q | p < q < |es| :: !NamesLine(es[q], t.id)) ==> t.failed == HasFailed(es[p]))
  }

  function StatusOf(e: RenderEvent): string {
    if e.Tool? then e.status else ""
  }

  /** A line named before the last event was in the list before it, at the same place. */
  lemma NamedLineStays(w: Wording, es: seq<RenderEvent>, i: nat, p: nat)
    requires i < |ViewAfter(w, es).tools| && p < |es| - 1 && NamesLine(es[p], ViewAfter(w, es).tools[i].id)
    ensures var before := ViewAfter(w, es[..|es| - 1]);
            i < |before.tools| && before.tools[i].id == ViewAfter(w, es).tools[i].id
  {
    hide LineID, NamesLine, ChangeLine, NewLine, HasLine;
    var before, e := es[..|es| - 1], es[|es| - 1];
    var v, id := ViewAfter(w, before), ViewAfter(w, es).tools[i].id;
    assert before[p] == es[p];
    NamedAt(before, p, id);
    OneLinePerName(w, before);
    ListIsDigestOfEvents(w, before);
    assert HasLine(v.tools, id);
    HasLineIsIndexed(v, id);
    if e.Tool? { LineIDs(w, e); }
    hide IsNamed, ComesFirst;
  }

  lemma HasLineIsIndexed(v: View, id: string)
    requires IndexAgrees(v)
    ensures HasLine(v.tools, id) ==> id in v.index
  {
  }

  lemma NoneLaterSnoc(es: seq<RenderEvent>, e: RenderEvent, id: string, p: nat, text: RenderEvent -> string)
    requires p < |es| && NoneLater(es + [e], id, p, text)
    ensures NoneLater(es, id, p, text) && (NamesLine(e, id) ==> text(e) == "")
  {
    hide NamesLine;
    var all := es + [e];
    forall q | p < q < |es| ensures NamesLine(es[q], id) ==> text(es[q]) == "" { assert all[q] == es[q]; }
    assert all[|es|] == e;
  }

  lemma LineShowsNext(w: Wording, v: View, es: seq<RenderEvent>, e: RenderEvent, i: nat, p: nat)
    requires IndexAgrees(v) && i < |v.tools| && p < |es| && es[p].Tool? && LineShows(w, es, v.tools[i], p)
    ensures i < |ApplyTo(w, v, e).tools| && LineShows(w, es + [e], ApplyTo(w, v, e).tools[i], p)
  {
    hide LineID, NamesLine, HasFailed, NoneLater;
    var all, id := es + [e], v.tools[i].id;
    var t := ApplyTo(w, v, e).tools[i];
    if e.Tool? { LineIsNamed(e, id); LineIDs(w, e); } else { NotNamed(e, id); }
    assert t == if NamesLine(e, id) then ChangeLine(w, v.tools[i], e) else v.tools[i];
    hide ApplyTo, IndexAgrees;
    if NoneLater(all, id, p, w.summarize) { NoneLaterSnoc(es, e, id, p, w.summarize); }
    if NoneLater(all, id, p, StatusOf) { NoneLaterSnoc(es, e, id, p, StatusOf); }
    if NoneLater(all, id, p, w.classify) { NoneLaterSnoc(es, e, id, p, w.classify); }
    if forall q | p < q < |all| :: !NamesLine(all[q], id) {
      assert !NamesLine(all[|es|], id);
      forall q | p < q < |es| ensures !NamesLine(es[q], id) { assert all[q] == es[q]; }
    }
  }

  lemma LineShowsNow(w: Wording, v: View, es: seq<RenderEvent>, i: nat)
    requires IndexAgrees(v) && es != [] && es[|es| - 1].Tool?
    requires var t := ApplyTo(w, v, es[|es| - 1]); i < |t.tools| && NamesLine(es[|es| - 1], t.tools[i].id)
    ensures LineShows(w, es, ApplyTo(w, v, es[|es| - 1]).tools[i], |es| - 1)
  {
    hide LineID, NamesLine, HasFailed;
    var e := es[|es| - 1];
    LineIsNamed(e, ApplyTo(w, v, e).tools[i].id);
  }

  /** A line is marked failed by the kind of its last event, or by its status in any case. */
  lemma FailedMeans(e: RenderEvent)
    requires e.Tool?
    ensures HasFailed(e) <==>
            e.kind == Error ||
            (|e.status| == 5 && e.status[0] in "eE" && e.status[1] in "rR" && e.status[2] in "rR" &&
             e.status[3] in "oO" && e.status[4] in "rR")
  {
    LowerIgnoresCase(e.status, "error");
  }

  lemma LayoutReads(h: string, body: string)
    ensures Layout(h, body) == if h == "" then body else h + "\n" + body
  {
  }

  const Sample := ToolView("call_1", "Reading bot/client.go", "running", false, "read")

  const SampleTools := [Sample] + [Sample.(id := "call_2", category := "skill")] +
                       [Sample.(id := "call_3", summary := " ")]

  lemma RenderedReads(concise: bool, v: View, h: string, body: string)
    requires Header(concise, v.tools) == h && Trim(v.answer) == body
    ensures Rendered(concise, v) == (if h == "" then "" else h + "\n") + (if body == "" then "..." else body)
  {
    hide Header, Trim;
  }

  lemma {:induction false} SampleAnswers()
    ensures Trim(" Done.\n") == "Done." && Trim("\n") == ""
  {
    TrimIs(" Done.\n", 1, 6);
    assert " Done.\n"[1..6] == "Done.";
    TrimIsBlank("\n");
  }

  /** How a reply reads, with a line per tool, concisely, and when the answer is blank. */
  lemma {:induction false} RepliesRead()
    ensures Rendered(false, View(SampleTools, map[], " Done.\n")) ==
            "> `Reading bot/client.go`\n" + "> `Reading bot/client.go`\n" + "\n" + "Done."
    ensures Rendered(true, View(SampleTools, map[], " Done.\n")) == "> `1 skill, 2 reads`\n" + "\n" + "Done."
    ensures Rendered(false, View([], map[], "\n")) == "..."
  {
    SampleLines();
    SampleSummary();
    SampleAnswers();
    hide *;
    var tools := SampleTools;
    RenderedReads(false, View(tools, map[], " Done.\n"), Header(false, tools), "Done.");
    RenderedReads(true, View(tools, map[], " Done.\n"), Header(true, tools), "Done.");
    RenderedReads(false, View([], map[], "\n"), "", "");
    AppendNothing("...");
  }

  lemma SampleLine(t: ToolView)
    requires t.summary == "Reading bot/client.go"
    ensures Lines([t]) == "> `Reading bot/client.go`\n"
  {
    OneLine(t);
    SampleSpaces();
    hide *;
    assert "> `" + "Reading bot/client.go" + "`\n" == "> `Reading bot/client.go`\n";
  }

  lemma SampleBlank(t: ToolView)
    requires t.summary == " "
    ensures Lines([t]) == ""
  {
    OneLine(t);
    SampleSpaces();
    hide *;
  }

  lemma SampleLines()
    ensures Header(false, SampleTools) == "> `Reading bot/client.go`\n" + "> `Reading bot/client.go`\n"
    ensures Header(false, []) == ""
  {
    hide Lines, AllSpace, IsSpace;
    var t := Sample;
    var u, x := t.(id := "call_2", category := "skill"), t.(id := "call_3", summary := " ");
    assert SampleTools == [t] + [u] + [x];
    LinesAppend([t], [u]);
    LinesAppend([t] + [u], [x]);
    SampleLine(t);
    SampleLine(u);
    SampleBlank(x);
    AppendNothing(Lines([t] + [u]));
    hide *;
  }

  lemma SampleSpaces()
    ensures !AllSpace("Reading bot/client.go") && AllSpace(" ")
  {
    var text := "Reading bot/client.go";
    assert text[0] == 'R';
    hide AllSpace;
    NotAllSpace(text, 0);
    OneSpace(" ");
  }

  lemma OneSpace(s: string)
    requires s == " "
    ensures AllSpace(s)
  {
  }

  lemma SampleSummary()
    ensures Header(true, SampleTools) == "> `1 skill, 2 reads`\n"
  {
    SampleCounts();
    ConciseHeaderReads(SampleTools);
    SampleCounted();
    SampleListed();
    assert SampleTools != [];
    hide *;
    assert "> `" + "1 skill, 2 reads" + "`\n" == "> `1 skill, 2 reads`\n";
  }

  lemma SampleCounted()
    ensures Counted(1, "skill") == "1 skill" && Counted(2, "read") == "2 reads" && Counted(0, "tool") == ""
  {
    assert Itoa(2) == "2";
    hide Itoa;
    assert "1 " + "skill" == "1 skill";
    assert "2" + " " + "read" + "s" == "2 reads";
  }

  lemma SampleListed()
    ensures Listed(Listed("1 skill", "2 reads"), "") == "1 skill, 2 reads"
  {
    assert "1 skill" + ", " + "2 reads" == "1 skill, 2 reads";
  }

  lemma SampleCounts()
    ensures CountOf(SampleTools, Skill) == 1 && CountOf(SampleTools, Reading) == 2 && CountOf(SampleTools, Other) == 0
  {
    var t := Sample;
    var u, x := t.(id := "call_2", category := "skill"), t.(id := "call_3", summary := " ");
    forall k ensures CountOf(SampleTools, k) == (if KindOf(t) == k then 1 else 0) + (if KindOf(u) == k then 1 else 0) +
                                                (if KindOf(x) == k then 1 else 0) {
      CountSnoc([], t, k);
      CountSnoc([t], u, k);
      CountSnoc([t] + [u], x, k);
      assert [] + [t] == [t];
    }
    hide CountOf;
    assert KindOf(t) == Reading && KindOf(u) == Skill && KindOf(x) == Reading;
  }

  lemma CountSnoc(tools: seq<ToolView>, t: ToolView, k: Kind)
    ensures CountOf(tools + [t], k) == CountOf(tools, k) + if KindOf(t) == k then 1 else 0
  {
    assert (tools + [t])[..|tools|] == tools;
  }
}
