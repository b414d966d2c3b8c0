/** The output list a completed response carries, against the items that were streamed. */
module ResponsesItems {
  import opened Text
  import opened Wire
  import opened Spaces
  import opened ResponsesStream
  import opened ResponsesLaws
  import E = ThinkingExtract

  function Calls(tools: seq<ToolUse>): seq<Item> {
    seq(|tools|, i requires 0 <= i < |tools| => Function(tools[i]))
  }

  /** The list of the completed response: one message, unless blank, then all calls; never nothing. */
  function Listed(content: string, tools: seq<ToolUse>): seq<Item> {
    var items := (if TrimSpace(content) != "" then [Message(content)] else []) + Calls(tools);
    if items == [] then [Message("")] else items
  }

  lemma CallsSnoc(tools: seq<ToolUse>, i: nat)
    requires i < |tools|
    ensures Calls(tools[..i + 1]) == Calls(tools[..i]) + [Function(tools[i])]
  {
  }

  method BuildOutput(content: string, toolUses: seq<ToolUse>) returns (output: seq<Item>)
    ensures output == Listed(content, toolUses)
  {
    output := [];
    if TrimSpace(content) != "" {
      output := output + [Message(content)];
    }
    ghost var message := output;
    for i := 0 to |toolUses|
      invariant output == message + Calls(toolUses[..i])
    {
      CallsSnoc(toolUses, i);
      Assoc(message, Calls(toolUses[..i]), [Function(toolUses[i])]);
      output := output + [Function(toolUses[i])];
    }
    assert toolUses[..|toolUses|] == toolUses;
    if |output| == 0 {
      output := output + [Message("")];
    }
  }

  /** The items announced as done, in order. */
  function Done(events: seq<Event>): seq<Item> {
    if events == [] then [] else (if events[0].ItemDone? then [events[0].item] else []) + Done(events[1..])
  }

  /** The items a successful attempt streams. */
  function Streamed(cbs: seq<Callback>): seq<Item> {
    Done(Answer(Upstream(cbs, Succeeded)))
  }

  lemma {:induction false} DoneAppend(a: seq<Event>, b: seq<Event>)
    ensures Done(a + b) == Done(a) + Done(b)
  {
    if a == [] {
      assert a + b == b;
    } else {
      assert (a + b)[0] == a[0] && (a + b)[1..] == a[1..] + b;
      DoneAppend(a[1..], b);
    }
  }

  // ---- What the callbacks get done ----

  function ClosedMessage(p: Progress, text: string): seq<Item> {
    if p.messageStarted then [Message(text)] else []
  }

  function DoneBy(p: Progress, cb: Callback): seq<Item> {
    match cb
    case OnText(_, _) => []
    case OnToolUse(tool) => ClosedMessage(p, p.fullText) + [Function(tool)]
  }

  function DoneByAll(p: Progress, cbs: seq<Callback>): seq<Item>
    decreases |cbs|
  {
    if cbs == [] then [] else DoneBy(p, cbs[0]) + DoneByAll(Step(p, cbs[0]).p, cbs[1..])
  }

  lemma DoneOfOne(e: Event)
    ensures Done([e]) == if e.ItemDone? then [e.item] else []
  {
    assert [e][1..] == [];
  }

  lemma DoneOfTwo(e: Event, f: Event)
    ensures Done([e, f]) == (if e.ItemDone? then [e.item] else []) + (if f.ItemDone? then [f.item] else [])
  {
    assert [e, f][1..] == [f];
    DoneOfOne(f);
  }

  lemma DoneOfClose(p: Progress, text: string)
    ensures Done(CloseMessage(p, text)) == ClosedMessage(p, text)
  {
    DoneOfTwo(PartDone(p.outputIndex, text), ItemDone(p.outputIndex, Message(text)));
  }

  lemma DoneOfStep(p: Progress, cb: Callback)
    ensures Done(Step(p, cb).events) == DoneBy(p, cb)
  {
    match cb
    case OnText(text, isThinking) =>
      DoneAppend(OpenMessage(p), [TextDelta(p.outputIndex, text)]);
      DoneOfTwo(ItemAdded(p.outputIndex, Message("")), PartAdded(p.outputIndex));
      DoneOfOne(TextDelta(p.outputIndex, text));
    case OnToolUse(tool) =>
      var index := if p.messageStarted then p.outputIndex + 1 else p.outputIndex;
      DoneAppend(CloseMessage(p, p.fullText), ToolItem(index, tool));
      DoneOfClose(p, p.fullText);
      DoneOfTool(index, tool);
  }

  lemma DoneOfTool(index: nat, tool: ToolUse)
    ensures Done(ToolItem(index, tool)) == [Function(tool)]
  {
    var added, arguments, done := ItemAdded(index, Function(tool)), ArgumentsDelta(index, tool), ItemDone(index, Function(tool));
    assert ToolItem(index, tool) == [added, arguments] + [done];
    DoneAppend([added, arguments], [done]);
    DoneOfTwo(added, arguments);
    DoneOfOne(done);
  }

  lemma {:induction false} DoneOfSteps(p: Progress, cbs: seq<Callback>)
    ensures Done(Steps(p, cbs).events) == DoneByAll(p, cbs)
    decreases |cbs|
  {
    if cbs != [] {
      var first := Step(p, cbs[0]);
      DoneOfStep(p, cbs[0]);
      DoneOfSteps(first.p, cbs[1..]);
      DoneAppend(first.events, Steps(first.p, cbs[1..]).events);
    }
  }

  lemma StreamedIs(cbs: seq<Callback>)
    ensures var p := Steps(UNSTARTED, cbs).p;
            Streamed(cbs) == DoneByAll(UNSTARTED, cbs) + ClosedMessage(p, FinalContent(p))
  {
    var r := Steps(UNSTARTED, cbs);
    var close, end := CloseMessage(r.p, FinalContent(r.p)), [Completed(FinalContent(r.p), r.p.toolUses), DoneMark];
    DoneOfSteps(UNSTARTED, cbs);
    DoneOfClose(r.p, FinalContent(r.p));
    DoneAppend(r.events, close);
    DoneAppend(r.events + close, end);
    DoneOfTwo(end[0], end[1]);
    assert Done(r.events + close) + [] == Done(r.events + close);
  }

  // ---- Before and behind the first tool use ----

  function ToolsIn(cbs: seq<Callback>): seq<ToolUse> {
    if cbs == [] then [] else (if cbs[0].OnToolUse? then [cbs[0].tool] else []) + ToolsIn(cbs[1..])
  }

  /** The position of the first tool use, or the number of callbacks. */
  function FirstTool(cbs: seq<Callback>): (n: nat)
    ensures n <= |cbs| && (n < |cbs| ==> cbs[n].OnToolUse?)
    ensures forall i :: 0 <= i < n ==> cbs[i].OnText?
  {
    if cbs == [] || cbs[0].OnToolUse? then 0 else FirstTool(cbs[1..]) + 1
  }

  /** The visible text behind the first tool use. */
  function LaterText(cbs: seq<Callback>): string {
    if FirstTool(cbs) == |cbs| then "" else AllText(cbs[FirstTool(cbs) + 1..])
  }

  lemma {:induction false} ToolsAreCollected(p: Progress, cbs: seq<Callback>)
    ensures Steps(p, cbs).p.toolUses == p.toolUses + ToolsIn(cbs)
    decreases |cbs|
  {
    if cbs != [] {
      ToolsAreCollected(Step(p, cbs[0]).p, cbs[1..]);
    }
  }

  lemma {:induction false} StepsAppend(p: Progress, a: seq<Callback>, b: seq<Callback>)
    ensures Steps(p, a + b).p == Steps(Steps(p, a).p, b).p
    ensures DoneByAll(p, a + b) == DoneByAll(p, a) + DoneByAll(Steps(p, a).p, b)
    decreases |a|
  {
    if a == [] {
      assert a + b == b;
    } else {
      assert (a + b)[0] == a[0] && (a + b)[1..] == a[1..] + b;
      StepsAppend(Step(p, a[0]).p, a[1..], b);
    }
  }

  /** Text alone gets nothing done. */
  lemma {:induction false} TextOnly(p: Progress, cbs: seq<Callback>)
    requires forall i :: 0 <= i < |cbs| ==> cbs[i].OnText?
    ensures DoneByAll(p, cbs) == []
    ensures Steps(p, cbs).p == p.(messageStarted := p.messageStarted || AllText(cbs) != "", fullText := p.fullText + AllText(cbs))
    ensures ToolsIn(cbs) == []
    decreases |cbs|
  {
    if cbs == [] {
      assert p.fullText + "" == p.fullText;
    } else {
      TextOnly(Step(p, cbs[0]).p, cbs[1..]);
      Assoc(p.fullText, TextIn(cbs[0]), AllText(cbs[1..]));
      assert p.fullText + "" == p.fullText;
    }
  }

  /** Tools alone are done as they come. */
  lemma {:induction false} ToolsOnly(p: Progress, cbs: seq<Callback>)
    requires !p.messageStarted && AllText(cbs) == ""
    ensures DoneByAll(p, cbs) == Calls(ToolsIn(cbs)) && !Steps(p, cbs).p.messageStarted
    decreases |cbs|
  {
    if cbs != [] {
      assert TextIn(cbs[0]) == "" && AllText(cbs[1..]) == "";
      ToolsOnly(Step(p, cbs[0]).p, cbs[1..]);
      CallsAppend(if cbs[0].OnToolUse? then [cbs[0].tool] else [], ToolsIn(cbs[1..]));
    }
  }

  lemma CallsAppend(a: seq<ToolUse>, b: seq<ToolUse>)
    ensures Calls(a + b) == Calls(a) + Calls(b)
    ensures forall tool :: Calls([tool]) == [Function(tool)]
  {
  }

  ghost predicate HasMessage(items: seq<Item>) {
    exists i :: 0 <= i < |items| && items[i].Message?
  }

  lemma HasMessageIn(a: seq<Item>, b: seq<Item>)
    requires HasMessage(a) || HasMessage(b)
    ensures HasMessage(a + b)
  {
    if i :| 0 <= i < |a| && a[i].Message? {
      assert (a + b)[i].Message?;
    } else {
      var i :| 0 <= i < |b| && b[i].Message?;
      assert (a + b)[|a| + i].Message?;
    }
  }

  /** Text, or an open message, ends up in a message that is done, or left open. */
  lemma {:induction false} TextIsDone(p: Progress, cbs: seq<Callback>)
    requires p.messageStarted || AllText(cbs) != ""
    ensures HasMessage(DoneByAll(p, cbs)) || Steps(p, cbs).p.messageStarted
    decreases |cbs|
  {
    if cbs != [] {
      var first, rest := Step(p, cbs[0]).p, DoneByAll(Step(p, cbs[0]).p, cbs[1..]);
      if p.messageStarted && cbs[0].OnToolUse? {
        assert DoneBy(p, cbs[0])[0].Message?;
        HasMessageIn(DoneBy(p, cbs[0]), rest);
      } else {
        TextIsDone(first, cbs[1..]);
        if HasMessage(rest) {
          HasMessageIn(DoneBy(p, cbs[0]), rest);
        }
      }
    }
  }

  // ---- When the lists agree ----

  /** The message item of text said before the first tool use. */
  function TextItem(text: string): seq<Item> {
    if text != "" then [Message(text)] else []
  }

  /** Where the first tool use leaves an attempt. */
  function AfterTool(text: string, tool: ToolUse): Progress {
    Progress(false, if text != "" then 2 else 1, text, [tool])
  }

  lemma TrimmedStays(s: string)
    ensures TrimSpace(TrimSpace(s)) == TrimSpace(s)
  {
  }

  /** Without a tool use: one message, if there was any text. */
  lemma AgreeWithoutTools(cbs: seq<Callback>)
    requires FirstTool(cbs) == |cbs|
    ensures var p := Steps(UNSTARTED, cbs).p;
            Streamed(cbs) == Listed(FinalContent(p), p.toolUses) <==> AllText(cbs) != ""
  {
    var p := Steps(UNSTARTED, cbs).p;
    StreamedIs(cbs);
    TextOnly(UNSTARTED, cbs);
    TrimmedStays(E.Extract(p.fullText).text);
    assert Calls([]) == [];
  }

  lemma CutAt(cbs: seq<Callback>, n: nat)
    requires n < |cbs|
    ensures cbs == cbs[..n] + ([cbs[n]] + cbs[n + 1..])
  {
  }

  lemma TextAround(front: seq<Callback>, tool: ToolUse, later: seq<Callback>)
    ensures AllText(front + ([OnToolUse(tool)] + later)) == AllText(front) + AllText(later)
  {
    var behind := [OnToolUse(tool)] + later;
    AllTextAppend(front, behind);
    assert behind[0] == OnToolUse(tool) && behind[1..] == later;
    assert "" + AllText(later) == AllText(later);
  }

  /** Text only, from the start. */
  lemma AfterText(front: seq<Callback>)
    requires forall i :: 0 <= i < |front| ==> front[i].OnText?
    ensures DoneByAll(UNSTARTED, front) == []
    ensures Steps(UNSTARTED, front).p == Progress(AllText(front) != "", 0, AllText(front), [])
  {
    TextOnly(UNSTARTED, front);
    assert "" + AllText(front) == AllText(front);
  }

  /** A tool use behind text. */
  lemma ToolFirst(text: string, tool: ToolUse, later: seq<Callback>)
    ensures var p, q := Progress(text != "", 0, text, []), AfterTool(text, tool);
            && DoneByAll(p, [OnToolUse(tool)] + later) == TextItem(text) + [Function(tool)] + DoneByAll(q, later)
            && Steps(p, [OnToolUse(tool)] + later).p == Steps(q, later).p
  {
    var cbs := [OnToolUse(tool)] + later;
    assert cbs[0] == OnToolUse(tool) && cbs[1..] == later;
    assert [] + [tool] == [tool];
  }

  /** Text up to the first tool use, that tool use, and what comes behind it. */
  lemma Parts(front: seq<Callback>, tool: ToolUse, later: seq<Callback>)
    requires forall i :: 0 <= i < |front| ==> front[i].OnText?
    ensures var cbs, text := front + ([OnToolUse(tool)] + later), AllText(front);
            && DoneByAll(UNSTARTED, cbs) == TextItem(text) + [Function(tool)] + DoneByAll(AfterTool(text, tool), later)
            && Steps(UNSTARTED, cbs).p == Steps(AfterTool(text, tool), later).p
  {
    AfterText(front);
    ToolFirst(AllText(front), tool, later);
    StepsAppend(UNSTARTED, front, [OnToolUse(tool)] + later);
    var done := TextItem(AllText(front)) + [Function(tool)] + DoneByAll(AfterTool(AllText(front), tool), later);
    assert [] + done == done;
  }

  /** Behind the first place a completed list with calls has no message. */
  lemma NoLaterMessage(content: string, tools: seq<ToolUse>, i: nat)
    requires tools != [] && 0 < i < |Listed(content, tools)|
    ensures !Listed(content, tools)[i].Message?
  {
  }

  lemma DisagreeOnLaterText(items: seq<Item>, tool: ToolUse, more: seq<Item>, content: string, tools: seq<ToolUse>)
    requires HasMessage(more) && tools != []
    ensures items + [Function(tool)] + more != Listed(content, tools)
  {
    var all := items + [Function(tool)] + more;
    var i :| 0 <= i < |more| && more[i].Message?;
    assert all[|items| + 1 + i].Message?;
    if all == Listed(content, tools) {
      NoLaterMessage(content, tools, |items| + 1 + i);
    }
  }

  lemma AgreeOnTextBefore(text: string, tools: seq<ToolUse>)
    requires tools != []
    ensures var final := TrimSpace(E.Extract(text).text);
            TextItem(text) + Calls(tools) == Listed(final, tools)
            <==> text == "" || (Trimmed(text) && !E.HasPair(text))
  {
    var final := TrimSpace(E.Extract(text).text);
    TrimmedStays(E.Extract(text).text);
    var streamed, listed := TextItem(text) + Calls(tools), Listed(final, tools);
    assert streamed[0] == if text != "" then Message(text) else Function(tools[0]);
    assert listed[0] == if final != "" then Message(final) else Function(tools[0]);
    if text != "" {
      assert "" + text == text;
      ExtractedIsOwnIff("", text);
    } else {
      ExtractCuts("");
    }
  }

  /**
   The completed response lists the items that were streamed exactly in these cases: without tool uses, if there
   was any text; with tool uses, if no text came behind the first, and what came before it, if anything, is
   trimmed and holds no thinking block.
   */
  lemma ListsAgreeIff(cbs: seq<Callback>)
    ensures var p := Steps(UNSTARTED, cbs).p;
            Streamed(cbs) == Listed(FinalContent(p), p.toolUses)
            <==> if FirstTool(cbs) == |cbs| then AllText(cbs) != ""
                 else LaterText(cbs) == "" && (AllText(cbs) == "" || (Trimmed(AllText(cbs)) && !E.HasPair(AllText(cbs))))
  {
    var n := FirstTool(cbs);
    if n == |cbs| {
      AgreeWithoutTools(cbs);
    } else {
      AgreeWithTools(cbs, n);
    }
  }

  lemma AgreeWithTools(cbs: seq<Callback>, n: nat)
    requires n == FirstTool(cbs) < |cbs|
    ensures var p := Steps(UNSTARTED, cbs).p;
            Streamed(cbs) == Listed(FinalContent(p), p.toolUses)
            <==> LaterText(cbs) == "" && (AllText(cbs) == "" || (Trimmed(AllText(cbs)) && !E.HasPair(AllText(cbs))))
  {
    var p := Steps(UNSTARTED, cbs).p;
    var text, tool, later := AllText(cbs[..n]), cbs[n].tool, cbs[n + 1..];
    StreamedIs(cbs);
    CutAt(cbs, n);
    Parts(cbs[..n], tool, later);
    TextAround(cbs[..n], tool, later);
    ToolsAreCollected(AfterTool(text, tool), later);
    FullTextIsAll(cbs);
    if LaterText(cbs) == "" {
      assert text + "" == text;
      OnlyTools(text, tool, later, FinalContent(p));
      AgreeOnTextBefore(text, p.toolUses);
    } else {
      MoreText(text, tool, later, FinalContent(p), p.toolUses);
    }
  }

  /** What is streamed when no text comes behind the first tool use. */
  lemma OnlyTools(text: string, tool: ToolUse, later: seq<Callback>, final: string)
    requires AllText(later) == ""
    ensures var q := AfterTool(text, tool);
            TextItem(text) + [Function(tool)] + DoneByAll(q, later) + ClosedMessage(Steps(q, later).p, final)
            == TextItem(text) + Calls([tool] + ToolsIn(later))
  {
    ToolsOnly(AfterTool(text, tool), later);
    CallsAppend([tool], ToolsIn(later));
    Assoc(TextItem(text), [Function(tool)], Calls(ToolsIn(later)));
  }

  /** Text behind the first tool use is a message the completed list does not have. */
  lemma MoreText(text: string, tool: ToolUse, later: seq<Callback>, final: string, tools: seq<ToolUse>)
    requires AllText(later) != "" && tools != []
    ensures var q := AfterTool(text, tool);
            TextItem(text) + [Function(tool)] + DoneByAll(q, later) + ClosedMessage(Steps(q, later).p, final) != Listed(final, tools)
  {
    var q := AfterTool(text, tool);
    var close := ClosedMessage(Steps(q, later).p, final);
    TextIsDone(q, later);
    if Steps(q, later).p.messageStarted {
      assert close[0].Message?;
    }
    HasMessageIn(DoneByAll(q, later), close);
    Assoc(TextItem(text) + [Function(tool)], DoneByAll(q, later), close);
    DisagreeOnLaterText(TextItem(text), tool, DoneByAll(q, later) + close, final, tools);
  }
}
