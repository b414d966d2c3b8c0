/** The Responses stream handler over the chat fallback: output items, one attempt, and the failover loop. */
module ResponsesStream {
  import opened Text
  import opened Wire
  import opened Spaces
  import ThinkingExtract

  datatype Item = Message(text: string) | Function(tool: ToolUse)

  datatype Event =
    | Created
    | InProgress
    | ItemAdded(index: nat, item: Item)
    | PartAdded(index: nat)
    | TextDelta(index: nat, text: string)
    | PartDone(index: nat, text: string)
    | ArgumentsDelta(index: nat, tool: ToolUse)
    | ItemDone(index: nat, item: Item)
    | Completed(content: string, tools: seq<ToolUse>)
    | Failed(message: string)
    | DoneMark

  /** One attempt's captured variables. */
  datatype Progress = Progress(messageStarted: bool, outputIndex: nat, fullText: string, toolUses: seq<ToolUse>)

  datatype Output = Output(p: Progress, events: seq<Event>)

  const UNSTARTED := Progress(false, 0, "", [])

  /** The events that open, and those that close, the message item. */
  function OpenMessage(p: Progress): seq<Event> {
    if p.messageStarted then [] else [ItemAdded(p.outputIndex, Message("")), PartAdded(p.outputIndex)]
  }

  function CloseMessage(p: Progress, text: string): seq<Event> {
    if p.messageStarted then [PartDone(p.outputIndex, text), ItemDone(p.outputIndex, Message(text))] else []
  }

  function ToolItem(index: nat, tool: ToolUse): seq<Event> {
    [ItemAdded(index, Function(tool)), ArgumentsDelta(index, tool), ItemDone(index, Function(tool))]
  }

  /** What one upstream callback does. */
  function Step(p: Progress, cb: Callback): Output {
    match cb
    case OnText(text, isThinking) =>
      if text == "" || isThinking then Output(p, [])
      else Output(
        p.(messageStarted := true, fullText := p.fullText + text),
        OpenMessage(p) + [TextDelta(p.outputIndex, text)])
    case OnToolUse(tool) =>
      var index := if p.messageStarted then p.outputIndex + 1 else p.outputIndex;
      Output(
        Progress(false, index + 1, p.fullText, p.toolUses + [tool]),
        CloseMessage(p, p.fullText) + ToolItem(index, tool))
  }

  function Steps(p: Progress, cbs: seq<Callback>): Output
    decreases |cbs|
  {
    if cbs == [] then Output(p, [])
    else
      var first := Step(p, cbs[0]);
      var rest := Steps(first.p, cbs[1..]);
      Output(rest.p, first.events + rest.events)
  }

  lemma {:induction false} StepsSnoc(p: Progress, cbs: seq<Callback>, cb: Callback)
    ensures var before := Steps(p, cbs);
            var last := Step(before.p, cb);
            Steps(p, cbs + [cb]) == Output(last.p, before.events + last.events)
    decreases |cbs|
  {
    if cbs == [] {
      assert [cb][1..] == [] && [] + [cb] == [cb];
      var last := Step(p, cb);
      assert last.events + [] == last.events && [] + last.events == last.events;
    } else {
      assert (cbs + [cb])[0] == cbs[0] && (cbs + [cb])[1..] == cbs[1..] + [cb];
      var first := Step(p, cbs[0]);
      StepsSnoc(first.p, cbs[1..], cb);
      var before := Steps(first.p, cbs[1..]);
      Assoc(first.events, before.events, Step(before.p, cb).events);
    }
  }

  // ---- Attempts ----

  datatype Outcome = Broken(message: string) | Succeeded

  datatype Attempt = Unusable(message: string) | Upstream(cbs: seq<Callback>, outcome: Outcome)

  const MAX_ATTEMPTS := 3

  /** Something was sent for the answer itself. */
  predicate ResponseStarted(cbs: seq<Callback>) {
    exists i :: 0 <= i < |cbs| && Starts(cbs[i])
  }

  predicate Starts(cb: Callback) {
    match cb
    case OnText(text, isThinking) => text != "" && !isThinking
    case OnToolUse(_) => true
  }

  predicate Retried(a: Attempt) {
    a.Unusable? || (a.outcome.Broken? && !ResponseStarted(a.cbs))
  }

  function FinalContent(p: Progress): string {
    TrimSpace(ThinkingExtract.Extract(p.fullText).text)
  }

  /** The answer of an attempt that is not retried. */
  function Answer(a: Attempt): seq<Event>
    requires a.Upstream?
  {
    var r := Steps(UNSTARTED, a.cbs);
    match a.outcome
    case Broken(message) => r.events + [Failed(message)]
    case Succeeded =>
      r.events + CloseMessage(r.p, FinalContent(r.p)) + [Completed(FinalContent(r.p), r.p.toolUses), DoneMark]
  }

  /** What an attempt sends. */
  function Sends(a: Attempt): seq<Event> {
    match a
    case Unusable(_) => []
    case Upstream(_, _) => [InProgress] + (if Retried(a) then [] else Answer(a))
  }

  /** The loop; `lastError` is the message for the case that no attempt answers. */
  function Serve(attempts: seq<Attempt>, left: nat, lastError: string): seq<Event>
    decreases left
  {
    if left == 0 || attempts == [] then [Failed(lastError)]
    else if Retried(attempts[0]) then
      Sends(attempts[0]) + Serve(attempts[1..], left - 1, ErrorAfter(attempts[0], lastError))
    else Sends(attempts[0])
  }

  function ErrorAfter(a: Attempt, lastError: string): string {
    match a
    case Unusable(message) => message
    case Upstream(_, outcome) => if outcome.Broken? then outcome.message else lastError
  }

  class Responder {
    var wire: seq<Event>
    var responseStarted: bool
    var messageStarted: bool
    var outputIndex: nat
    var fullText: string
    var toolUses: seq<ToolUse>

    function Value(): Progress
      reads this
    {
      Progress(messageStarted, outputIndex, fullText, toolUses)
    }

    constructor (wire: seq<Event>, responseStarted: bool)
      ensures Value() == UNSTARTED && this.wire == wire && this.responseStarted == responseStarted
    {
      this.wire := wire;
      this.responseStarted := responseStarted;
      messageStarted, outputIndex, fullText, toolUses := false, 0, "", [];
    }

    method EnsureMessageStarted()
      modifies this`wire, this`messageStarted
      ensures wire == old(wire) + OpenMessage(old(Value())) && messageStarted
    {
      if messageStarted {
        return;
      }
      messageStarted := true;
      wire := wire + [ItemAdded(outputIndex, Message(""))];
      wire := wire + [PartAdded(outputIndex)];
    }

    method OnTextCallback(text: string, isThinking: bool)
      modifies this
      ensures var r := Step(old(Value()), OnText(text, isThinking)); Value() == r.p && wire == old(wire) + r.events
      ensures responseStarted == (old(responseStarted) || Starts(OnText(text, isThinking)))
    {
      if text == "" || isThinking {
        return;
      }
      fullText := fullText + text;
      EnsureMessageStarted();
      wire := wire + [TextDelta(outputIndex, text)];
      responseStarted := true;
    }

    method OnToolUseCallback(tool: ToolUse)
      modifies this
      ensures var r := Step(old(Value()), OnToolUse(tool)); Value() == r.p && wire == old(wire) + r.events
      ensures responseStarted
    {
      if messageStarted {
        wire := wire + [PartDone(outputIndex, fullText)];
        wire := wire + [ItemDone(outputIndex, Message(fullText))];
        messageStarted := false;
        outputIndex := outputIndex + 1;
      }
      toolUses := toolUses + [tool];
      wire := wire + [ItemAdded(outputIndex, Function(tool))];
      wire := wire + [ArgumentsDelta(outputIndex, tool)];
      wire := wire + [ItemDone(outputIndex, Function(tool))];
      outputIndex := outputIndex + 1;
      responseStarted := true;
    }

    method OnCallback(cb: Callback)
      modifies this
      ensures var r := Step(old(Value()), cb); Value() == r.p && wire == old(wire) + r.events
      ensures responseStarted == (old(responseStarted) || Starts(cb))
    {
      match cb {
        case OnText(text, isThinking) => OnTextCallback(text, isThinking);
        case OnToolUse(tool) => OnToolUseCallback(tool);
      }
    }

    /** The callbacks of one upstream call. */
    method Deliver(cbs: seq<Callback>)
      requires Value() == UNSTARTED && !responseStarted
      modifies this
      ensures var r := Steps(UNSTARTED, cbs); Value() == r.p && wire == old(wire) + r.events
      ensures responseStarted == ResponseStarted(cbs)
    {
      ghost var w0 := wire;
      ghost var r := Steps(UNSTARTED, []);
      assert w0 + [] == w0;
      for i := 0 to |cbs|
        invariant r == Steps(UNSTARTED, cbs[..i]) && Value() == r.p && wire == w0 + r.events
        invariant responseStarted == ResponseStarted(cbs[..i])
      {
        assert cbs[..i + 1] == cbs[..i] + [cbs[i]];
        StepsSnoc(UNSTARTED, cbs[..i], cbs[i]);
        StartedSnoc(cbs, i);
        Assoc(w0, r.events, Step(r.p, cbs[i]).events);
        OnCallback(cbs[i]);
        r := Steps(UNSTARTED, cbs[..i + 1]);
      }
      assert cbs[..|cbs|] == cbs;
    }

    /** The tail of a successful attempt. */
    method Complete()
      modifies this`wire
      ensures var final := FinalContent(Value());
              wire == old(wire) + CloseMessage(Value(), final) + [Completed(final, toolUses), DoneMark]
    {
      var finalContent, _ := ThinkingExtract.ExtractThinkingFromContent(fullText);
      ghost var w0 := wire;
      if messageStarted {
        wire := wire + [PartDone(outputIndex, finalContent)];
        wire := wire + [ItemDone(outputIndex, Message(finalContent))];
      }
      assert wire == w0 + CloseMessage(Value(), finalContent);
      ghost var w1 := wire;
      wire := wire + [Completed(finalContent, toolUses)];
      wire := wire + [DoneMark];
      assert wire == w1 + [Completed(finalContent, toolUses), DoneMark];
    }
  }

  lemma StartedSnoc(cbs: seq<Callback>, i: nat)
    requires i < |cbs|
    ensures ResponseStarted(cbs[..i + 1]) <==> ResponseStarted(cbs[..i]) || Starts(cbs[i])
  {
    if ResponseStarted(cbs[..i]) {
      var j :| 0 <= j < i && Starts(cbs[..i][j]);
      assert cbs[..i + 1][j] == cbs[..i][j];
    }
    assert cbs[..i + 1][i] == cbs[i];
  }

  /** Until the response has started, an attempt has sent nothing. */
  lemma {:induction false} UnstartedIsSilent(p: Progress, cbs: seq<Callback>)
    requires !ResponseStarted(cbs)
    ensures Steps(p, cbs) == Output(p, [])
    decreases |cbs|
  {
    if cbs != [] {
      assert !Starts(cbs[0]);
      forall i | 0 <= i < |cbs[1..]|
        ensures !Starts(cbs[1..][i])
      {
        assert cbs[1..][i] == cbs[i + 1];
      }
      UnstartedIsSilent(p, cbs[1..]);
    }
  }

  lemma NothingMore(wire: seq<Event>)
    ensures wire + [InProgress] + [] == wire + ([InProgress] + [])
  {
  }

  lemma ThreeMore(wire: seq<Event>, body: seq<Event>, close: seq<Event>, end: seq<Event>)
    ensures wire + [InProgress] + body + close + end == wire + ([InProgress] + (body + close + end))
    ensures close == [] ==> wire + [InProgress] + body + end == wire + ([InProgress] + (body + end))
  {
  }

  /** One upstream call of the loop. */
  method CallUpstream(cbs: seq<Callback>, outcome: Outcome, wire: seq<Event>) returns (again: bool, wire': seq<Event>)
    ensures again == Retried(Upstream(cbs, outcome)) && wire' == wire + Sends(Upstream(cbs, outcome))
  {
    ghost var a := Upstream(cbs, outcome);
    ghost var r := Steps(UNSTARTED, cbs);
    var out := new Responder(wire + [InProgress], false);
    out.Deliver(cbs);
    match outcome {
      case Broken(message) =>
        if !out.responseStarted {
          UnstartedIsSilent(UNSTARTED, cbs);
          NothingMore(wire);
          return true, out.wire;
        }
        ThreeMore(wire, r.events, [], [Failed(message)]);
        return false, out.wire + [Failed(message)];
      case Succeeded =>
        out.Complete();
        ghost var close := CloseMessage(r.p, FinalContent(r.p));
        ghost var end := [Completed(FinalContent(r.p), r.p.toolUses), DoneMark];
        ThreeMore(wire, r.events, close, end);
        return false, out.wire;
    }
  }

  /** The handler: up to three attempts, the next one only if the response has not started. */
  method HandleResponsesStream(attempts: seq<Attempt>) returns (wire: seq<Event>)
    ensures wire == [Created] + Serve(attempts, MAX_ATTEMPTS, "No available accounts")
  {
    wire := [Created];
    var lastError := "No available accounts";
    var attempt := 0;
    while attempt < MAX_ATTEMPTS && attempt < |attempts|
      invariant 0 <= attempt <= MAX_ATTEMPTS && attempt <= |attempts|
      invariant [Created] + Serve(attempts, MAX_ATTEMPTS, "No available accounts")
             == wire + Serve(attempts[attempt..], MAX_ATTEMPTS - attempt, lastError)
    {
      var a := attempts[attempt];
      assert attempts[attempt..][0] == a && attempts[attempt..][1..] == attempts[attempt + 1..];
      ghost var rest := Serve(attempts[attempt + 1..], MAX_ATTEMPTS - attempt - 1, ErrorAfter(a, lastError));
      Assoc(wire, Sends(a), rest);
      if a.Unusable? {
        lastError := a.message;
        assert wire + [] == wire;
      } else {
        var again;
        again, wire := CallUpstream(a.cbs, a.outcome, wire);
        if !again {
          return;
        }
        lastError := a.outcome.message;
      }
      attempt := attempt + 1;
    }
    wire := wire + [Failed(lastError)];
  }
}
