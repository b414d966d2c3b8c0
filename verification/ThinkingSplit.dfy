/**
 The incremental splitter inside both stream handlers (`processClaudeText`, `processText`):
 it separates visible text from thinking, whichever of the two rival sources delivers the thinking.
 */
module ThinkingSplit {
  import opened Text
  import opened Wire

  const OPEN := "<thinking>"
  const CLOSE := "</thinking>"

  datatype Source = Unknown | ReasoningEvent | TagBlock

  /** The `thinkingState` argument of the send functions: 0, 1, 2, 3. */
  datatype Phase = Visible | Begin | Middle | End

  /** What reaches the sink: a call of the send function, or a tool use. */
  datatype Action = Send(text: string, phase: Phase) | Use(tool: ToolUse)

  datatype State = State(
    buffer: string,
    inBlock: bool,
    dropTag: bool,
    source: Source,
    started: bool,
    eventOpen: bool)

  /** A state together with what was sent on the way to it. */
  datatype Result = Result(st: State, sent: seq<Action>)

  /** The result of one loop iteration, and whether the loop goes on. */
  datatype Iteration = Iteration(st: State, sent: seq<Action>, again: bool)

  const INITIAL := State("", false, false, Unknown, false, false)

  /** Whether reasoning events may contribute; claims the attempt for them if so. */
  function AllowReasoning(source: Source): (bool, Source) {
    if source == TagBlock then (false, source) else (true, ReasoningEvent)
  }

  /** Whether tagged text may contribute; claims the attempt for it if still unclaimed. */
  function AllowTag(source: Source): (bool, Source) {
    if source == ReasoningEvent then (false, source) else (true, TagBlock)
  }

  function SendIf(ok: bool, text: string, phase: Phase): seq<Action> {
    if ok then [Send(text, phase)] else []
  }

  /** A whole thinking segment, or the rest of one that has been begun. */
  function Segment(st: State, content: string): seq<Action> {
    if st.dropTag then []
    else if !st.started then [Send(content, Begin), Send("", End)]
    else [Send(content, End)]
  }

  /** One iteration of the buffer loop. */
  function Turn(st: State, force: bool): (r: Iteration)
    ensures r.again ==> |r.st.buffer| < |st.buffer|
  {
    if st.inBlock then TurnInside(st, force) else TurnOutside(st, force)
  }

  function TurnOutside(st: State, force: bool): (r: Iteration)
    ensures r.again ==> |r.st.buffer| < |st.buffer|
  {
    var i := Index(st.buffer, OPEN);
    if i >= 0 then
      var (ok, source) := AllowTag(st.source);
      Iteration(
        State(st.buffer[i + 10..], true, !ok, source, false, st.eventOpen),
        SendIf(i > 0, st.buffer[..i], Visible),
        true)
    else if force || |st.buffer| > 50 then
      var n := if force then |st.buffer| else |st.buffer| - 15;
      Iteration(st.(buffer := st.buffer[n..]), SendIf(n > 0, st.buffer[..n], Visible), false)
    else
      Iteration(st, [], false)
  }

  function TurnInside(st: State, force: bool): (r: Iteration)
    ensures r.again ==> |r.st.buffer| < |st.buffer|
  {
    var i := Index(st.buffer, CLOSE);
    if i >= 0 then
      Iteration(Left(st, st.buffer[i + 11..]), Segment(st, st.buffer[..i]), true)
    else if force then
      Iteration(Left(st, ""), if st.buffer != "" then Segment(st, st.buffer) else [], false)
    else if |st.buffer| > 20 then
      var n := |st.buffer| - 15;
      Iteration(
        st.(buffer := st.buffer[n..], started := st.started || !st.dropTag),
        SendIf(!st.dropTag, st.buffer[..n], if st.started then Middle else Begin),
        false)
    else
      Iteration(st, [], false)
  }

  /** Out of the thinking block, with `rest` still buffered. */
  function Left(st: State, rest: string): State {
    st.(buffer := rest, inBlock := false, dropTag := false, started := false)
  }

  /** The buffer loop run to its end. */
  function Drain(st: State, force: bool): Result
    decreases |st.buffer|
  {
    var turn := Turn(st, force);
    if turn.again then
      var rest := Drain(turn.st, force);
      Result(rest.st, turn.sent + rest.sent)
    else
      Result(turn.st, turn.sent)
  }

  /** What one call of the splitter does. */
  function Process(st: State, enabled: bool, text: string, isThinking: bool, force: bool): Result {
    if isThinking then ProcessThinking(st, enabled, text) else ProcessVisible(st, text, force)
  }

  function ProcessThinking(st: State, enabled: bool, text: string): Result {
    var (ok, source) := AllowReasoning(st.source);
    if !enabled || !ok then
      Result(st, [])
    else if !st.started then
      Result(st.(source := source, started := true, eventOpen := true), [Send(text, Begin)])
    else
      Result(st.(source := source), [Send(text, Middle)])
  }

  /** Text after reasoning events first ends the segment they opened. */
  function AfterEvents(st: State): State {
    if st.eventOpen then st.(eventOpen := false, started := false) else st
  }

  function ProcessVisible(st: State, text: string, force: bool): Result {
    var r := Drain(AfterEvents(st).(buffer := st.buffer + text), force);
    Result(r.st, SendIf(st.eventOpen, "", End) + r.sent)
  }

  /** What one upstream callback does. */
  function Step(st: State, enabled: bool, cb: Callback): Result {
    match cb
    case OnText(text, isThinking) =>
      if text == "" then Result(st, []) else Process(st, enabled, text, isThinking, false)
    case OnToolUse(tool) =>
      var r := Process(st, enabled, "", false, true);
      Result(r.st, r.sent + [Use(tool)])
  }

  /** A stream of callbacks that is cut off: no final flush. */
  function Steps(st: State, enabled: bool, cbs: seq<Callback>): Result
    decreases |cbs|
  {
    if cbs == [] then
      Result(st, [])
    else
      var first := Step(st, enabled, cbs[0]);
      var rest := Steps(first.st, enabled, cbs[1..]);
      Result(rest.st, first.sent + rest.sent)
  }

  /** A stream of callbacks followed by the final flush. */
  function Run(st: State, enabled: bool, cbs: seq<Callback>): Result
    decreases |cbs|
  {
    if cbs == [] then
      Process(st, enabled, "", false, true)
    else
      var first := Step(st, enabled, cbs[0]);
      var rest := Run(first.st, enabled, cbs[1..]);
      Result(rest.st, first.sent + rest.sent)
  }

  lemma {:induction false} RunIsSteps(st: State, enabled: bool, cbs: seq<Callback>)
    ensures var cut := Steps(st, enabled, cbs);
            var flush := Process(cut.st, enabled, "", false, true);
            Run(st, enabled, cbs) == Result(flush.st, cut.sent + flush.sent)
    decreases |cbs|
  {
    if cbs == [] {
      assert [] + Process(st, enabled, "", false, true).sent == Process(st, enabled, "", false, true).sent;
    } else {
      var first := Step(st, enabled, cbs[0]);
      RunIsSteps(first.st, enabled, cbs[1..]);
      var cut := Steps(first.st, enabled, cbs[1..]);
      Assoc(first.sent, cut.sent, Process(cut.st, enabled, "", false, true).sent);
    }
  }

  /** One more callback at the end of a cut-off stream. */
  lemma {:induction false} StepsSnoc(st: State, enabled: bool, cbs: seq<Callback>, cb: Callback)
    ensures var cut := Steps(st, enabled, cbs);
            var last := Step(cut.st, enabled, cb);
            Steps(st, enabled, cbs + [cb]) == Result(last.st, cut.sent + last.sent)
    decreases |cbs|
  {
    if cbs == [] {
      assert [cb][1..] == [] && [] + [cb] == [cb];
      var last := Step(st, enabled, cb);
      assert last.sent + [] == last.sent && [] + last.sent == last.sent;
    } else {
      assert (cbs + [cb])[0] == cbs[0] && (cbs + [cb])[1..] == cbs[1..] + [cb];
      var first := Step(st, enabled, cbs[0]);
      StepsSnoc(first.st, enabled, cbs[1..], cb);
      var cut := Steps(first.st, enabled, cbs[1..]);
      Assoc(first.sent, cut.sent, Step(cut.st, enabled, cb).sent);
    }
  }

  /** Having sent `sent`, the loop still has to make `goal` true. */
  ghost predicate Heading(st: State, force: bool, sent: seq<Action>, again: bool, goal: Result) {
    if again then Drain(st, force).st == goal.st && sent + Drain(st, force).sent == goal.sent
    else goal == Result(st, sent)
  }

  lemma HeadingTurn(st: State, force: bool, sent: seq<Action>, goal: Result)
    requires Heading(st, force, sent, true, goal)
    ensures var turn := Turn(st, force);
            Heading(turn.st, force, sent + turn.sent, turn.again, goal)
  {
    var turn := Turn(st, force);
    if turn.again {
      assert sent + (turn.sent + Drain(turn.st, force).sent) == (sent + turn.sent) + Drain(turn.st, force).sent;
    }
  }

  /** The splitter as the handlers run it: captured variables updated by one closure. */
  class Splitter {
    const enabled: bool
    var textBuffer: string
    var inThinkingBlock: bool
    var dropTagThinking: bool
    var thinkingSource: Source
    var thinkingStarted: bool
    var eventThinkingOpen: bool

    function Value(): State
      reads this
    {
      State(textBuffer, inThinkingBlock, dropTagThinking, thinkingSource, thinkingStarted, eventThinkingOpen)
    }

    constructor (enabled: bool)
      ensures Value() == INITIAL && this.enabled == enabled
    {
      this.enabled := enabled;
      textBuffer := "";
      inThinkingBlock := false;
      dropTagThinking := false;
      thinkingSource := Unknown;
      thinkingStarted := false;
      eventThinkingOpen := false;
    }

    method AllowReasoningSource() returns (ok: bool)
      modifies this`thinkingSource
      ensures (ok, thinkingSource) == AllowReasoning(old(thinkingSource))
    {
      if thinkingSource == TagBlock {
        return false;
      }
      thinkingSource := ReasoningEvent;
      return true;
    }

    method AllowTagSource() returns (ok: bool)
      modifies this`thinkingSource
      ensures (ok, thinkingSource) == AllowTag(old(thinkingSource))
    {
      if thinkingSource == ReasoningEvent {
        return false;
      }
      if thinkingSource == Unknown {
        thinkingSource := TagBlock;
      }
      return thinkingSource == TagBlock;
    }

    /** One loop iteration while outside a thinking block. */
    method OutsideBlock(forceFlush: bool) returns (sent: seq<Action>, again: bool)
      requires !inThinkingBlock
      modifies this
      ensures Iteration(Value(), sent, again) == Turn(old(Value()), forceFlush)
    {
      sent, again := [], false;
      var thinkingStart := Index(textBuffer, OPEN);
      if thinkingStart != -1 {
        if thinkingStart > 0 {
          sent := [Send(textBuffer[..thinkingStart], Visible)];
        }
        textBuffer := textBuffer[thinkingStart + 10..];
        inThinkingBlock := true;
        var ok := AllowTagSource();
        dropTagThinking := !ok;
        thinkingStarted := false;
        again := true;
      } else if forceFlush || |textBuffer| > 50 {
        var safeLen := |textBuffer|;
        if !forceFlush {
          safeLen := if |textBuffer| - 15 > 0 then |textBuffer| - 15 else 0;
        }
        if safeLen > 0 {
          sent := [Send(textBuffer[..safeLen], Visible)];
          textBuffer := textBuffer[safeLen..];
        }
      }
    }

    /** The whole or the rest of a tagged thinking segment. */
    method SendSegment(content: string) returns (sent: seq<Action>)
      ensures sent == Segment(Value(), content)
    {
      sent := [];
      if !dropTagThinking {
        if !thinkingStarted {
          sent := [Send(content, Begin), Send("", End)];
        } else {
          sent := [Send(content, End)];
        }
      }
    }

    method LeaveBlock()
      modifies this`inThinkingBlock, this`dropTagThinking, this`thinkingStarted
      ensures !inThinkingBlock && !dropTagThinking && !thinkingStarted
    {
      inThinkingBlock := false;
      dropTagThinking := false;
      thinkingStarted := false;
    }

    /** One loop iteration while inside a thinking block. */
    method InsideBlock(forceFlush: bool) returns (sent: seq<Action>, again: bool)
      requires inThinkingBlock
      modifies this
      ensures Iteration(Value(), sent, again) == Turn(old(Value()), forceFlush)
    {
      sent, again := [], false;
      var thinkingEnd := Index(textBuffer, CLOSE);
      if thinkingEnd != -1 {
        sent := SendSegment(textBuffer[..thinkingEnd]);
        textBuffer := textBuffer[thinkingEnd + 11..];
        LeaveBlock();
        again := true;
      } else if forceFlush {
        if textBuffer != "" {
          sent := SendSegment(textBuffer);
          textBuffer := "";
        }
        LeaveBlock();
      } else if |textBuffer| > 20 {
        var safeLen := |textBuffer| - 15;
        if !dropTagThinking {
          if !thinkingStarted {
            sent := [Send(textBuffer[..safeLen], Begin)];
            thinkingStarted := true;
          } else {
            sent := [Send(textBuffer[..safeLen], Middle)];
          }
        }
        textBuffer := textBuffer[safeLen..];
      }
    }

    /** The buffer loop. */
    method DrainBuffer(forceFlush: bool) returns (sent: seq<Action>)
      modifies this
      ensures Result(Value(), sent) == Drain(old(Value()), forceFlush)
    {
      ghost var goal := Drain(Value(), forceFlush);
      sent := [];
      var again := true;
      while again
        invariant Heading(Value(), forceFlush, sent, again, goal)
        decreases again, |textBuffer|
      {
        HeadingTurn(Value(), forceFlush, sent, goal);
        var now;
        if !inThinkingBlock {
          now, again := OutsideBlock(forceFlush);
        } else {
          now, again := InsideBlock(forceFlush);
        }
        sent := sent + now;
      }
    }

    /** The closure itself. `sent` lists its calls of the send function, in order. */
    method ProcessText(text: string, isThinking: bool, forceFlush: bool) returns (sent: seq<Action>)
      modifies this
      ensures Result(Value(), sent) == Process(old(Value()), enabled, text, isThinking, forceFlush)
    {
      sent := [];
      if isThinking && !enabled {
        return;
      }
      if isThinking {
        var ok := AllowReasoningSource();
        if !ok {
          return;
        }
        if !thinkingStarted {
          sent := [Send(text, Begin)];
          thinkingStarted := true;
          eventThinkingOpen := true;
        } else {
          sent := [Send(text, Middle)];
        }
        return;
      }
      if eventThinkingOpen {
        sent := [Send("", End)];
        eventThinkingOpen := false;
        thinkingStarted := false;
      }
      textBuffer := textBuffer + text;
      var drained := DrainBuffer(forceFlush);
      sent := sent + drained;
    }
  }
}
