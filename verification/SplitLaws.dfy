/**
 What the incremental splitter promises over whole streams: it refines a one-pass split of the text,
 thinking comes from a single source, and thinking segments are well bracketed.
 */
module SplitLaws {
  import opened Text
  import opened Wire
  import opened ThinkingSplit

  /** One delivered character with its label, or a tool use in its place. */
  datatype Mark = Char(c: char, thinking: bool) | Tool(tool: ToolUse)

  function Paint(text: string, thinking: bool): seq<Mark> {
    if text == "" then [] else [Char(text[0], thinking)] + Paint(text[1..], thinking)
  }

  lemma {:induction false} PaintAppend(a: string, b: string, thinking: bool)
    ensures Paint(a + b, thinking) == Paint(a, thinking) + Paint(b, thinking)
  {
    if a == "" {
      assert a + b == b;
    } else {
      assert (a + b)[1..] == a[1..] + b;
      PaintAppend(a[1..], b, thinking);
    }
  }

  /** Everything a sequence of actions delivers, character by character. */
  function Marks(actions: seq<Action>): seq<Mark> {
    if actions == [] then [] else MarksOf(actions[0]) + Marks(actions[1..])
  }

  function MarksOf(action: Action): seq<Mark> {
    match action
    case Send(text, phase) => Paint(text, phase != Visible)
    case Use(tool) => [Tool(tool)]
  }

  lemma {:induction false} MarksAppend(a: seq<Action>, b: seq<Action>)
    ensures Marks(a + b) == Marks(a) + Marks(b)
  {
    if a == [] {
      assert a + b == b;
    } else {
      assert (a + b)[1..] == a[1..] + b && (a + b)[0] == a[0];
      MarksAppend(a[1..], b);
      Assoc(MarksOf(a[0]), Marks(a[1..]), Marks(b));
    }
  }

  // ---- The reference: one pass over the whole text ----

  /** The text cut at the first opening tag, then at the next closing tag, and so on; an unclosed tail is thinking. */
  function Split(inBlock: bool, text: string): seq<Mark>
    decreases |text|
  {
    var i := Index(text, TagOf(inBlock));
    if i < 0 then Paint(text, inBlock)
    else Paint(text[..i], inBlock) + Split(!inBlock, text[i + |TagOf(inBlock)|..])
  }

  /** The tag that ends the current stretch of text. */
  function TagOf(inBlock: bool): (tag: string)
    ensures 10 <= |tag| <= 11
  {
    if inBlock then CLOSE else OPEN
  }

  /** The text between two tool uses is one section, split in one pass; reasoning events have no part in it. */
  function SplitStream(inBlock: bool, pending: string, cbs: seq<Callback>): seq<Mark>
    decreases |cbs|
  {
    if cbs == [] then Split(inBlock, pending)
    else match cbs[0]
      case OnText(text, isThinking) =>
        SplitStream(inBlock, if isThinking then pending else pending + text, cbs[1..])
      case OnToolUse(tool) =>
        Split(inBlock, pending) + [Tool(tool)] + SplitStream(false, "", cbs[1..])
  }

  /** What reasoning events deliver, with the tool uses in their places. */
  function Events(enabled: bool, cbs: seq<Callback>): seq<Mark>
    decreases |cbs|
  {
    if cbs == [] then [] else EventsOf(enabled, cbs[0]) + Events(enabled, cbs[1..])
  }

  function EventsOf(enabled: bool, cb: Callback): seq<Mark> {
    match cb
    case OnText(text, isThinking) => if isThinking && enabled then Paint(text, true) else []
    case OnToolUse(tool) => [Tool(tool)]
  }

  /** The marks that are not characters with the given label. */
  function Without(thinking: bool, marks: seq<Mark>): seq<Mark> {
    if marks == [] then [] else Kept(thinking, marks[0]) + Without(thinking, marks[1..])
  }

  function Kept(thinking: bool, mark: Mark): seq<Mark> {
    if mark.Char? && mark.thinking == thinking then [] else [mark]
  }

  function VisibleOf(marks: seq<Mark>): seq<Mark> {
    Without(true, marks)
  }

  function ThinkingOf(marks: seq<Mark>): seq<Mark> {
    Without(false, marks)
  }

  lemma {:induction false} WithoutAppend(thinking: bool, a: seq<Mark>, b: seq<Mark>)
    ensures Without(thinking, a + b) == Without(thinking, a) + Without(thinking, b)
  {
    if a == [] {
      assert a + b == b;
    } else {
      assert (a + b)[1..] == a[1..] + b && (a + b)[0] == a[0];
      WithoutAppend(thinking, a[1..], b);
      Assoc(Kept(thinking, a[0]), Without(thinking, a[1..]), Without(thinking, b));
    }
  }

  lemma ProjectAppend(a: seq<Action>, b: seq<Action>)
    ensures VisibleOf(Marks(a + b)) == VisibleOf(Marks(a)) + VisibleOf(Marks(b))
    ensures ThinkingOf(Marks(a + b)) == ThinkingOf(Marks(a)) + ThinkingOf(Marks(b))
  {
    MarksAppend(a, b);
    WithoutAppend(true, Marks(a), Marks(b));
    WithoutAppend(false, Marks(a), Marks(b));
  }

  lemma {:induction false} WithoutPaint(thinking: bool, text: string, mark: bool)
    ensures Without(thinking, Paint(text, mark)) == if thinking == mark then [] else Paint(text, mark)
  {
    if text != "" {
      assert Paint(text, mark)[1..] == Paint(text[1..], mark);
      WithoutPaint(thinking, text[1..], mark);
    }
  }

  // ---- The invariant ----

  /** The tie between the captured variables that every call keeps. */
  ghost predicate Sound(st: State) {
    && (st.eventOpen ==> st.started && st.source == ReasoningEvent)
    && (st.inBlock ==> st.source != Unknown && (st.dropTag <==> st.source == ReasoningEvent))
    && (!st.inBlock ==> !st.dropTag && (st.started ==> st.eventOpen))
    && (st.started && !st.eventOpen ==> st.inBlock && !st.dropTag && |st.buffer| >= 15)
  }

  /** A prefix that no tag starts in is delivered, and the split goes on behind it. */
  lemma SplitBehind(inBlock: bool, head: string, tail: string)
    requires NoneBefore(head + tail, TagOf(inBlock), |head|)
    ensures Split(inBlock, head + tail) == Paint(head, inBlock) + Split(inBlock, tail)
  {
    IndexBehind(head, tail, TagOf(inBlock));
    var k := Index(tail, TagOf(inBlock));
    if k < 0 {
      PaintAppend(head, tail, inBlock);
    } else {
      var rest := tail[k + |TagOf(inBlock)|..];
      assert (head + tail)[..|head| + k] == head + tail[..k];
      assert (head + tail)[|head| + k + |TagOf(inBlock)|..] == rest;
      PaintAppend(head, tail[..k], inBlock);
      Assoc(Paint(head, inBlock), Paint(tail[..k], inBlock), Split(!inBlock, rest));
    }
  }

  /** A held-back buffer without a tag may lose all but its last 15 characters. */
  lemma SplitHold(inBlock: bool, buffer: string, rest: string, n: nat)
    requires Index(buffer, TagOf(inBlock)) < 0
    requires n == 0 || n + 15 <= |buffer|
    ensures Split(inBlock, buffer + rest) == Paint(buffer[..n], inBlock) + Split(inBlock, buffer[n..] + rest)
  {
    if n > 0 {
      NoneBeforeSeam(buffer, rest, TagOf(inBlock), n);
      assert buffer + rest == buffer[..n] + (buffer[n..] + rest);
      SplitBehind(inBlock, buffer[..n], buffer[n..] + rest);
    }
  }

  /** A tag found in the buffer is the one the one-pass split finds. */
  lemma SplitFound(inBlock: bool, buffer: string, rest: string)
    requires Index(buffer, TagOf(inBlock)) >= 0
    ensures var tag := TagOf(inBlock);
            var i := Index(buffer, tag);
            Split(inBlock, buffer + rest) == Paint(buffer[..i], inBlock) + Split(!inBlock, buffer[i + |tag|..] + rest)
  {
    var tag := TagOf(inBlock);
    var i := Index(buffer, tag);
    IndexAppend(buffer, rest, tag);
    assert (buffer + rest)[..i] == buffer[..i];
    assert (buffer + rest)[i + |tag|..] == buffer[i + |tag|..] + rest;
  }

  lemma MarksSend(text: string, phase: Phase)
    ensures Marks([Send(text, phase)]) == Paint(text, phase != Visible)
    ensures Marks([Send(text, Begin), Send("", End)]) == Paint(text, true)
    ensures Marks([]) == Paint("", false)
  {
    assert [Send(text, Begin), Send("", End)][1..] == [Send("", End)];
    assert Marks([Send("", End)]) == MarksOf(Send("", End)) + Marks([]);
    assert [Send(text, phase)][1..] == [];
  }

  // ---- One loop iteration ----

  /** The text one iteration takes from the front of the buffer, tag excluded. */
  function Taken(st: State, force: bool): string {
    var i := Index(st.buffer, TagOf(st.inBlock));
    if i >= 0 then st.buffer[..i]
    else if force then st.buffer
    else if |st.buffer| > (if st.inBlock then 20 else 50) then st.buffer[..|st.buffer| - 15]
    else ""
  }

  lemma TurnSends(st: State, force: bool)
    requires Sound(st) && !st.eventOpen
    ensures Marks(Turn(st, force).sent) == if st.dropTag then [] else Paint(Taken(st, force), st.inBlock)
  {
    var text := Taken(st, force);
    if st.inBlock {
      MarksSend(text, Begin);
      MarksSend(text, Middle);
      MarksSend(text, End);
      assert Turn(st, force) == TurnInside(st, force);
    } else {
      MarksSend(text, Visible);
      assert st.buffer[..|st.buffer|] == st.buffer;
    }
  }

  /** What one iteration leaves behind a tag it found. */
  lemma TurnFinds(st: State, force: bool)
    requires Index(st.buffer, TagOf(st.inBlock)) >= 0
    ensures var st' := Turn(st, force).st;
            var i := Index(st.buffer, TagOf(st.inBlock));
            && st'.inBlock == !st.inBlock && st'.buffer == st.buffer[i + |TagOf(st.inBlock)|..]
            && Taken(st, force) == st.buffer[..i]
  {
  }

  /** What one iteration leaves when it finds none and does not flush: nothing changes but the buffer's length. */
  lemma TurnHolds(st: State)
    requires Index(st.buffer, TagOf(st.inBlock)) < 0
    ensures var st' := Turn(st, false).st;
            var n := |Taken(st, false)|;
            && st'.inBlock == st.inBlock && st'.buffer == st.buffer[n..]
            && Taken(st, false) == st.buffer[..n] && (n == 0 || n + 15 == |st.buffer|)
  {
    assert st.buffer[0..] == st.buffer;
  }

  lemma TurnFlushes(st: State)
    requires Index(st.buffer, TagOf(st.inBlock)) < 0
    ensures Turn(st, true).st.buffer == "" && Taken(st, true) == st.buffer
  {
  }

  lemma FoundSplits(st: State, force: bool, rest: string)
    requires Index(st.buffer, TagOf(st.inBlock)) >= 0
    ensures var st' := Turn(st, force).st;
            Split(st.inBlock, st.buffer + rest) == Paint(Taken(st, force), st.inBlock) + Split(st'.inBlock, st'.buffer + rest)
  {
    TurnFinds(st, force);
    SplitFound(st.inBlock, st.buffer, rest);
  }

  lemma FlushSplits(st: State)
    requires Index(st.buffer, TagOf(st.inBlock)) < 0
    ensures var st' := Turn(st, true).st;
            Split(st.inBlock, st.buffer) == Paint(Taken(st, true), st.inBlock) + Split(st'.inBlock, st'.buffer)
  {
    TurnFlushes(st);
    SplitAll(st.inBlock, st.buffer, Turn(st, true).st.inBlock);
  }

  lemma HoldSplits(st: State, rest: string)
    requires Index(st.buffer, TagOf(st.inBlock)) < 0
    ensures var st' := Turn(st, false).st;
            Split(st.inBlock, st.buffer + rest) == Paint(Taken(st, false), st.inBlock) + Split(st'.inBlock, st'.buffer + rest)
  {
    TurnHolds(st);
    SplitHold(st.inBlock, st.buffer, rest, |Taken(st, false)|);
  }

  lemma TurnSplits(st: State, force: bool, rest: string)
    requires force ==> rest == ""
    ensures var st' := Turn(st, force).st;
            Split(st.inBlock, st.buffer + rest) == Paint(Taken(st, force), st.inBlock) + Split(st'.inBlock, st'.buffer + rest)
  {
    if Index(st.buffer, TagOf(st.inBlock)) >= 0 {
      FoundSplits(st, force, rest);
    } else if force {
      FlushSplits(st);
      assert st.buffer + "" == st.buffer && Turn(st, true).st.buffer + "" == Turn(st, true).st.buffer;
    } else {
      HoldSplits(st, rest);
    }
  }

  /** A buffer without a tag, taken whole. */
  lemma SplitAll(inBlock: bool, buffer: string, after: bool)
    requires Index(buffer, TagOf(inBlock)) < 0
    ensures Split(inBlock, buffer) == Paint(buffer, inBlock) + Split(after, "")
  {
    assert Paint(buffer, inBlock) + [] == Paint(buffer, inBlock);
  }

  lemma TurnSound(st: State, force: bool)
    requires Sound(st) && !st.eventOpen
    ensures Sound(Turn(st, force).st) && !Turn(st, force).st.eventOpen
    ensures st.source != Unknown ==> Turn(st, force).st.source == st.source
    ensures st.dropTag ==> st.source == ReasoningEvent
    ensures st.inBlock && !st.dropTag ==> st.source == TagBlock
    ensures !Turn(st, force).again && force ==> Turn(st, force).st.buffer == "" && !Turn(st, force).st.inBlock
  {
  }

  // ---- The buffer loop ----

  /** The loop keeps the invariant, keeps a claimed source, and a forced one empties the buffer. */
  lemma {:induction false} DrainSound(st: State, force: bool)
    requires Sound(st) && !st.eventOpen
    ensures var end := Drain(st, force).st;
            && Sound(end) && !end.eventOpen
            && (st.source != Unknown ==> end.source == st.source)
            && (force ==> end.buffer == "" && !end.inBlock)
    decreases |st.buffer|
  {
    TurnSound(st, force);
    if Turn(st, force).again {
      DrainSound(Turn(st, force).st, force);
    }
  }

  /** While tags may contribute, what is sent and what is still buffered make up the one-pass split. */
  lemma {:induction false} DrainExact(st: State, force: bool, rest: string)
    requires Sound(st) && !st.eventOpen && (force ==> rest == "")
    requires Drain(st, force).st.source != ReasoningEvent
    ensures var r := Drain(st, force);
            Split(st.inBlock, st.buffer + rest) == Marks(r.sent) + Split(r.st.inBlock, r.st.buffer + rest)
    decreases |st.buffer|
  {
    var turn := Turn(st, force);
    TurnSound(st, force);
    TurnSends(st, force);
    TurnSplits(st, force, rest);
    DrainSound(st, force);
    if turn.again {
      DrainSound(turn.st, force);
      DrainExact(turn.st, force, rest);
      var more := Drain(turn.st, force);
      MarksAppend(turn.sent, more.sent);
      Assoc(Marks(turn.sent), Marks(more.sent), Split(more.st.inBlock, more.st.buffer + rest));
    }
  }

  /** While tags may not contribute, the visible half of that still holds, and no thinking is sent. */
  lemma {:induction false} DrainVisible(st: State, force: bool, rest: string)
    requires Sound(st) && !st.eventOpen && (force ==> rest == "")
    requires Drain(st, force).st.source != TagBlock
    ensures var r := Drain(st, force);
            && VisibleOf(Split(st.inBlock, st.buffer + rest))
               == VisibleOf(Marks(r.sent)) + VisibleOf(Split(r.st.inBlock, r.st.buffer + rest))
            && ThinkingOf(Marks(r.sent)) == []
    decreases |st.buffer|
  {
    var turn := Turn(st, force);
    TurnSound(st, force);
    TurnSends(st, force);
    TurnSplits(st, force, rest);
    DrainSound(st, force);
    WithoutPaint(true, Taken(st, force), st.inBlock);
    WithoutPaint(false, Taken(st, force), st.inBlock);
    WithoutAppend(true, Paint(Taken(st, force), st.inBlock), Split(turn.st.inBlock, turn.st.buffer + rest));
    assert VisibleOf(Marks(turn.sent)) == VisibleOf(Paint(Taken(st, force), st.inBlock));
    assert ThinkingOf(Marks(turn.sent)) == [];
    if turn.again {
      DrainSound(turn.st, force);
      DrainVisible(turn.st, force, rest);
      var more := Drain(turn.st, force);
      ProjectAppend(turn.sent, more.sent);
      Assoc(VisibleOf(Marks(turn.sent)), VisibleOf(Marks(more.sent)), VisibleOf(Split(more.st.inBlock, more.st.buffer + rest)));
    }
  }

  // ---- Whole streams ----

  /** Each callback keeps the invariant and a claimed source; a forced flush empties the buffer. */
  lemma ProcessSound(st: State, enabled: bool, text: string, isThinking: bool, force: bool)
    requires Sound(st)
    ensures var end := Process(st, enabled, text, isThinking, force).st;
            && Sound(end)
            && (st.source != Unknown ==> end.source == st.source)
            && (!isThinking ==> !end.eventOpen)
            && (!isThinking && force ==> end.buffer == "" && !end.inBlock)
  {
    if !isThinking {
      DrainSound(AfterEvents(st).(buffer := st.buffer + text), force);
    }
  }

  lemma StepSound(st: State, enabled: bool, cb: Callback)
    requires Sound(st)
    ensures var end := Step(st, enabled, cb).st;
            && Sound(end)
            && (st.source != Unknown ==> end.source == st.source)
            && (cb.OnToolUse? ==> end.buffer == "" && !end.inBlock)
  {
    match cb
    case OnText(text, isThinking) => ProcessSound(st, enabled, text, isThinking, false);
    case OnToolUse(_) => ProcessSound(st, enabled, "", false, true);
  }

  /** After the final flush nothing is buffered and no segment is open; a claimed source stays claimed. */
  lemma {:induction false} RunSound(st: State, enabled: bool, cbs: seq<Callback>)
    requires Sound(st)
    ensures var end := Run(st, enabled, cbs).st;
            && (st.source != Unknown ==> end.source == st.source)
            && end == INITIAL.(source := end.source)
    decreases |cbs|
  {
    if cbs == [] {
      ProcessSound(st, enabled, "", false, true);
    } else {
      StepSound(st, enabled, cbs[0]);
      RunSound(Step(st, enabled, cbs[0]).st, enabled, cbs[1..]);
    }
  }

  /** One call with visible text, or a flush, when tags are not excluded. */
  lemma VisibleExact(st: State, text: string, force: bool, rest: string)
    requires Sound(st) && (force ==> rest == "")
    requires ProcessVisible(st, text, force).st.source != ReasoningEvent
    ensures var r := ProcessVisible(st, text, force);
            Split(st.inBlock, st.buffer + text + rest) == Marks(r.sent) + Split(r.st.inBlock, r.st.buffer + rest)
  {
    DrainSound(AfterEvents(st).(buffer := st.buffer + text), force);
    assert !st.eventOpen;
    DrainExact(AfterEvents(st).(buffer := st.buffer + text), force, rest);
    var sent := Drain(AfterEvents(st).(buffer := st.buffer + text), force).sent;
    assert [] + sent == sent;
  }

  /** One call with visible text, or a flush, when reasoning events are not excluded. */
  lemma VisibleOnly(st: State, text: string, force: bool, rest: string)
    requires Sound(st) && (force ==> rest == "")
    requires ProcessVisible(st, text, force).st.source != TagBlock
    ensures var r := ProcessVisible(st, text, force);
            && VisibleOf(Split(st.inBlock, st.buffer + text + rest))
               == VisibleOf(Marks(r.sent)) + VisibleOf(Split(r.st.inBlock, r.st.buffer + rest))
            && ThinkingOf(Marks(r.sent)) == []
  {
    DrainVisible(AfterEvents(st).(buffer := st.buffer + text), force, rest);
    var sent := Drain(AfterEvents(st).(buffer := st.buffer + text), force).sent;
    assert [] + sent == sent;
    MarksSend("", End);
    ProjectAppend([Send("", End)], sent);
    assert [] + VisibleOf(Marks(sent)) == VisibleOf(Marks(sent));
  }

  /** The visible text up to the next tool use. */
  function Section(cbs: seq<Callback>): string
    decreases |cbs|
  {
    if cbs == [] || cbs[0].OnToolUse? then ""
    else (if cbs[0].isThinking then "" else cbs[0].text) + Section(cbs[1..])
  }

  /** What the one-pass split makes of the next tool use and of everything behind it. */
  function Following(cbs: seq<Callback>): seq<Mark>
    decreases |cbs|
  {
    if cbs == [] then []
    else if cbs[0].OnToolUse? then [Tool(cbs[0].tool)] + SplitStream(false, "", cbs[1..])
    else Following(cbs[1..])
  }

  lemma {:induction false} SplitStreamForm(inBlock: bool, pending: string, cbs: seq<Callback>)
    ensures SplitStream(inBlock, pending, cbs) == Split(inBlock, pending + Section(cbs)) + Following(cbs)
    decreases |cbs|
  {
    if cbs == [] {
      assert pending + "" == pending;
    } else {
      match cbs[0]
      case OnText(text, isThinking) =>
        SplitStreamForm(inBlock, if isThinking then pending else pending + text, cbs[1..]);
        Assoc(pending, text, Section(cbs[1..]));
        assert "" + Section(cbs[1..]) == Section(cbs[1..]);
      case OnToolUse(tool) =>
        assert pending + "" == pending;
        Assoc(Split(inBlock, pending), [Tool(tool)], SplitStream(false, "", cbs[1..]));
    }
  }

  /**
   Refinement, order included: unless reasoning events claimed the attempt, what a stream delivers is
   the one-pass split of its text, section by section, with the tool uses in their places.
   */
  lemma {:induction false} RunExact(st: State, enabled: bool, cbs: seq<Callback>)
    requires Sound(st)
    requires Run(st, enabled, cbs).st.source != ReasoningEvent
    ensures Marks(Run(st, enabled, cbs).sent) == SplitStream(st.inBlock, st.buffer, cbs)
    decreases |cbs|
  {
    if cbs == [] {
      VisibleExact(st, "", true, "");
      ProcessSound(st, enabled, "", false, true);
      assert st.buffer + "" + "" == st.buffer;
      assert Marks(Run(st, enabled, cbs).sent) + [] == Marks(Run(st, enabled, cbs).sent);
    } else {
      var first := Step(st, enabled, cbs[0]);
      StepSound(st, enabled, cbs[0]);
      RunSound(first.st, enabled, cbs[1..]);
      RunExact(first.st, enabled, cbs[1..]);
      MarksAppend(first.sent, Run(first.st, enabled, cbs[1..]).sent);
      RunExactStep(st, enabled, cbs);
    }
  }

  /** One callback of that refinement: visible text. */
  lemma ExactText(st: State, enabled: bool, text: string, cbs: seq<Callback>)
    requires Sound(st) && text != ""
    requires ProcessVisible(st, text, false).st.source != ReasoningEvent
    ensures var first := ProcessVisible(st, text, false);
            SplitStream(st.inBlock, st.buffer + text, cbs)
            == Marks(first.sent) + SplitStream(first.st.inBlock, first.st.buffer, cbs)
  {
    var first := ProcessVisible(st, text, false);
    var rest := Section(cbs);
    VisibleExact(st, text, false, rest);
    SplitStreamForm(st.inBlock, st.buffer + text, cbs);
    SplitStreamForm(first.st.inBlock, first.st.buffer, cbs);
    Assoc(Marks(first.sent), Split(first.st.inBlock, first.st.buffer + rest), Following(cbs));
  }

  /** One callback of that refinement: the flush before a tool use. */
  lemma ExactFlush(st: State)
    requires Sound(st)
    requires ProcessVisible(st, "", true).st.source != ReasoningEvent
    ensures Marks(ProcessVisible(st, "", true).sent) == Split(st.inBlock, st.buffer)
  {
    var flush := ProcessVisible(st, "", true);
    ProcessSound(st, true, "", false, true);
    VisibleExact(st, "", true, "");
    assert st.buffer + "" + "" == st.buffer && flush.st.buffer + "" == "";
    assert Marks(flush.sent) + [] == Marks(flush.sent);
  }

  lemma MarksUse(sent: seq<Action>, tool: ToolUse)
    ensures Marks(sent + [Use(tool)]) == Marks(sent) + [Tool(tool)]
  {
    MarksAppend(sent, [Use(tool)]);
    assert [Use(tool)][1..] == [];
  }

  /** One callback of that refinement. */
  lemma RunExactStep(st: State, enabled: bool, cbs: seq<Callback>)
    requires Sound(st) && cbs != []
    requires Step(st, enabled, cbs[0]).st.source != ReasoningEvent
    ensures var first := Step(st, enabled, cbs[0]);
            SplitStream(st.inBlock, st.buffer, cbs)
            == Marks(first.sent) + SplitStream(first.st.inBlock, first.st.buffer, cbs[1..])
  {
    match cbs[0]
    case OnText(text, isThinking) =>
      if text == "" || isThinking {
        assert st.buffer + "" == st.buffer;
        assert Step(st, enabled, cbs[0]) == Result(st, []);
      } else {
        ExactText(st, enabled, text, cbs[1..]);
      }
    case OnToolUse(tool) =>
      ExactFlush(st);
      ProcessSound(st, enabled, "", false, true);
      MarksUse(ProcessVisible(st, "", true).sent, tool);
  }

  /** No reasoning events get through: the request has thinking off, or the upstream sent none. */
  ghost predicate NoEvents(enabled: bool, cbs: seq<Callback>) {
    enabled ==> forall i :: 0 <= i < |cbs| && cbs[i].OnText? ==> !cbs[i].isThinking || cbs[i].text == ""
  }

  /**
   Chunk independence: however the text is cut into chunks, what is delivered, character by character
   with its label and with the tool uses in their places, is the one-pass split of each section.
   */
  lemma ChunkIndependence(enabled: bool, cbs: seq<Callback>)
    requires NoEvents(enabled, cbs)
    ensures Marks(Run(INITIAL, enabled, cbs).sent) == SplitStream(false, "", cbs)
  {
    NoEventsClaimNothing(enabled, "", cbs);
    RunIsClaimed(enabled, cbs);
    RunExact(INITIAL, enabled, cbs);
  }

  /** A whole text delivered in chunks. */
  function Joined(chunks: seq<string>): string {
    if chunks == [] then "" else chunks[0] + Joined(chunks[1..])
  }

  function AsCallbacks(chunks: seq<string>): (cbs: seq<Callback>)
    ensures NoEvents(true, cbs)
    ensures |cbs| == |chunks| && forall i :: 0 <= i < |chunks| ==> cbs[i] == OnText(chunks[i], false)
  {
    seq(|chunks|, i requires 0 <= i < |chunks| => OnText(chunks[i], false))
  }

  lemma {:induction false} SplitChunks(pending: string, chunks: seq<string>)
    ensures SplitStream(false, pending, AsCallbacks(chunks)) == Split(false, pending + Joined(chunks))
    decreases |chunks|
  {
    if chunks == [] {
      assert pending + "" == pending;
    } else {
      assert AsCallbacks(chunks)[1..] == AsCallbacks(chunks[1..]);
      Assoc(pending, chunks[0], Joined(chunks[1..]));
      SplitChunks(pending + chunks[0], chunks[1..]);
    }
  }

  /** In particular, plain text gives the one-pass split of the whole text, whatever the chunks. */
  lemma WholeText(chunks: seq<string>)
    ensures Marks(Run(INITIAL, true, AsCallbacks(chunks)).sent) == Split(false, Joined(chunks))
  {
    ChunkIndependence(true, AsCallbacks(chunks));
    SplitChunks("", chunks);
    assert "" + Joined(chunks) == Joined(chunks);
  }

  // ---- Reasoning events ----

  /** One callback with visible text, both projections. */
  lemma ProjectedText(st: State, text: string, cbs: seq<Callback>)
    requires Sound(st)
    requires ProcessVisible(st, text, false).st.source != TagBlock
    ensures var first := ProcessVisible(st, text, false);
            && VisibleOf(SplitStream(st.inBlock, st.buffer + text, cbs))
               == VisibleOf(Marks(first.sent)) + VisibleOf(SplitStream(first.st.inBlock, first.st.buffer, cbs))
            && ThinkingOf(Marks(first.sent)) == []
  {
    var first := ProcessVisible(st, text, false);
    var rest := Section(cbs);
    VisibleOnly(st, text, false, rest);
    SplitStreamForm(st.inBlock, st.buffer + text, cbs);
    SplitStreamForm(first.st.inBlock, first.st.buffer, cbs);
    var whole := Split(st.inBlock, st.buffer + text + rest);
    var kept := Split(first.st.inBlock, first.st.buffer + rest);
    WithoutAppend(true, whole, Following(cbs));
    WithoutAppend(true, kept, Following(cbs));
    Assoc(VisibleOf(Marks(first.sent)), VisibleOf(kept), VisibleOf(Following(cbs)));
  }

  /** The flush before a tool use, and the final one, both projections. */
  lemma ProjectedFlush(st: State)
    requires Sound(st)
    requires ProcessVisible(st, "", true).st.source != TagBlock
    ensures VisibleOf(Marks(ProcessVisible(st, "", true).sent)) == VisibleOf(Split(st.inBlock, st.buffer))
    ensures ThinkingOf(Marks(ProcessVisible(st, "", true).sent)) == []
  {
    var flush := ProcessVisible(st, "", true);
    ProcessSound(st, true, "", false, true);
    VisibleOnly(st, "", true, "");
    assert st.buffer + "" + "" == st.buffer && flush.st.buffer + "" == "";
    assert VisibleOf(Marks(flush.sent)) + [] == VisibleOf(Marks(flush.sent));
  }

  lemma ProjectedEvent(st: State, enabled: bool, text: string)
    requires Sound(st) && text != ""
    requires ProcessThinking(st, enabled, text).st.source != TagBlock
    ensures var sent := ProcessThinking(st, enabled, text).sent;
            VisibleOf(Marks(sent)) == [] && ThinkingOf(Marks(sent)) == EventsOf(enabled, OnText(text, true))
  {
    MarksSend(text, Begin);
    MarksSend(text, Middle);
    WithoutPaint(true, text, true);
    WithoutPaint(false, text, true);
  }

  lemma WithoutTool(thinking: bool, marks: seq<Mark>, tool: ToolUse)
    ensures Without(thinking, marks + [Tool(tool)]) == Without(thinking, marks) + [Tool(tool)]
    ensures Without(thinking, [Tool(tool)]) == [Tool(tool)]
  {
    WithoutAppend(thinking, marks, [Tool(tool)]);
    assert [Tool(tool)][1..] == [];
  }

  /** The flush before a tool use and the tool use itself. */
  lemma ProjectedTool(st: State, tool: ToolUse)
    requires Sound(st)
    requires ProcessVisible(st, "", true).st.source != TagBlock
    ensures var marks := Marks(ProcessVisible(st, "", true).sent + [Use(tool)]);
            && VisibleOf(marks) == VisibleOf(Split(st.inBlock, st.buffer) + [Tool(tool)])
            && ThinkingOf(marks) == [Tool(tool)]
  {
    var flush := ProcessVisible(st, "", true);
    ProjectedFlush(st);
    MarksUse(flush.sent, tool);
    WithoutTool(true, Marks(flush.sent), tool);
    WithoutTool(false, Marks(flush.sent), tool);
    WithoutTool(true, Split(st.inBlock, st.buffer), tool);
  }

  lemma ProjectedUse(st: State, enabled: bool, cbs: seq<Callback>)
    requires Sound(st) && cbs != [] && cbs[0].OnToolUse?
    requires Step(st, enabled, cbs[0]).st.source != TagBlock
    ensures var first := Step(st, enabled, cbs[0]);
            && VisibleOf(SplitStream(st.inBlock, st.buffer, cbs))
               == VisibleOf(Marks(first.sent)) + VisibleOf(SplitStream(first.st.inBlock, first.st.buffer, cbs[1..]))
            && ThinkingOf(Marks(first.sent)) == EventsOf(enabled, cbs[0])
  {
    ProcessSound(st, enabled, "", false, true);
    ProjectedTool(st, cbs[0].tool);
    WithoutAppend(true, Split(st.inBlock, st.buffer) + [Tool(cbs[0].tool)], SplitStream(false, "", cbs[1..]));
  }

  lemma ProjectedChunk(st: State, enabled: bool, text: string, isThinking: bool, cbs: seq<Callback>)
    requires Sound(st)
    requires Step(st, enabled, OnText(text, isThinking)).st.source != TagBlock
    ensures var first := Step(st, enabled, OnText(text, isThinking));
            && VisibleOf(SplitStream(st.inBlock, if isThinking then st.buffer else st.buffer + text, cbs))
               == VisibleOf(Marks(first.sent)) + VisibleOf(SplitStream(first.st.inBlock, first.st.buffer, cbs))
            && ThinkingOf(Marks(first.sent)) == EventsOf(enabled, OnText(text, isThinking))
  {
    if text == "" {
      assert st.buffer + "" == st.buffer;
    } else if isThinking {
      ProjectedEvent(st, enabled, text);
    } else {
      ProjectedText(st, text, cbs);
    }
  }

  /** One callback when tags are excluded. */
  lemma RunProjectedStep(st: State, enabled: bool, cbs: seq<Callback>)
    requires Sound(st) && cbs != []
    requires Step(st, enabled, cbs[0]).st.source != TagBlock
    ensures var first := Step(st, enabled, cbs[0]);
            && VisibleOf(SplitStream(st.inBlock, st.buffer, cbs))
               == VisibleOf(Marks(first.sent)) + VisibleOf(SplitStream(first.st.inBlock, first.st.buffer, cbs[1..]))
            && ThinkingOf(Marks(first.sent)) == EventsOf(enabled, cbs[0])
  {
    if cbs[0].OnToolUse? {
      ProjectedUse(st, enabled, cbs);
    } else {
      ProjectedChunk(st, enabled, cbs[0].text, cbs[0].isThinking, cbs[1..]);
    }
  }

  /**
   Unless tags claimed the attempt, the visible characters are still exactly those of the one-pass
   split, and the thinking is exactly what the reasoning events carried.
   */
  lemma {:induction false} RunProjected(st: State, enabled: bool, cbs: seq<Callback>)
    requires Sound(st)
    requires Run(st, enabled, cbs).st.source != TagBlock
    ensures VisibleOf(Marks(Run(st, enabled, cbs).sent)) == VisibleOf(SplitStream(st.inBlock, st.buffer, cbs))
    ensures ThinkingOf(Marks(Run(st, enabled, cbs).sent)) == Events(enabled, cbs)
    decreases |cbs|
  {
    if cbs == [] {
      ProjectedFlush(st);
    } else {
      var first := Step(st, enabled, cbs[0]);
      StepSound(st, enabled, cbs[0]);
      RunSound(first.st, enabled, cbs[1..]);
      RunProjected(first.st, enabled, cbs[1..]);
      RunProjectedStep(st, enabled, cbs);
      ProjectAppend(first.sent, Run(first.st, enabled, cbs[1..]).sent);
    }
  }

  // ---- Which source claims an attempt ----

  /**
   The source that claims the attempt, told by the callbacks alone: tags, as soon as the text of a section holds
   an opening one; reasoning events, at the first that is not empty before that; else neither. `pending` is the
   text of the section so far.
   */
  function Claimed(enabled: bool, pending: string, cbs: seq<Callback>): Source
    decreases |cbs|
  {
    if Contains(pending, OPEN) then TagBlock
    else if cbs == [] then Unknown
    else match cbs[0]
      case OnText(text, isThinking) =>
        if !isThinking then Claimed(enabled, pending + text, cbs[1..])
        else if enabled && text != "" then ReasoningEvent
        else Claimed(enabled, pending, cbs[1..])
      case OnToolUse(_) => Claimed(enabled, "", cbs[1..])
  }

  /** Unclaimed so far: the buffer is the end of the section's text, of at least 15 characters if anything was sent before it. */
  ghost predicate Unclaimed(st: State, head: string, pending: string) {
    && Sound(st) && st.source == Unknown
    && pending == head + st.buffer && (head == "" || |st.buffer| >= 15)
    && !Contains(pending, OPEN)
  }

  /** More text holds a tag in the buffer exactly if it does in the section. */
  lemma TagInBuffer(head: string, buffer: string, text: string)
    requires (head == "" || |buffer| >= 15) && !Contains(head + buffer, OPEN)
    ensures Contains(head + (buffer + text), OPEN) <==> Contains(buffer + text, OPEN)
  {
    if head == "" {
      assert head + (buffer + text) == buffer + text;
    } else {
      Assoc(head, buffer, text);
      NoneBeforeSeam(head + buffer, text, OPEN, |head|);
      IndexBehind(head, buffer + text, OPEN);
    }
  }

  /** Text that completes no tag leaves the attempt unclaimed. */
  lemma TextUnclaimed(st: State, head: string, pending: string, text: string) returns (head': string)
    requires Unclaimed(st, head, pending) && !Contains(pending + text, OPEN)
    ensures Unclaimed(ProcessVisible(st, text, false).st, head', pending + text)
  {
    var buffer := st.buffer + text;
    Assoc(head, st.buffer, text);
    TagInBuffer(head, st.buffer, text);
    ProcessSound(st, true, text, false, false);
    var st1 := AfterEvents(st).(buffer := buffer);
    var n := |Taken(st1, false)|;
    TurnHolds(st1);
    head' := head + buffer[..n];
    assert buffer == buffer[..n] + buffer[n..];
    Assoc(head, buffer[..n], buffer[n..]);
  }

  /** Text that completes one claims it for tags, for good. */
  lemma TextClaims(st: State, head: string, pending: string, text: string)
    requires Unclaimed(st, head, pending) && Contains(pending + text, OPEN)
    ensures ProcessVisible(st, text, false).st.source == TagBlock
  {
    Assoc(head, st.buffer, text);
    TagInBuffer(head, st.buffer, text);
    var st1 := AfterEvents(st).(buffer := st.buffer + text);
    TurnSound(st1, false);
    DrainSound(Turn(st1, false).st, false);
  }

  /** A flush leaves the attempt unclaimed, and nothing buffered. */
  lemma FlushUnclaimed(st: State, head: string, pending: string)
    requires Unclaimed(st, head, pending)
    ensures Unclaimed(ProcessVisible(st, "", true).st, "", "")
  {
    assert st.buffer + "" == st.buffer;
    TagInBuffer(head, st.buffer, "");
    assert head + (st.buffer + "") == pending;
    ProcessSound(st, true, "", false, true);
    TurnFlushes(st);
    assert !Contains("", OPEN);
  }

  /** Who claims the attempt is what the callbacks say. */
  lemma {:induction false} ClaimedIs(st: State, enabled: bool, cbs: seq<Callback>, head: string, pending: string)
    requires Unclaimed(st, head, pending)
    ensures Run(st, enabled, cbs).st.source == Claimed(enabled, pending, cbs)
    decreases |cbs|, 0
  {
    if cbs == [] {
      FlushUnclaimed(st, head, pending);
    } else {
      var first := Step(st, enabled, cbs[0]);
      StepSound(st, enabled, cbs[0]);
      if cbs[0].OnToolUse? {
        FlushUnclaimed(st, head, pending);
        ClaimedIs(first.st, enabled, cbs[1..], "", "");
      } else {
        ClaimedByText(st, enabled, cbs[0].text, cbs[0].isThinking, cbs[1..], head, pending);
      }
    }
  }

  /** One text callback of that. */
  lemma {:induction false} ClaimedByText(st: State, enabled: bool, text: string, isThinking: bool, cbs: seq<Callback>, head: string, pending: string)
    requires Unclaimed(st, head, pending)
    ensures Run(Step(st, enabled, OnText(text, isThinking)).st, enabled, cbs).st.source
         == if !isThinking then Claimed(enabled, pending + text, cbs)
            else if enabled && text != "" then ReasoningEvent
            else Claimed(enabled, pending, cbs)
    decreases |cbs|, 1
  {
    var first := Step(st, enabled, OnText(text, isThinking)).st;
    StepSound(st, enabled, OnText(text, isThinking));
    if text == "" || (isThinking && !enabled) {
      assert pending + "" == pending;
      ClaimedIs(first, enabled, cbs, head, pending);
    } else if isThinking {
      RunSound(first, enabled, cbs);
    } else if Contains(pending + text, OPEN) {
      TextClaims(st, head, pending, text);
      RunSound(first, enabled, cbs);
    } else {
      var head' := TextUnclaimed(st, head, pending, text);
      ClaimedIs(first, enabled, cbs, head', pending + text);
    }
  }

  lemma RunIsClaimed(enabled: bool, cbs: seq<Callback>)
    ensures Run(INITIAL, enabled, cbs).st.source == Claimed(enabled, "", cbs)
  {
    assert "" + "" == "" && !Contains("", OPEN);
    ClaimedIs(INITIAL, enabled, cbs, "", "");
  }

  /**
   Single source, for every interleaving of reasoning events, tagged text and tool uses. The visible
   characters never depend on the events. If the events claim the attempt, the thinking delivered is all of
   theirs and none of the tagged; else it is all of the tagged thinking and none of theirs.
   */
  lemma SingleSource(enabled: bool, cbs: seq<Callback>)
    ensures var marks := Marks(Run(INITIAL, enabled, cbs).sent);
            && VisibleOf(marks) == VisibleOf(SplitStream(false, "", cbs))
            && ThinkingOf(marks) == (if Claimed(enabled, "", cbs) == ReasoningEvent then Events(enabled, cbs) else ThinkingOf(SplitStream(false, "", cbs)))
  {
    RunIsClaimed(enabled, cbs);
    if Claimed(enabled, "", cbs) == ReasoningEvent {
      RunProjected(INITIAL, enabled, cbs);
    } else {
      RunExact(INITIAL, enabled, cbs);
    }
  }

  // ---- Brackets ----

  /** A word over the send states 0, 1 2* 3, with tool uses only between segments, from `open` to `end`. */
  predicate Bracketed(open: bool, actions: seq<Action>, end: bool)
    decreases |actions|
  {
    if actions == [] then open == end
    else match actions[0]
      case Send(_, Visible) => !open && Bracketed(false, actions[1..], end)
      case Send(_, Begin) => !open && Bracketed(true, actions[1..], end)
      case Send(_, Middle) => open && Bracketed(true, actions[1..], end)
      case Send(_, End) => open && Bracketed(false, actions[1..], end)
      case Use(_) => !open && Bracketed(false, actions[1..], end)
  }

  lemma {:induction false} BracketedAppend(open: bool, a: seq<Action>, middle: bool, b: seq<Action>, end: bool)
    requires Bracketed(open, a, middle) && Bracketed(middle, b, end)
    ensures Bracketed(open, a + b, end)
    decreases |a|
  {
    if a == [] {
      assert a + b == b;
    } else {
      assert (a + b)[1..] == a[1..] + b && (a + b)[0] == a[0];
      var next := a[0].Send? && (a[0].phase == Begin || a[0].phase == Middle);
      BracketedAppend(next, a[1..], middle, b, end);
    }
  }

  lemma TurnBracketed(st: State, force: bool)
    requires Sound(st) && !st.eventOpen
    ensures Bracketed(st.started, Turn(st, force).sent, Turn(st, force).st.started)
  {
    var sent := Turn(st, force).sent;
    if |sent| == 2 {
      assert sent[1..][1..] == [];
    } else if |sent| == 1 {
      assert sent[1..] == [];
    }
  }

  lemma {:induction false} DrainBracketed(st: State, force: bool)
    requires Sound(st) && !st.eventOpen
    ensures Bracketed(st.started, Drain(st, force).sent, Drain(st, force).st.started)
    decreases |st.buffer|
  {
    var turn := Turn(st, force);
    TurnSound(st, force);
    TurnBracketed(st, force);
    if turn.again {
      DrainBracketed(turn.st, force);
      var more := Drain(turn.st, force);
      BracketedAppend(st.started, turn.sent, turn.st.started, more.sent, more.st.started);
    }
  }

  lemma ProcessBracketed(st: State, enabled: bool, text: string, isThinking: bool, force: bool)
    requires Sound(st)
    ensures var r := Process(st, enabled, text, isThinking, force);
            Bracketed(st.started, r.sent, r.st.started)
  {
    if isThinking {
      var sent := ProcessThinking(st, enabled, text).sent;
      assert sent != [] ==> sent[1..] == [];
    } else {
      var st1 := AfterEvents(st).(buffer := st.buffer + text);
      DrainBracketed(st1, force);
      var closing := SendIf(st.eventOpen, "", End);
      assert closing != [] ==> closing[1..] == [];
      BracketedAppend(st.started, closing, st1.started, Drain(st1, force).sent, Drain(st1, force).st.started);
    }
  }

  lemma StepBracketed(st: State, enabled: bool, cb: Callback)
    requires Sound(st)
    ensures Bracketed(st.started, Step(st, enabled, cb).sent, Step(st, enabled, cb).st.started)
  {
    match cb
    case OnText(text, isThinking) => ProcessBracketed(st, enabled, text, isThinking, false);
    case OnToolUse(tool) =>
      var flush := Process(st, enabled, "", false, true);
      ProcessSound(st, enabled, "", false, true);
      ProcessBracketed(st, enabled, "", false, true);
      assert [Use(tool)][1..] == [];
      BracketedAppend(st.started, flush.sent, false, [Use(tool)], false);
  }

  /**
   Thinking is well bracketed on every run: each segment is begun once, continued only while open, and
   closed before visible text, a tool use, or the end; after the final flush none is open.
   */
  lemma {:induction false} WellBracketed(st: State, enabled: bool, cbs: seq<Callback>)
    requires Sound(st)
    ensures Bracketed(st.started, Run(st, enabled, cbs).sent, false)
    decreases |cbs|
  {
    if cbs == [] {
      ProcessBracketed(st, enabled, "", false, true);
      ProcessSound(st, enabled, "", false, true);
    } else {
      var first := Step(st, enabled, cbs[0]);
      StepSound(st, enabled, cbs[0]);
      StepBracketed(st, enabled, cbs[0]);
      WellBracketed(first.st, enabled, cbs[1..]);
      BracketedAppend(st.started, first.sent, first.st.started, Run(first.st, enabled, cbs[1..]).sent, false);
    }
  }

  /**
   A well-bracketed sequence of sends that holds every visible character of the text, in order and with the
   tool uses in their places, and all of the thinking of the source that claims the attempt.
   */
  ghost predicate HoldsEverything(cbs: seq<Callback>, actions: seq<Action>) {
    && Bracketed(false, actions, false)
    && VisibleOf(Marks(actions)) == VisibleOf(SplitStream(false, "", cbs))
    && ThinkingOf(Marks(actions)) == (if Claimed(true, "", cbs) == ReasoningEvent then Events(true, cbs) else ThinkingOf(SplitStream(false, "", cbs)))
  }

  lemma RunHoldsEverything(cbs: seq<Callback>)
    ensures HoldsEverything(cbs, Run(INITIAL, true, cbs).sent)
  {
    SingleSource(true, cbs);
    WellBracketed(INITIAL, true, cbs);
  }

  /** Where no reasoning events get through they claim nothing. */
  lemma {:induction false} NoEventsClaimNothing(enabled: bool, pending: string, cbs: seq<Callback>)
    requires NoEvents(enabled, cbs)
    ensures Claimed(enabled, pending, cbs) != ReasoningEvent
    decreases |cbs|
  {
    if !Contains(pending, OPEN) && cbs != [] {
      assert NoEvents(enabled, cbs[1..]);
      match cbs[0]
      case OnText(text, isThinking) => NoEventsClaimNothing(enabled, if isThinking then pending else pending + text, cbs[1..]);
      case OnToolUse(_) => NoEventsClaimNothing(enabled, "", cbs[1..]);
    }
  }
}
