/** What the formats that show thinking as plain content, between tags of their own, make of a text. */
module ThinkingTags {
  import opened Text
  import opened Wire
  import opened ThinkingSplit
  import opened SplitLaws

  /** What is written around thinking; both empty when the thinking is shown bare. */
  datatype Tags = Tags(open: string, close: string)
  {
    /** What one call of the send function adds to the content. */
    function Around(text: string, phase: Phase): string {
      match phase
      case Begin => open + text
      case End => text + close
      case _ => text
    }
  }

  /** The content of a sequence of actions, with the tool uses in their places. */
  function Content(tags: Tags, actions: seq<Action>): seq<Mark> {
    if actions == [] then [] else ContentOf(tags, actions[0]) + Content(tags, actions[1..])
  }

  function ContentOf(tags: Tags, action: Action): seq<Mark> {
    match action
    case Send(text, phase) => Paint(tags.Around(text, phase), false)
    case Use(tool) => [Tool(tool)]
  }

  /** Where the splitter stands: outside a block, in one of which nothing was sent, or in one that was begun. */
  datatype Mode = Outside | Entered | Begun

  function ModeOf(st: State): Mode {
    if !st.inBlock then Outside else if st.started then Begun else Entered
  }

  /** One pass over a text: its own tags replaced, an unclosed block closed, and an empty unclosed one dropped. */
  function Retag(tags: Tags, mode: Mode, text: string): string
    decreases |text|, if mode == Entered then 1 else 0
  {
    match mode
    case Outside =>
      var i := Index(text, OPEN);
      if i < 0 then text else text[..i] + Retag(tags, Entered, text[i + 10..])
    case Entered =>
      if text == "" then "" else tags.open + Retag(tags, Begun, text)
    case Begun =>
      var i := Index(text, CLOSE);
      if i < 0 then text + tags.close else text[..i] + tags.close + Retag(tags, Outside, text[i + 11..])
  }

  /** The same, section by section, with the tool uses in their places. */
  function RetagStream(tags: Tags, mode: Mode, pending: string, cbs: seq<Callback>): seq<Mark>
    decreases |cbs|
  {
    if cbs == [] then Paint(Retag(tags, mode, pending), false)
    else match cbs[0]
      case OnText(text, isThinking) => RetagStream(tags, mode, if isThinking then pending else pending + text, cbs[1..])
      case OnToolUse(tool) => Paint(Retag(tags, mode, pending), false) + [Tool(tool)] + RetagStream(tags, Outside, "", cbs[1..])
  }

  lemma {:induction false} ContentAppend(tags: Tags, a: seq<Action>, b: seq<Action>)
    ensures Content(tags, a + b) == Content(tags, a) + Content(tags, b)
  {
    if a == [] {
      assert a + b == b;
    } else {
      assert (a + b)[0] == a[0] && (a + b)[1..] == a[1..] + b;
      ContentAppend(tags, a[1..], b);
      Assoc(ContentOf(tags, a[0]), Content(tags, a[1..]), Content(tags, b));
    }
  }

  lemma ContentOfSend(tags: Tags, text: string, phase: Phase)
    ensures Content(tags, [Send(text, phase)]) == Paint(tags.Around(text, phase), false)
    ensures Content(tags, [Send(text, Begin), Send("", End)]) == Paint(tags.open + text + tags.close, false)
    ensures Content(tags, []) == Paint("", false)
  {
    assert [Send(text, Begin), Send("", End)][1..] == [Send("", End)];
    assert [Send("", End)][1..] == [] && [Send(text, phase)][1..] == [];
    assert Paint(tags.Around(text, phase), false) + [] == Paint(tags.Around(text, phase), false);
    assert Content(tags, [Send("", End)]) == Paint("" + tags.close, false) + [];
    assert "" + tags.close == tags.close;
    PaintAppend(tags.open + text, tags.close, false);
  }

  // ---- One loop iteration ----

  /** What one iteration adds to the content. */
  function Adds(tags: Tags, st: State, force: bool): string {
    var text := Taken(st, force);
    if !st.inBlock then text
    else
      var closing := Index(st.buffer, CLOSE) >= 0 || force;
      if text == "" && Index(st.buffer, CLOSE) < 0 then ""
      else (if st.started then "" else tags.open) + text + (if closing then tags.close else "")
  }

  lemma SegmentAdds(tags: Tags, st: State, content: string)
    requires !st.dropTag
    ensures Content(tags, Segment(st, content)) == Paint((if st.started then "" else tags.open) + content + tags.close, false)
  {
    ContentOfSend(tags, content, Begin);
    ContentOfSend(tags, content, End);
    assert "" + content == content;
  }

  lemma InsideAdds(tags: Tags, st: State, force: bool)
    requires Sound(st) && !st.eventOpen && st.source != ReasoningEvent && st.inBlock
    ensures Content(tags, TurnInside(st, force).sent) == Paint(Adds(tags, st, force), false)
  {
    var text := Taken(st, force);
    if Index(st.buffer, CLOSE) >= 0 || force {
      SegmentAdds(tags, st, text);
    } else {
      UnclosedAdds(tags, st);
    }
  }

  /** Within a block of which no more is known. */
  lemma UnclosedAdds(tags: Tags, st: State)
    requires Sound(st) && !st.eventOpen && st.source != ReasoningEvent && st.inBlock && Index(st.buffer, CLOSE) < 0
    ensures Content(tags, TurnInside(st, false).sent) == Paint(Adds(tags, st, false), false)
  {
    var text := Taken(st, false);
    ContentOfSend(tags, text, if st.started then Middle else Begin);
    assert "" + text == text && text + "" == text && tags.open + text + "" == tags.open + text;
  }

  lemma TurnAdds(tags: Tags, st: State, force: bool)
    requires Sound(st) && !st.eventOpen && st.source != ReasoningEvent
    ensures Content(tags, Turn(st, force).sent) == Paint(Adds(tags, st, force), false)
  {
    if st.inBlock {
      InsideAdds(tags, st, force);
    } else {
      ContentOfSend(tags, Taken(st, force), Visible);
      assert st.buffer[..|st.buffer|] == st.buffer;
    }
  }

  lemma RetagFound(tags: Tags, mode: Mode, buffer: string, rest: string)
    requires mode != Entered && Index(buffer, TagOf(mode == Begun)) >= 0
    ensures var tag := TagOf(mode == Begun);
            var i := Index(buffer, tag);
            Retag(tags, mode, buffer + rest)
            == if mode == Begun then buffer[..i] + tags.close + Retag(tags, Outside, buffer[i + |tag|..] + rest)
               else buffer[..i] + Retag(tags, Entered, buffer[i + |tag|..] + rest)
  {
    var tag := TagOf(mode == Begun);
    var i := Index(buffer, tag);
    IndexAppend(buffer, rest, tag);
    assert (buffer + rest)[..i] == buffer[..i];
    assert (buffer + rest)[i + |tag|..] == buffer[i + |tag|..] + rest;
  }

  lemma RetagBehind(tags: Tags, mode: Mode, head: string, tail: string)
    requires mode != Entered && NoneBefore(head + tail, TagOf(mode == Begun), |head|)
    ensures Retag(tags, mode, head + tail) == head + Retag(tags, mode, tail)
  {
    var tag := TagOf(mode == Begun);
    IndexBehind(head, tail, tag);
    var k := Index(tail, tag);
    if k < 0 {
      Assoc(head, tail, tags.close);
    } else {
      RetagFoundBehind(tags, mode, head, tail, k);
    }
  }

  lemma RetagFoundBehind(tags: Tags, mode: Mode, head: string, tail: string, k: nat)
    requires mode != Entered && Index(tail, TagOf(mode == Begun)) == k
    requires Index(head + tail, TagOf(mode == Begun)) == |head| + k
    ensures Retag(tags, mode, head + tail) == head + Retag(tags, mode, tail)
  {
    var whole, n := head + tail, |TagOf(mode == Begun)|;
    var front, rest := tail[..k], tail[k + n..];
    BehindHead(head, tail, k, n);
    if mode == Begun {
      var behind := Retag(tags, Outside, rest);
      BegunAt(tags, whole, head + front, rest, |head| + k);
      BegunAt(tags, tail, front, rest, k);
      ThreeBehind(head, front, tags.close, behind);
    } else {
      var behind := Retag(tags, Entered, rest);
      OutsideAt(tags, whole, head + front, rest, |head| + k);
      OutsideAt(tags, tail, front, rest, k);
      Assoc(head, front, behind);
    }
  }

  lemma BegunAt(tags: Tags, text: string, front: string, rest: string, k: nat)
    requires Index(text, CLOSE) == k && front == text[..k] && rest == text[k + 11..]
    ensures Retag(tags, Begun, text) == front + tags.close + Retag(tags, Outside, rest)
  {
  }

  lemma OutsideAt(tags: Tags, text: string, front: string, rest: string, k: nat)
    requires Index(text, OPEN) == k && front == text[..k] && rest == text[k + 10..]
    ensures Retag(tags, Outside, text) == front + Retag(tags, Entered, rest)
  {
  }

  lemma BehindHead(head: string, tail: string, k: nat, n: nat)
    requires k + n <= |tail|
    ensures (head + tail)[..|head| + k] == head + tail[..k]
    ensures (head + tail)[|head| + k + n..] == tail[k + n..]
  {
  }

  lemma ThreeBehind(head: string, a: string, b: string, c: string)
    ensures (head + a) + b + c == head + (a + b + c)
  {
  }

  lemma RetagHold(tags: Tags, mode: Mode, buffer: string, rest: string, n: nat)
    requires mode != Entered && Index(buffer, TagOf(mode == Begun)) < 0
    requires n == 0 || n + 15 <= |buffer|
    ensures Retag(tags, mode, buffer + rest) == buffer[..n] + Retag(tags, mode, buffer[n..] + rest)
  {
    if n > 0 {
      NoneBeforeSeam(buffer, rest, TagOf(mode == Begun), n);
      assert buffer + rest == buffer[..n] + (buffer[n..] + rest);
      RetagBehind(tags, mode, buffer[..n], buffer[n..] + rest);
    } else {
      assert buffer[..0] == "" && buffer[0..] == buffer;
    }
  }

  lemma OutsideRetags(tags: Tags, st: State, force: bool, rest: string)
    requires Sound(st) && !st.eventOpen && st.source != ReasoningEvent && !st.inBlock && (force ==> rest == "")
    ensures var st' := Turn(st, force).st;
            Retag(tags, Outside, st.buffer + rest) == Adds(tags, st, force) + Retag(tags, ModeOf(st'), st'.buffer + rest)
  {
    if Index(st.buffer, OPEN) >= 0 {
      RetagFound(tags, Outside, st.buffer, rest);
    } else if force {
      OutsideForced(tags, st);
      assert st.buffer + rest == st.buffer && "" + rest == "";
    } else {
      var n := |Taken(st, force)|;
      RetagHold(tags, Outside, st.buffer, rest, n);
    }
  }

  lemma OutsideForced(tags: Tags, st: State)
    requires !st.inBlock && Index(st.buffer, OPEN) < 0
    ensures var st' := Turn(st, true).st;
            Retag(tags, Outside, st.buffer) == Adds(tags, st, true) + Retag(tags, ModeOf(st'), st'.buffer)
  {
  }

  /** Within a block, counting the opening tag as sent. */
  lemma InsideRetags(tags: Tags, st: State, force: bool, rest: string)
    requires Sound(st) && !st.eventOpen && st.source != ReasoningEvent && st.inBlock && (force ==> rest == "")
    ensures var st' := Turn(st, force).st;
            var text := Taken(st, force);
            Retag(tags, Begun, st.buffer + rest)
            == if st'.inBlock then text + Retag(tags, Begun, st'.buffer + rest)
               else text + tags.close + Retag(tags, Outside, st'.buffer + rest)
  {
    if Index(st.buffer, CLOSE) >= 0 {
      RetagFound(tags, Begun, st.buffer, rest);
    } else if force {
      InsideForced(tags, st);
      assert st.buffer + rest == st.buffer && "" + rest == "";
    } else {
      var n := |Taken(st, force)|;
      RetagHold(tags, Begun, st.buffer, rest, n);
    }
  }

  lemma InsideForced(tags: Tags, st: State)
    requires st.inBlock && Index(st.buffer, CLOSE) < 0
    ensures var st' := Turn(st, true).st;
            Retag(tags, Begun, st.buffer)
            == if st'.inBlock then Taken(st, true) + Retag(tags, Begun, st'.buffer)
               else Taken(st, true) + tags.close + Retag(tags, Outside, st'.buffer)
  {
  }

  lemma TurnRetags(tags: Tags, st: State, force: bool, rest: string)
    requires Sound(st) && !st.eventOpen && st.source != ReasoningEvent && (force ==> rest == "")
    ensures var st' := Turn(st, force).st;
            Retag(tags, ModeOf(st), st.buffer + rest) == Adds(tags, st, force) + Retag(tags, ModeOf(st'), st'.buffer + rest)
  {
    if !st.inBlock {
      OutsideRetags(tags, st, force, rest);
    } else {
      InsideRetags(tags, st, force, rest);
      var st' := Turn(st, force).st;
      var text := Taken(st, force);
      var behind := Retag(tags, if st'.inBlock then Begun else Outside, st'.buffer + rest);
      var ending := if st'.inBlock then "" else tags.close;
      assert text + "" == text;
      Assoc(tags.open, text + ending, behind);
      Assoc(tags.open, text, ending);
      assert "" + text == text;
    }
  }

  // ---- The buffer loop ----

  lemma {:induction false} DrainRetags(tags: Tags, st: State, force: bool, rest: string)
    requires Sound(st) && !st.eventOpen && (force ==> rest == "")
    requires Drain(st, force).st.source != ReasoningEvent
    ensures var r := Drain(st, force);
            Paint(Retag(tags, ModeOf(st), st.buffer + rest), false)
            == Content(tags, r.sent) + Paint(Retag(tags, ModeOf(r.st), r.st.buffer + rest), false)
    decreases |st.buffer|
  {
    var turn := Turn(st, force);
    DrainSound(st, force);
    TurnSound(st, force);
    assert st.source != ReasoningEvent;
    TurnAdds(tags, st, force);
    TurnRetags(tags, st, force, rest);
    PaintAppend(Adds(tags, st, force), Retag(tags, ModeOf(turn.st), turn.st.buffer + rest), false);
    if turn.again {
      DrainRetags(tags, turn.st, force, rest);
      var more := Drain(turn.st, force);
      ContentAppend(tags, turn.sent, more.sent);
      Assoc(Content(tags, turn.sent), Content(tags, more.sent), Paint(Retag(tags, ModeOf(more.st), more.st.buffer + rest), false));
    }
  }

  lemma NothingInFront(sent: seq<Action>)
    ensures [] + sent == sent
  {
  }

  lemma VisibleRetags(tags: Tags, st: State, text: string, force: bool, rest: string)
    requires Sound(st) && (force ==> rest == "")
    requires ProcessVisible(st, text, force).st.source != ReasoningEvent
    ensures var r := ProcessVisible(st, text, force);
            Paint(Retag(tags, ModeOf(st), st.buffer + text + rest), false)
            == Content(tags, r.sent) + Paint(Retag(tags, ModeOf(r.st), r.st.buffer + rest), false)
  {
    var longer := AfterEvents(st).(buffer := st.buffer + text);
    DrainSound(longer, force);
    assert !st.eventOpen;
    DrainRetags(tags, longer, force, rest);
    NothingInFront(Drain(longer, force).sent);
  }

  // ---- Whole streams ----

  /** What the reference makes of the next tool use and of everything behind it. */
  function RetagFollowing(tags: Tags, cbs: seq<Callback>): seq<Mark>
    decreases |cbs|
  {
    if cbs == [] then []
    else if cbs[0].OnToolUse? then [Tool(cbs[0].tool)] + RetagStream(tags, Outside, "", cbs[1..])
    else RetagFollowing(tags, cbs[1..])
  }

  lemma {:induction false} RetagStreamForm(tags: Tags, mode: Mode, pending: string, cbs: seq<Callback>)
    ensures RetagStream(tags, mode, pending, cbs) == Paint(Retag(tags, mode, pending + Section(cbs)), false) + RetagFollowing(tags, cbs)
    decreases |cbs|
  {
    if cbs == [] {
      assert pending + "" == pending;
    } else if cbs[0].OnText? {
      RetagStreamForm(tags, mode, if cbs[0].isThinking then pending else pending + cbs[0].text, cbs[1..]);
      SectionMoves(pending, cbs);
    } else {
      assert pending + "" == pending;
      Assoc(Paint(Retag(tags, mode, pending), false), [Tool(cbs[0].tool)], RetagStream(tags, Outside, "", cbs[1..]));
    }
  }

  /** Text moves from the front of the section to the end of what is pending. */
  lemma SectionMoves(pending: string, cbs: seq<Callback>)
    requires cbs != [] && cbs[0].OnText?
    ensures (if cbs[0].isThinking then pending else pending + cbs[0].text) + Section(cbs[1..]) == pending + Section(cbs)
  {
    Assoc(pending, cbs[0].text, Section(cbs[1..]));
    assert "" + Section(cbs[1..]) == Section(cbs[1..]);
  }

  lemma TextRetags(tags: Tags, st: State, text: string, cbs: seq<Callback>)
    requires Sound(st)
    requires ProcessVisible(st, text, false).st.source != ReasoningEvent
    ensures var first := ProcessVisible(st, text, false);
            RetagStream(tags, ModeOf(st), st.buffer + text, cbs)
            == Content(tags, first.sent) + RetagStream(tags, ModeOf(first.st), first.st.buffer, cbs)
  {
    var first := ProcessVisible(st, text, false);
    var rest := Section(cbs);
    VisibleRetags(tags, st, text, false, rest);
    RetagStreamForm(tags, ModeOf(st), st.buffer + text, cbs);
    RetagStreamForm(tags, ModeOf(first.st), first.st.buffer, cbs);
    Assoc(Content(tags, first.sent), Paint(Retag(tags, ModeOf(first.st), first.st.buffer + rest), false), RetagFollowing(tags, cbs));
  }

  lemma FlushRetags(tags: Tags, st: State)
    requires Sound(st)
    requires ProcessVisible(st, "", true).st.source != ReasoningEvent
    ensures Content(tags, ProcessVisible(st, "", true).sent) == Paint(Retag(tags, ModeOf(st), st.buffer), false)
  {
    var flush := ProcessVisible(st, "", true);
    ProcessSound(st, true, "", false, true);
    VisibleRetags(tags, st, "", true, "");
    assert st.buffer + "" + "" == st.buffer && flush.st.buffer + "" == "";
    assert Content(tags, flush.sent) + [] == Content(tags, flush.sent);
  }

  lemma ContentOfUse(tags: Tags, sent: seq<Action>, tool: ToolUse)
    ensures Content(tags, sent + [Use(tool)]) == Content(tags, sent) + [Tool(tool)]
  {
    ContentAppend(tags, sent, [Use(tool)]);
    assert [Use(tool)][1..] == [];
  }

  lemma StepRetags(tags: Tags, st: State, enabled: bool, cbs: seq<Callback>)
    requires Sound(st) && cbs != []
    requires Step(st, enabled, cbs[0]).st.source != ReasoningEvent
    ensures var first := Step(st, enabled, cbs[0]);
            RetagStream(tags, ModeOf(st), st.buffer, cbs)
            == Content(tags, first.sent) + RetagStream(tags, ModeOf(first.st), first.st.buffer, cbs[1..])
  {
    match cbs[0]
    case OnText(text, isThinking) =>
      if text == "" || isThinking {
        assert st.buffer + "" == st.buffer;
        assert Step(st, enabled, cbs[0]) == Result(st, []);
      } else {
        TextRetags(tags, st, text, cbs[1..]);
      }
    case OnToolUse(tool) =>
      FlushRetags(tags, st);
      ProcessSound(st, enabled, "", false, true);
      ContentOfUse(tags, ProcessVisible(st, "", true).sent, tool);
  }

  lemma {:induction false} RunRetags(tags: Tags, st: State, enabled: bool, cbs: seq<Callback>)
    requires Sound(st)
    requires Run(st, enabled, cbs).st.source != ReasoningEvent
    ensures Content(tags, Run(st, enabled, cbs).sent) == RetagStream(tags, ModeOf(st), st.buffer, cbs)
    decreases |cbs|
  {
    if cbs == [] {
      FlushRetags(tags, st);
    } else {
      var first := Step(st, enabled, cbs[0]);
      StepSound(st, enabled, cbs[0]);
      RunSound(first.st, enabled, cbs[1..]);
      RunRetags(tags, first.st, enabled, cbs[1..]);
      ContentAppend(tags, first.sent, Run(first.st, enabled, cbs[1..]).sent);
      StepRetags(tags, st, enabled, cbs);
    }
  }

  /**
   However the text is cut into chunks, the content is the text of each section with its tags replaced, with
   the tool uses in their places.
   */
  lemma ContentIsRetagged(tags: Tags, enabled: bool, cbs: seq<Callback>)
    requires NoEvents(enabled, cbs)
    ensures Content(tags, Run(INITIAL, enabled, cbs).sent) == RetagStream(tags, Outside, "", cbs)
  {
    NoEventsClaimNothing(enabled, "", cbs);
    RunIsClaimed(enabled, cbs);
    RunRetags(tags, INITIAL, enabled, cbs);
  }

  // ---- Tags kept as they are ----

  /** Where the one-pass split ends: outside a block, or in one with this text in it. */
  datatype Ending = Closed | Open(text: string)

  function EndingOf(inBlock: bool, text: string): Ending
    decreases |text|
  {
    var i := Index(text, TagOf(inBlock));
    if i < 0 then (if inBlock then Open(text) else Closed)
    else EndingOf(!inBlock, text[i + |TagOf(inBlock)|..])
  }

  const KEPT := Tags(OPEN, CLOSE)

  /** The text itself, but an unclosed block is closed, or loses its opening tag if there is nothing in it. */
  function Mended(text: string, ending: Ending): string {
    match ending
    case Closed => text
    case Open(rest) => if rest == "" then text[..if |text| < 10 then 0 else |text| - 10] else text + CLOSE
  }

  lemma MendedBehind(head: string, tail: string, ending: Ending)
    requires ending == Open("") ==> |tail| >= 10
    ensures Mended(head + tail, ending) == head + Mended(tail, ending)
  {
    var text := head + tail;
    if ending == Open("") {
      assert text[..|text| - 10] == head + tail[..|tail| - 10];
    } else if ending.Open? {
      Assoc(head, tail, CLOSE);
    }
  }

  lemma {:induction false} EmptyEndingIsLong(text: string)
    requires EndingOf(false, text) == Open("")
    ensures |text| >= 10
  {
  }

  lemma {:induction false} BlockIsMended(text: string)
    requires text != ""
    ensures Retag(KEPT, Begun, text) == Mended(text, EndingOf(true, text))
    decreases |text|
  {
    var i := Index(text, CLOSE);
    if i >= 0 {
      var rest := text[i + 11..];
      TextIsMended(rest);
      assert text == (text[..i] + CLOSE) + rest;
      if EndingOf(false, rest) == Open("") {
        EmptyEndingIsLong(rest);
      }
      MendedBehind(text[..i] + CLOSE, rest, EndingOf(false, rest));
    }
  }

  /** When the tags shown are the ones received, the text passes through as it came, unclosed blocks apart. */
  lemma {:induction false} TextIsMended(text: string)
    ensures Retag(KEPT, Outside, text) == Mended(text, EndingOf(false, text))
    decreases |text|
  {
    var i := Index(text, OPEN);
    if i >= 0 {
      var rest := text[i + 10..];
      assert text == text[..i] + OPEN + rest;
      if rest == "" {
        assert text[..i] + "" == text[..i];
      } else {
        BlockIsMended(rest);
        assert text == (text[..i] + OPEN) + rest;
        if EndingOf(true, rest) == Open("") {
          BlockEndingIsLong(rest);
        }
        MendedBehind(text[..i] + OPEN, rest, EndingOf(true, rest));
        Assoc(text[..i], OPEN, Mended(rest, EndingOf(true, rest)));
      }
    }
  }

  lemma BlockEndingIsLong(text: string)
    requires text != "" && EndingOf(true, text) == Open("")
    ensures |text| >= 10
  {
  }
}
