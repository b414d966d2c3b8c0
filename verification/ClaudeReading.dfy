/** What a client that shows every block reads off the Claude events: text, thinking and tool uses. */
module ClaudeReading {
  import opened Basics
  import opened Text
  import opened Wire
  import opened ThinkingSplit
  import opened SplitLaws
  import opened ClaudeEvents
  import opened ClaudeStream
  import opened ClaudeLaws
  import T = ThinkingTags

  /** The tool block being read. */
  datatype Held = Held(id: string, name: string, input: string)

  /** Text deltas are visible, thinking deltas are thinking, and a tool block is a tool use where it ends. */
  function Reading(codec: Codec, held: Option<Held>, events: seq<Event>): seq<Mark>
    decreases |events|
  {
    if events == [] then []
    else match events[0]
      case BlockStart(_, Some(ToolBlock(id, name))) => Reading(codec, Some(Held(id, name, "")), events[1..])
      case BlockStart(_, Some(_)) => Reading(codec, None, events[1..])
      case BlockDelta(_, Some(TextDelta(text))) => Paint(text, false) + Reading(codec, held, events[1..])
      case BlockDelta(_, Some(ThinkingDelta(text))) => Paint(text, true) + Reading(codec, held, events[1..])
      case BlockDelta(_, Some(InputJsonDelta(partial))) =>
        Reading(codec, if held.Some? then Some(held.value.(input := held.value.input + partial)) else None, events[1..])
      case BlockStop(_) =>
        (if held.Some? then [Tool(ToolUse(held.value.id, held.value.name, codec.unmarshal(held.value.input)))] else []) +
        Reading(codec, None, events[1..])
      case _ => Reading(codec, held, events[1..])
  }

  /** These events tell exactly these marks, whatever follows. */
  ghost predicate Tells(codec: Codec, events: seq<Event>, marks: seq<Mark>) {
    forall more :: Reading(codec, None, events + more) == marks + Reading(codec, None, more)
  }

  lemma NothingTells(codec: Codec)
    ensures Tells(codec, [], [])
  {
    forall more: seq<Event>
      ensures Reading(codec, None, [] + more) == [] + Reading(codec, None, more)
    {
      assert [] + more == more;
    }
  }

  lemma ChainTells(codec: Codec, a: seq<Event>, x: seq<Mark>, b: seq<Event>, y: seq<Mark>)
    requires Tells(codec, a, x) && Tells(codec, b, y)
    ensures Tells(codec, a + b, x + y)
  {
    forall more
      ensures Reading(codec, None, (a + b) + more) == (x + y) + Reading(codec, None, more)
    {
      Assoc(a, b, more);
      assert Reading(codec, None, a + (b + more)) == x + Reading(codec, None, b + more);
      assert Reading(codec, None, b + more) == y + Reading(codec, None, more);
      Assoc(x, y, Reading(codec, None, more));
    }
  }

  /** The events that tell something by themselves, or nothing. */
  function Telling(e: Event): seq<Mark> {
    match e
    case BlockDelta(_, Some(TextDelta(text))) => Paint(text, false)
    case BlockDelta(_, Some(ThinkingDelta(text))) => Paint(text, true)
    case _ => []
  }

  lemma OneTells(codec: Codec, e: Event)
    requires !(e.BlockStart? && e.block.Some? && e.block.value.ToolBlock?)
    ensures Tells(codec, [e], Telling(e))
  {
    forall more
      ensures Reading(codec, None, [e] + more) == Telling(e) + Reading(codec, None, more)
    {
      assert ([e] + more)[0] == e && ([e] + more)[1..] == more;
    }
  }

  lemma StartTells(opts: Options, b: Blocks)
    ensures Tells(opts.codec, EnsureStart(opts, b).events, []) && Tells(opts.codec, Close(b).events, [])
  {
    NothingTells(opts.codec);
    OneTells(opts.codec, MessageStart(Some(opts.startTokens)));
    OneTells(opts.codec, BlockStop(b.index));
  }

  lemma OpenTells(opts: Options, b: Blocks, kind: Active)
    ensures Tells(opts.codec, Open(opts, b, kind).events, [])
  {
    NothingTells(opts.codec);
    if b.active != kind {
      var e1 := EnsureStart(opts, b);
      var e2 := Close(e1.b);
      var start := BlockStart(b.next, Some(Announcement(kind)));
      StartTells(opts, b);
      StartTells(opts, e1.b);
      OneTells(opts.codec, start);
      ChainTells(opts.codec, e1.events, [], e2.events, []);
      ChainTells(opts.codec, e1.events + e2.events, [] + [], [start], []);
    }
  }

  lemma SayTells(opts: Options, b: Blocks, kind: Active, text: string)
    ensures Tells(opts.codec, SayIf(opts, b, kind, text).events, Paint(text, kind == ThinkingActive))
  {
    NothingTells(opts.codec);
    if text != "" {
      var e := Open(opts, b, kind);
      var delta := BlockDelta(e.b.index, Some(if kind == ThinkingActive then ThinkingDelta(text) else TextDelta(text)));
      OpenTells(opts, b, kind);
      OneTells(opts.codec, delta);
      var painted := Paint(text, kind == ThinkingActive);
      ChainTells(opts.codec, e.events, [], [delta], painted);
      assert [] + painted == painted;
    }
  }

  lemma ToolTells(opts: Options, b: Blocks, tool: ToolUse)
    requires opts.codec.Inverse()
    ensures Tells(opts.codec, SendTool(opts, b, tool).events, [Tool(tool)])
  {
    var e1 := EnsureStart(opts, b);
    var e2 := Close(e1.b);
    StartTells(opts, b);
    StartTells(opts, e1.b);
    ChainTells(opts.codec, e1.events, [], e2.events, []);
    ToolBlockTells(opts, b.next, tool);
    ChainTells(opts.codec, e1.events + e2.events, [] + [], ToolEvents(opts, b.next, tool), [Tool(tool)]);
    assert [] + [] + [Tool(tool)] == [Tool(tool)];
  }

  lemma ToolBlockTells(opts: Options, index: nat, tool: ToolUse)
    requires opts.codec.Inverse()
    ensures Tells(opts.codec, ToolEvents(opts, index, tool), [Tool(tool)])
  {
    var events := ToolEvents(opts, index, tool);
    var raw := opts.codec.marshal(tool.input);
    assert opts.codec.unmarshal(raw) == tool.input && "" + raw == raw;
    forall more
      ensures Reading(opts.codec, None, events + more) == [Tool(tool)] + Reading(opts.codec, None, more)
    {
      var all := events + more;
      assert all[0] == events[0] && all[1..][0] == events[1] && all[1..][1..][0] == events[2] && all[1..][1..][1..] == more;
      var begun, full := Some(Held(tool.id, tool.name, "")), Some(Held(tool.id, tool.name, raw));
      assert Reading(opts.codec, None, all) == Reading(opts.codec, begun, all[1..]);
      assert Reading(opts.codec, begun, all[1..]) == Reading(opts.codec, full, all[1..][1..]);
    }
  }

  /** Thinking has blocks of its own, and they hold it. */
  predicate ShowsThinking(opts: Options) {
    opts.enabled && opts.format == BlockFormat && !opts.omit
  }

  /** Thinking is not shown at all. */
  predicate HidesThinking(opts: Options) {
    !opts.enabled || (opts.format == BlockFormat && opts.omit)
  }

  /** What the client is told by one action. */
  function ToldOne(opts: Options, action: Action): seq<Mark> {
    if HidesThinking(opts) then VisibleOf(MarksOf(action))
    else if ShowsThinking(opts) then MarksOf(action)
    else T.ContentOf(TagsOf(opts.format), action)
  }

  lemma BlockTells(opts: Options, b: Blocks, text: string, phase: Phase)
    requires phase != Visible
    ensures Tells(opts.codec, SendBlock(opts, b, text, phase).events, if opts.omit then [] else Paint(text, true))
  {
    if opts.omit {
      OmittedTells(opts, b, text, phase);
    } else {
      var e := SayIf(opts, b, ThinkingActive, text);
      SayTells(opts, b, ThinkingActive, text);
      ClosedTells(opts, e, Paint(text, true));
    }
  }

  lemma OmittedTells(opts: Options, b: Blocks, text: string, phase: Phase)
    requires phase != Visible && opts.omit
    ensures Tells(opts.codec, SendBlock(opts, b, text, phase).events, [])
  {
    NothingTells(opts.codec);
    OpenTells(opts, b, ThinkingActive);
    ClosedTells(opts, Open(opts, b, ThinkingActive), []);
  }

  /** Closing a block tells nothing more. */
  lemma ClosedTells(opts: Options, e: Emitted, told: seq<Mark>)
    requires Tells(opts.codec, e.events, told)
    ensures Tells(opts.codec, e.events + Close(e.b).events, told)
  {
    StartTells(opts, e.b);
    ChainTells(opts.codec, e.events, told, Close(e.b).events, []);
    assert told + [] == told;
  }

  lemma SendTells(opts: Options, b: Blocks, text: string, phase: Phase)
    ensures Tells(opts.codec, SendText(opts, b, text, phase).events, ToldOne(opts, Send(text, phase)))
  {
    NothingTells(opts.codec);
    WithoutPaint(true, text, phase != Visible);
    if phase == Visible {
      SayTells(opts, b, TextActive, text);
    } else if opts.enabled && opts.format == BlockFormat {
      BlockTells(opts, b, text, phase);
    } else if opts.enabled {
      SayTells(opts, b, TextActive, TagsOf(opts.format).Around(text, phase));
      assert "" + text == text && text + "" == text;
    }
  }

  /** What the client is told by all of them: everything, the visible half, or content with the thinking in it. */
  function Told(opts: Options, actions: seq<Action>): seq<Mark> {
    if HidesThinking(opts) then VisibleOf(Marks(actions))
    else if ShowsThinking(opts) then Marks(actions)
    else T.Content(TagsOf(opts.format), actions)
  }

  lemma ToldFirst(opts: Options, actions: seq<Action>)
    requires actions != []
    ensures Told(opts, actions) == ToldOne(opts, actions[0]) + Told(opts, actions[1..])
  {
    WithoutAppend(true, MarksOf(actions[0]), Marks(actions[1..]));
  }

  lemma ActionTells(opts: Options, b: Blocks, action: Action)
    requires opts.codec.Inverse()
    ensures Tells(opts.codec, Emit(opts, b, action).events, ToldOne(opts, action))
  {
    match action
    case Send(text, phase) => SendTells(opts, b, text, phase);
    case Use(tool) =>
      ToolTells(opts, b, tool);
      WithoutTool(true, [], tool);
  }

  lemma {:induction false} EmitTells(opts: Options, b: Blocks, actions: seq<Action>)
    requires opts.codec.Inverse()
    ensures Tells(opts.codec, EmitAll(opts, b, actions).events, Told(opts, actions))
    decreases |actions|
  {
    if actions == [] {
      NothingTells(opts.codec);
    } else {
      var e := Emit(opts, b, actions[0]);
      ActionTells(opts, b, actions[0]);
      EmitTells(opts, e.b, actions[1..]);
      ChainTells(opts.codec, e.events, ToldOne(opts, actions[0]), EmitAll(opts, e.b, actions[1..]).events, Told(opts, actions[1..]));
      ToldFirst(opts, actions);
    }
  }

  lemma TellsAlone(codec: Codec, events: seq<Event>, marks: seq<Mark>)
    requires Tells(codec, events, marks)
    ensures Reading(codec, None, events) == marks
  {
    assert Reading(codec, None, events + []) == marks + Reading(codec, None, []);
    assert events + [] == events && marks + [] == marks;
  }

  lemma FinishTells(opts: Options, b: Blocks, reason: string, usage: Usage)
    ensures Tells(opts.codec, Finish(opts, b, reason, usage).events, [])
  {
    var e1 := Close(b);
    var e2 := EnsureStart(opts, e1.b);
    var delta := MessageDelta(Some(reason), Some(usage));
    StartTells(opts, b);
    StartTells(opts, e1.b);
    OneTells(opts.codec, delta);
    OneTells(opts.codec, MessageStop);
    ChainTells(opts.codec, e1.events, [], e2.events, []);
    ChainTells(opts.codec, [delta], [], [MessageStop], []);
    ChainTells(opts.codec, e1.events + e2.events, [] + [], [delta] + [MessageStop], [] + []);
    assert [delta] + [MessageStop] == [delta, MessageStop];
  }

  /** The whole of a successful answer tells what the splitter sent, and so does the part of one that broke off. */
  lemma AnswerTells(a: Attempt)
    requires a.Upstream? && a.opts.codec.Inverse()
    ensures a.outcome.Succeeded? ==> Reading(a.opts.codec, None, Answer(a)) == Told(a.opts, Run(INITIAL, a.opts.enabled, a.cbs).sent)
    ensures a.outcome.Failed? ==> Reading(a.opts.codec, None, Answer(a)) == Told(a.opts, Steps(INITIAL, a.opts.enabled, a.cbs).sent)
  {
    match a.outcome
    case Failed(message) =>
      var actions := Steps(INITIAL, a.opts.enabled, a.cbs).sent;
      EmitTells(a.opts, FRESH_BLOCKS, actions);
      OneTells(a.opts.codec, ErrorEvent(message));
      ChainTells(a.opts.codec, Emitting(a).events, Told(a.opts, actions), [ErrorEvent(message)], []);
      TellsAlone(a.opts.codec, Answer(a), Told(a.opts, actions) + []);
      assert Told(a.opts, actions) + [] == Told(a.opts, actions);
    case Succeeded(upstreamStop, usage) =>
      var actions := Run(INITIAL, a.opts.enabled, a.cbs).sent;
      var e := EmitAll(a.opts, FRESH_BLOCKS, actions);
      var end := Finish(a.opts, e.b, StopReason(actions, upstreamStop), usage).events;
      EmitTells(a.opts, FRESH_BLOCKS, actions);
      FinishTells(a.opts, e.b, StopReason(actions, upstreamStop), usage);
      ChainTells(a.opts.codec, e.events, Told(a.opts, actions), end, []);
      TellsAlone(a.opts.codec, Answer(a), Told(a.opts, actions) + []);
      assert Told(a.opts, actions) + [] == Told(a.opts, actions);
  }

  /**
   Thinking reaches the client: where it has blocks of its own, a successful answer tells every visible character
   of the text and, character by character, all the thinking of the source that claims the attempt, with the tool
   uses in their places. Where thinking is off or omitted, it tells the visible text and nothing else.
   */
  lemma ThinkingArrives(a: Attempt)
    requires a.Upstream? && a.outcome.Succeeded? && a.opts.codec.Inverse()
    ensures var told := Reading(a.opts.codec, None, Answer(a));
            var split := SplitStream(false, "", a.cbs);
            && (ShowsThinking(a.opts) ==>
                  && VisibleOf(told) == VisibleOf(split)
                  && ThinkingOf(told) == if Claimed(true, "", a.cbs) == ReasoningEvent then Events(true, a.cbs) else ThinkingOf(split))
            && (ShowsThinking(a.opts) && Claimed(true, "", a.cbs) != ReasoningEvent ==> told == split)
            && (HidesThinking(a.opts) ==> told == VisibleOf(split))
  {
    AnswerTells(a);
    SingleSource(a.opts.enabled, a.cbs);
    if Claimed(a.opts.enabled, "", a.cbs) != ReasoningEvent {
      RunIsClaimed(a.opts.enabled, a.cbs);
      RunExact(INITIAL, a.opts.enabled, a.cbs);
    }
  }

  /** An answer that breaks off has told nothing but the beginning of what it would have told. */
  lemma BrokenOffTellsBeginning(a: Attempt)
    requires a.Upstream? && a.outcome.Failed? && a.opts.codec.Inverse()
    ensures Reading(a.opts.codec, None, Answer(a)) <= Told(a.opts, Run(INITIAL, a.opts.enabled, a.cbs).sent)
  {
    var cut := Steps(INITIAL, a.opts.enabled, a.cbs);
    AnswerTells(a);
    RunIsSteps(INITIAL, a.opts.enabled, a.cbs);
    ToldAppend(a.opts, cut.sent, Process(cut.st, a.opts.enabled, "", false, true).sent);
  }

  lemma ToldAppend(opts: Options, x: seq<Action>, y: seq<Action>)
    ensures Told(opts, x + y) == Told(opts, x) + Told(opts, y)
  {
    MarksAppend(x, y);
    WithoutAppend(true, Marks(x), Marks(y));
    T.ContentAppend(TagsOf(opts.format), x, y);
  }
}
