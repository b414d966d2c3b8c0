/**
 What the Claude emitter promises over whole runs: the event grammar, and that the consumer of such
 streams gets back exactly what was sent.
 */
module ClaudeLaws {
  import opened Failover
  import opened Basics
  import opened Text
  import opened Wire
  import opened ThinkingSplit
  import opened SplitLaws
  import opened ClaudeEvents
  import opened ClaudeStream
  import T = ThinkingTags

  /** The tie between the emitter's captured variables. */
  ghost predicate Tidy(b: Blocks) {
    && (b.index < 0 <==> b.active == Idle)
    && (b.active == Idle ==> b.index == -1)
    && b.index < b.next
    && (b.active != Idle ==> b.started)
  }

  // ---- Grammar ----

  /** Where a reader of the emitted stream stands. */
  function ReaderAt(b: Blocks): Reader
    requires Tidy(b)
  {
    Reader(b.started, if b.active == Idle then None else Some((b.index, Announcement(b.active))), b.next, Streaming)
  }

  /** Emitted from `b`, these events keep the grammar and lead a reader to the emitter's new state. */
  ghost predicate Grammatical(b: Blocks, e: Emitted) {
    Tidy(b) && Tidy(e.b) && ReadAll(ReaderAt(b), e.events) == Some(ReaderAt(e.b))
  }

  lemma Chain(b: Blocks, e1: Emitted, e2: Emitted)
    requires Grammatical(b, e1) && Grammatical(e1.b, e2)
    ensures Grammatical(b, Emitted(e2.b, e1.events + e2.events))
  {
    ReadAppend(ReaderAt(b), e1.events, e2.events);
  }

  lemma EnsureStartReads(opts: Options, b: Blocks)
    requires Tidy(b)
    ensures Grammatical(b, EnsureStart(opts, b))
  {
    if !b.started {
      assert [MessageStart(Some(opts.startTokens))][1..] == [];
    }
  }

  lemma CloseReads(b: Blocks)
    requires Tidy(b)
    ensures Grammatical(b, Close(b)) && Close(b).b.active == Idle
  {
    assert [BlockStop(b.index)][1..] == [];
  }

  lemma OpenReads(opts: Options, b: Blocks, kind: Active)
    requires Tidy(b) && kind != Idle
    ensures Grammatical(b, Open(opts, b, kind)) && Open(opts, b, kind).b.active == kind
  {
    if b.active != kind {
      var e1 := EnsureStart(opts, b);
      var e2 := Close(e1.b);
      EnsureStartReads(opts, b);
      CloseReads(e1.b);
      Chain(b, e1, e2);
      var start := [BlockStart(b.next, Some(Announcement(kind)))];
      assert start[1..] == [];
      Chain(b, Emitted(e2.b, e1.events + e2.events),
            Emitted(e2.b.(index := b.next, active := kind, next := b.next + 1), start));
    }
  }

  lemma SayReads(opts: Options, b: Blocks, kind: Active, text: string)
    requires Tidy(b) && kind != Idle
    ensures Grammatical(b, SayIf(opts, b, kind, text))
  {
    if text != "" {
      OpenReads(opts, b, kind);
      var e := Open(opts, b, kind);
      var delta := [BlockDelta(e.b.index, Some(if kind == ThinkingActive then ThinkingDelta(text) else TextDelta(text)))];
      assert delta[1..] == [];
      Chain(b, e, Emitted(e.b, delta));
    }
  }

  lemma SendReads(opts: Options, b: Blocks, text: string, phase: Phase)
    requires Tidy(b)
    ensures Grammatical(b, SendText(opts, b, text, phase))
  {
    SayReads(opts, b, TextActive, text);
    SayReads(opts, b, TextActive, Wrapped(text, phase));
    SayReads(opts, b, ThinkingActive, text);
    OpenReads(opts, b, ThinkingActive);
    var e1 := if opts.omit then Open(opts, b, ThinkingActive) else SayIf(opts, b, ThinkingActive, text);
    CloseReads(e1.b);
    Chain(b, e1, Close(e1.b));
  }

  lemma ToolReads(opts: Options, b: Blocks, tool: ToolUse)
    requires Tidy(b)
    ensures Grammatical(b, SendTool(opts, b, tool))
  {
    var e1 := EnsureStart(opts, b);
    var e2 := Close(e1.b);
    EnsureStartReads(opts, b);
    CloseReads(e1.b);
    Chain(b, e1, e2);
    ToolBlockReads(opts, ReaderAt(e2.b), tool);
    Chain(b, Emitted(e2.b, e1.events + e2.events), Emitted(e2.b.(next := b.next + 1), ToolEvents(opts, b.next, tool)));
  }

  function ToolEvents(opts: Options, index: nat, tool: ToolUse): seq<Event> {
    [
      BlockStart(index, Some(ToolBlock(tool.id, tool.name))),
      BlockDelta(index, Some(InputJsonDelta(opts.codec.marshal(tool.input)))),
      BlockStop(index)]
  }

  lemma ToolBlockReads(opts: Options, r: Reader, tool: ToolUse)
    requires r.started && r.open.None? && r.stage == Streaming
    ensures ReadAll(r, ToolEvents(opts, r.next, tool)) == Some(r.(next := r.next + 1))
  {
    var events := ToolEvents(opts, r.next, tool);
    assert events[1..] == [events[1], events[2]] && events[1..][1..] == [events[2]] && [events[2]][1..] == [];
    var r1 := r.(open := Some((r.next, ToolBlock(tool.id, tool.name))), next := r.next + 1);
    assert Read(r, events[0]) == Some(r1);
    assert Read(r1, events[1]) == Some(r1);
    assert ReadAll(r1, [events[2]]) == Some(r.(next := r.next + 1));
  }

  /**
   The grammar holds on every run and in every thinking format: whatever is sent, the events lead a
   reader from the emitter's state before to its state after.
   */
  lemma {:induction false} EmitReads(opts: Options, b: Blocks, actions: seq<Action>)
    requires Tidy(b)
    ensures Grammatical(b, EmitAll(opts, b, actions))
    decreases |actions|
  {
    if actions != [] {
      match actions[0] {
        case Send(text, phase) => SendReads(opts, b, text, phase);
        case Use(tool) => ToolReads(opts, b, tool);
      }
      var e1 := Emit(opts, b, actions[0]);
      EmitReads(opts, e1.b, actions[1..]);
      Chain(b, e1, EmitAll(opts, e1.b, actions[1..]));
    }
  }

  /** A successful end closes all blocks, then sends message_delta, then message_stop. */
  lemma FinishReads(opts: Options, b: Blocks, reason: string, usage: Usage)
    requires Tidy(b) && reason != ""
    ensures ReadAll(ReaderAt(b), Finish(opts, b, reason, usage).events) == Some(Reader(true, None, b.next, Done))
  {
    var e1 := Close(b);
    var e2 := EnsureStart(opts, e1.b);
    CloseReads(b);
    EnsureStartReads(opts, e1.b);
    Chain(b, e1, e2);
    var delta := MessageDelta(Some(reason), Some(usage));
    assert [delta, MessageStop][1..] == [MessageStop] && [MessageStop][1..] == [];
    ReadAppend(ReaderAt(b), e1.events + e2.events, [delta, MessageStop]);
  }

  // ---- Round trip ----

  /** The content callbacks a consumer makes of one action: the text shown, or the tool use. */
  function Heard(opts: Options, action: Action): seq<Callback> {
    match action
    case Use(tool) => [OnToolUse(tool)]
    case Send(text, phase) =>
      if phase == Visible then CallText(text)
      else if !opts.enabled || opts.format == BlockFormat then []
      else CallText(if opts.format == ThinkFormat then Wrapped(text, phase) else text)
  }

  function HeardAll(opts: Options, actions: seq<Action>): seq<Callback> {
    if actions == [] then [] else Heard(opts, actions[0]) + HeardAll(opts, actions[1..])
  }

  function StartCount(opts: Options): int {
    if opts.startTokens > 0 then opts.startTokens else 0
  }

  /** The consumer's locals after the emitter has reached `b` and `calls` have been made. */
  function ParseAt(opts: Options, b: Blocks, calls: seq<Callback>): Parse {
    Parse(
      if b.active == Idle then map[] else map[b.index := StateOf(Announcement(b.active))],
      calls,
      if b.started then StartCount(opts) else 0,
      0, "", false)
  }

  /** Emitted from `b`, these events make the consumer call `heard` and follow to the new state. */
  ghost predicate Parses(opts: Options, b: Blocks, e: Emitted, heard: seq<Callback>) {
    forall calls :: FeedAll(opts.codec, ParseAt(opts, b, calls), e.events) == ParseAt(opts, e.b, calls + heard)
  }

  lemma ChainParses(opts: Options, b: Blocks, e1: Emitted, h1: seq<Callback>, e2: Emitted, h2: seq<Callback>)
    requires Parses(opts, b, e1, h1) && Parses(opts, e1.b, e2, h2)
    ensures Parses(opts, b, Emitted(e2.b, e1.events + e2.events), h1 + h2)
  {
    forall calls
      ensures FeedAll(opts.codec, ParseAt(opts, b, calls), e1.events + e2.events) == ParseAt(opts, e2.b, calls + (h1 + h2))
    {
      FeedAppend(opts.codec, ParseAt(opts, b, calls), e1.events, e2.events);
      Assoc(calls, h1, h2);
      assert FeedAll(opts.codec, ParseAt(opts, b, calls), e1.events) == ParseAt(opts, e1.b, calls + h1);
    }
  }

  lemma NothingParses(opts: Options, b: Blocks)
    ensures Parses(opts, b, Emitted(b, []), [])
  {
    forall calls
      ensures FeedAll(opts.codec, ParseAt(opts, b, calls), []) == ParseAt(opts, b, calls + [])
    {
      assert calls + [] == calls;
    }
  }

  lemma FeedOne(codec: Codec, p: Parse, e: Event)
    ensures FeedAll(codec, p, [e]) == Feed(codec, p, e)
  {
    assert [e][1..] == [];
  }

  lemma EnsureStartParses(opts: Options, b: Blocks)
    requires Tidy(b)
    ensures Parses(opts, b, EnsureStart(opts, b), [])
  {
    NothingParses(opts, b);
    if !b.started {
      forall calls
        ensures FeedAll(opts.codec, ParseAt(opts, b, calls), EnsureStart(opts, b).events)
             == ParseAt(opts, EnsureStart(opts, b).b, calls + [])
      {
        assert calls + [] == calls;
        FeedOne(opts.codec, ParseAt(opts, b, calls), MessageStart(Some(opts.startTokens)));
      }
    }
  }

  lemma CloseParses(opts: Options, b: Blocks)
    requires Tidy(b)
    ensures Parses(opts, b, Close(b), [])
  {
    NothingParses(opts, b);
    if b.index >= 0 {
      forall calls
        ensures FeedAll(opts.codec, ParseAt(opts, b, calls), Close(b).events) == ParseAt(opts, Close(b).b, calls + [])
      {
        assert calls + [] == calls;
        FeedOne(opts.codec, ParseAt(opts, b, calls), BlockStop(b.index));
        assert map[b.index := StateOf(Announcement(b.active))] - {b.index} == map[];
      }
    }
  }

  lemma OpenParses(opts: Options, b: Blocks, kind: Active)
    requires Tidy(b) && kind != Idle
    ensures Parses(opts, b, Open(opts, b, kind), [])
  {
    NothingParses(opts, b);
    if b.active != kind {
      var e1 := EnsureStart(opts, b);
      var e2 := Close(e1.b);
      EnsureStartParses(opts, b);
      CloseParses(opts, e1.b);
      ChainParses(opts, b, e1, [], e2, []);
      var start := BlockStart(b.next, Some(Announcement(kind)));
      var e3 := Emitted(e2.b.(index := b.next, active := kind, next := b.next + 1), [start]);
      forall calls
        ensures FeedAll(opts.codec, ParseAt(opts, e2.b, calls), [start]) == ParseAt(opts, e3.b, calls + [])
      {
        assert calls + [] == calls;
        FeedOne(opts.codec, ParseAt(opts, e2.b, calls), start);
      }
      ChainParses(opts, b, Emitted(e2.b, e1.events + e2.events), [], e3, []);
      assert CallText("") + CallText("") == [];
    }
  }

  /** A delta of the open block is called back if it is text. */
  lemma DeltaParses(opts: Options, b: Blocks, kind: Active, text: string, delta: Event, heard: seq<Callback>)
    requires Tidy(b) && kind != Idle && b.active == kind && b.started && text != ""
    requires delta == BlockDelta(b.index, Some(if kind == ThinkingActive then ThinkingDelta(text) else TextDelta(text)))
    requires heard == if kind == TextActive then CallText(text) else []
    ensures Parses(opts, b, Emitted(b, [delta]), heard)
  {
    forall calls
      ensures FeedAll(opts.codec, ParseAt(opts, b, calls), [delta]) == ParseAt(opts, b, calls + heard)
    {
      assert calls + [] == calls;
      FeedOne(opts.codec, ParseAt(opts, b, calls), delta);
    }
  }

  /** A delta behind the block it opens. */
  lemma OpenAndDeltaParse(opts: Options, b: Blocks, kind: Active, text: string, e: Emitted, delta: Event, heard: seq<Callback>)
    requires Tidy(b) && kind != Idle && text != "" && e == Open(opts, b, kind)
    requires delta == BlockDelta(e.b.index, Some(if kind == ThinkingActive then ThinkingDelta(text) else TextDelta(text)))
    requires heard == if kind == TextActive then CallText(text) else []
    ensures Parses(opts, b, Emitted(e.b, e.events + [delta]), heard)
  {
    OpenReads(opts, b, kind);
    OpenParses(opts, b, kind);
    DeltaParses(opts, e.b, kind, text, delta, heard);
    assert [] + heard == heard;
    ChainParses(opts, b, e, [], Emitted(e.b, [delta]), heard);
  }

  lemma SayParses(opts: Options, b: Blocks, kind: Active, text: string)
    requires Tidy(b) && kind != Idle
    ensures Parses(opts, b, SayIf(opts, b, kind, text), if kind == TextActive then CallText(text) else [])
  {
    if text == "" {
      NothingParses(opts, b);
    } else {
      var e := Open(opts, b, kind);
      var delta := BlockDelta(e.b.index, Some(if kind == ThinkingActive then ThinkingDelta(text) else TextDelta(text)));
      OpenAndDeltaParse(opts, b, kind, text, e, delta, if kind == TextActive then CallText(text) else []);
    }
  }

  lemma SendBlockParses(opts: Options, b: Blocks, text: string, phase: Phase)
    requires Tidy(b) && phase != Visible
    ensures Parses(opts, b, SendBlock(opts, b, text, phase), [])
  {
    NothingParses(opts, b);
    SayParses(opts, b, ThinkingActive, text);
    SayReads(opts, b, ThinkingActive, text);
    OpenParses(opts, b, ThinkingActive);
    OpenReads(opts, b, ThinkingActive);
    var e1 := if opts.omit then Open(opts, b, ThinkingActive) else SayIf(opts, b, ThinkingActive, text);
    CloseParses(opts, e1.b);
    ChainParses(opts, b, e1, [], Close(e1.b), []);
    assert CallText("") + CallText("") == [];
  }

  lemma SendVisibleParses(opts: Options, b: Blocks, text: string)
    requires Tidy(b)
    ensures Parses(opts, b, SendText(opts, b, text, Visible), Heard(opts, Send(text, Visible)))
  {
    SayParses(opts, b, TextActive, text);
  }

  lemma SendThinkingParses(opts: Options, b: Blocks, text: string, phase: Phase)
    requires Tidy(b) && phase != Visible && opts.enabled
    ensures Parses(opts, b, SendText(opts, b, text, phase), Heard(opts, Send(text, phase)))
  {
    if opts.format == BlockFormat {
      SendBlockParses(opts, b, text, phase);
    } else {
      SayParses(opts, b, TextActive, if opts.format == ThinkFormat then Wrapped(text, phase) else text);
    }
  }

  lemma SendParses(opts: Options, b: Blocks, text: string, phase: Phase)
    requires Tidy(b)
    ensures Parses(opts, b, SendText(opts, b, text, phase), Heard(opts, Send(text, phase)))
  {
    if phase == Visible {
      SendVisibleParses(opts, b, text);
    } else if opts.enabled {
      SendThinkingParses(opts, b, text, phase);
    } else {
      NothingParses(opts, b);
    }
  }

  lemma ToolParses(opts: Options, b: Blocks, tool: ToolUse)
    requires Tidy(b) && opts.codec.Inverse()
    ensures Parses(opts, b, SendTool(opts, b, tool), [OnToolUse(tool)])
  {
    var e1 := EnsureStart(opts, b);
    var e2 := Close(e1.b);
    EnsureStartParses(opts, b);
    CloseParses(opts, e1.b);
    ChainParses(opts, b, e1, [], e2, []);
    var e3 := Emitted(e2.b.(next := b.next + 1), ToolEvents(opts, b.next, tool));
    forall calls
      ensures FeedAll(opts.codec, ParseAt(opts, e2.b, calls), e3.events) == ParseAt(opts, e3.b, calls + [OnToolUse(tool)])
    {
      ToolBlockParses(opts, ParseAt(opts, e2.b, calls), b.next, tool);
    }
    ChainParses(opts, b, Emitted(e2.b, e1.events + e2.events), [], e3, [OnToolUse(tool)]);
    assert [] + [OnToolUse(tool)] == [OnToolUse(tool)];
  }

  /** A tool block is parsed back to the tool use it was written from. */
  lemma ToolBlockParses(opts: Options, p: Parse, index: nat, tool: ToolUse)
    requires opts.codec.Inverse() && p.blocks == map[]
    ensures FeedAll(opts.codec, p, ToolEvents(opts, index, tool)) == p.(calls := p.calls + [OnToolUse(tool)])
  {
    var events := ToolEvents(opts, index, tool);
    var raw := opts.codec.marshal(tool.input);
    assert raw != "" && opts.codec.valid(raw) && opts.codec.unmarshal(raw) == tool.input;
    var p1 := Feed(opts.codec, p, events[0]);
    assert p1.calls == p.calls + [] == p.calls;
    var p2 := Feed(opts.codec, p1, events[1]);
    assert "" + raw == raw;
    assert p2.blocks == map[index := BlockState(ToolKind, tool.id, tool.name, raw)];
    var p3 := Feed(opts.codec, p2, events[2]);
    assert p2.blocks - {index} == map[];
    assert events[1..] == [events[1], events[2]] && events[1..][1..] == [events[2]] && events[1..][1..][1..] == [];
    FeedOne(opts.codec, p2, events[2]);
  }

  lemma {:induction false} EmitParses(opts: Options, b: Blocks, actions: seq<Action>)
    requires Tidy(b) && opts.codec.Inverse()
    ensures Parses(opts, b, EmitAll(opts, b, actions), HeardAll(opts, actions))
    decreases |actions|
  {
    if actions == [] {
      NothingParses(opts, b);
    } else {
      match actions[0] {
        case Send(text, phase) =>
          SendParses(opts, b, text, phase);
          SendReads(opts, b, text, phase);
        case Use(tool) =>
          ToolParses(opts, b, tool);
          ToolReads(opts, b, tool);
      }
      var e1 := Emit(opts, b, actions[0]);
      EmitParses(opts, e1.b, actions[1..]);
      ChainParses(opts, b, e1, Heard(opts, actions[0]), EmitAll(opts, e1.b, actions[1..]), HeardAll(opts, actions[1..]));
    }
  }

  // ---- Whole answers ----

  lemma FreshReads(opts: Options, actions: seq<Action>)
    ensures Grammatical(FRESH_BLOCKS, EmitAll(opts, FRESH_BLOCKS, actions)) && ReaderAt(FRESH_BLOCKS) == FRESH
  {
    EmitReads(opts, FRESH_BLOCKS, actions);
  }

  /** Before message_start no event has been sent at all. */
  lemma {:induction false} UnstartedIsSilent(r: Reader, events: seq<Event>)
    requires r.stage == Streaming && !r.started && r.open == None
    requires ReadAll(r, events).Some? && !ReadAll(r, events).value.started
    ensures events == []
    decreases |events|
  {
    if events != [] {
      ReadStarted(Read(r, events[0]).value, events[1..]);
    }
  }

  lemma {:induction false} ReadStarted(r: Reader, events: seq<Event>)
    requires r.started && ReadAll(r, events).Some?
    ensures ReadAll(r, events).value.started
    decreases |events|
  {
    if events != [] {
      ReadStarted(Read(r, events[0]).value, events[1..]);
    }
  }

  lemma RetriedIsSilent(a: Attempt)
    requires Retried(a)
    ensures Sends(a) == []
  {
    if a.Upstream? {
      var actions := Steps(INITIAL, a.opts.enabled, a.cbs).sent;
      FreshReads(a.opts, actions);
      UnstartedIsSilent(FRESH, EmitAll(a.opts, FRESH_BLOCKS, actions).events);
    }
  }

  /**
   One account per answer: however many attempts fail, what the client gets is nothing, or the answer of a
   single attempt, exactly as if that attempt had been the only one.
   */
  lemma {:induction false} OneAccountPerAnswer(attempts: seq<Attempt>, left: nat)
    ensures var k := Answering(Retried, attempts, left);
            Serve(attempts, left) == if k < 0 then [] else Answer(attempts[k])
    decreases left
  {
    if left > 0 && attempts != [] && Retried(attempts[0]) {
      OneAccountPerAnswer(attempts[1..], left - 1);
      AnsweringBehind(Retried, attempts, left);
      PassedOver(attempts, left);
    }
  }

  lemma PassedOver(attempts: seq<Attempt>, left: nat)
    requires left > 0 && attempts != [] && Retried(attempts[0])
    ensures Serve(attempts, left) == Serve(attempts[1..], left - 1)
  {
    RetriedIsSilent(attempts[0]);
    assert [] + Serve(attempts[1..], left - 1) == Serve(attempts[1..], left - 1);
  }

  /**
   The grammar over whole answers: a successful one is complete, one that fails after message_start ends
   with the error event, and in both the blocks are numbered 0, 1, 2, ... without gaps.
   */
  lemma AnswerReads(a: Attempt)
    requires !Retried(a)
    ensures match ReadAll(FRESH, Answer(a))
            case None => false
            case Some(r) => r.started && (if a.outcome.Succeeded? then r.stage == Done && r.open == None else r.stage == Aborted)
  {
    match a.outcome
    case Failed(message) =>
      FreshReads(a.opts, Steps(INITIAL, a.opts.enabled, a.cbs).sent);
      ReadAppend(FRESH, Emitting(a).events, [ErrorEvent(message)]);
      assert [ErrorEvent(message)][1..] == [];
    case Succeeded(upstreamStop, usage) =>
      var actions := Run(INITIAL, a.opts.enabled, a.cbs).sent;
      var e := EmitAll(a.opts, FRESH_BLOCKS, actions);
      var reason := StopReason(actions, upstreamStop);
      FreshReads(a.opts, actions);
      FinishReads(a.opts, e.b, reason, usage);
      ReadAppend(FRESH, e.events, Finish(a.opts, e.b, reason, usage).events);
  }

  /** The token count a consumer reports: the final one if positive, else the one from message_start. */
  function Counted(final: int, atStart: int): int {
    if final > 0 then final else if atStart > 0 then atStart else 0
  }

  function Positive(n: int): int {
    if n > 0 then n else 0
  }

  lemma FinishParses(opts: Options, b: Blocks, calls: seq<Callback>, reason: string, usage: Usage)
    requires Tidy(b) && reason != ""
    ensures Conclude(FeedAll(opts.codec, ParseAt(opts, b, calls), Finish(opts, b, reason, usage).events))
         == Consumed(calls, Some(reason), Some(Usage(Counted(usage.input, opts.startTokens), Positive(usage.output))))
  {
    var e1 := Close(b);
    var e2 := EnsureStart(opts, e1.b);
    CloseParses(opts, b);
    CloseReads(b);
    EnsureStartParses(opts, e1.b);
    ChainParses(opts, b, e1, [], e2, []);
    var delta := MessageDelta(Some(reason), Some(usage));
    var p := ParseAt(opts, e2.b, calls);
    assert calls + ([] + []) == calls;
    FeedAppend(opts.codec, ParseAt(opts, b, calls), e1.events + e2.events, [delta, MessageStop]);
    assert [delta, MessageStop][1..] == [MessageStop];
    FeedOne(opts.codec, Feed(opts.codec, p, delta), MessageStop);
  }

  /**
   Printer and parser: fed a successful answer, the consumer calls back exactly what was sent, piece by
   piece, with the tool uses in their places, the stop reason, and the token counts.
   */
  lemma RoundTrip(a: Attempt)
    requires a.Upstream? && a.outcome.Succeeded? && a.opts.codec.Inverse()
    ensures var actions := Run(INITIAL, a.opts.enabled, a.cbs).sent;
            var reason := StopReason(actions, a.outcome.upstreamStop);
            var counts := Usage(Counted(a.outcome.usage.input, a.opts.startTokens), Positive(a.outcome.usage.output));
            Conclude(FeedAll(a.opts.codec, UNPARSED, Answer(a))) == Consumed(HeardAll(a.opts, actions), Some(reason), Some(counts))
  {
    var actions := Run(INITIAL, a.opts.enabled, a.cbs).sent;
    var e := EmitAll(a.opts, FRESH_BLOCKS, actions);
    var reason := StopReason(actions, a.outcome.upstreamStop);
    EmitParses(a.opts, FRESH_BLOCKS, actions);
    FreshReads(a.opts, actions);
    var heard := HeardAll(a.opts, actions);
    assert ParseAt(a.opts, FRESH_BLOCKS, []) == UNPARSED;
    assert FeedAll(a.opts.codec, ParseAt(a.opts, FRESH_BLOCKS, []), e.events) == ParseAt(a.opts, e.b, [] + heard);
    assert [] + heard == heard;
    FinishParses(a.opts, e.b, heard, reason, a.outcome.usage);
    FeedAppend(a.opts.codec, UNPARSED, e.events, Finish(a.opts, e.b, reason, a.outcome.usage).events);
  }

  // ---- End to end ----

  /** What callbacks deliver, character by character. */
  function CallMarks(calls: seq<Callback>): seq<Mark> {
    if calls == [] then [] else MarksOfCall(calls[0]) + CallMarks(calls[1..])
  }

  function MarksOfCall(call: Callback): seq<Mark> {
    match call
    case OnText(text, isThinking) => Paint(text, isThinking)
    case OnToolUse(tool) => [Tool(tool)]
  }

  lemma CallMarksFirst(calls: seq<Callback>)
    requires calls != []
    ensures CallMarks(calls) == MarksOfCall(calls[0]) + CallMarks(calls[1..])
  {
  }

  lemma {:induction false} CallMarksAppend(a: seq<Callback>, b: seq<Callback>)
    ensures CallMarks(a + b) == CallMarks(a) + CallMarks(b)
  {
    if a == [] {
      assert a + b == b;
    } else {
      assert (a + b)[0] == a[0] && (a + b)[1..] == a[1..] + b;
      CallMarksFirst(a + b);
      CallMarksFirst(a);
      CallMarksAppend(a[1..], b);
      Assoc(MarksOfCall(a[0]), CallMarks(a[1..]), CallMarks(b));
    }
  }

  /** With thinking in blocks of its own, the consumer hears the visible half. */
  lemma {:induction false} HeardIsVisible(opts: Options, actions: seq<Action>)
    requires !opts.enabled || opts.format == BlockFormat
    ensures CallMarks(HeardAll(opts, actions)) == VisibleOf(Marks(actions))
  {
    if actions != [] {
      HeardIsVisible(opts, actions[1..]);
      CallMarksAppend(Heard(opts, actions[0]), HeardAll(opts, actions[1..]));
      WithoutAppend(true, MarksOf(actions[0]), Marks(actions[1..]));
      HeardOne(opts, actions[0]);
    }
  }

  lemma HeardOne(opts: Options, action: Action)
    requires !opts.enabled || opts.format == BlockFormat
    ensures CallMarks(Heard(opts, action)) == VisibleOf(MarksOf(action))
  {
    var heard := Heard(opts, action);
    assert heard != [] ==> heard[1..] == [];
    match action
    case Send(text, phase) => WithoutPaint(true, text, phase != Visible);
    case Use(tool) => WithoutTool(true, [], tool);
  }

  /**
   End to end: whatever chunks, tags and reasoning events the upstream sends, a consumer of the answer
   gets the visible half of the one-pass split of each section, with the same tool uses in their places.
   */
  lemma EndToEnd(a: Attempt)
    requires a.Upstream? && a.outcome.Succeeded? && a.opts.codec.Inverse()
    requires !a.opts.enabled || a.opts.format == BlockFormat
    ensures CallMarks(Conclude(FeedAll(a.opts.codec, UNPARSED, Answer(a))).calls)
         == VisibleOf(SplitStream(false, "", a.cbs))
  {
    RoundTrip(a);
    HeardIsVisible(a.opts, Run(INITIAL, a.opts.enabled, a.cbs).sent);
    SingleSource(a.opts.enabled, a.cbs);
  }

  /** The tags of the formats that show thinking as text; one of them shows it bare. */
  function TagsOf(format: Format): T.Tags {
    if format == ThinkFormat then T.Tags("<think>", "</think>") else T.Tags("", "")
  }

  lemma HeardOneAsText(opts: Options, action: Action)
    requires opts.enabled && opts.format != BlockFormat
    ensures CallMarks(Heard(opts, action)) == T.ContentOf(TagsOf(opts.format), action)
  {
    var heard := Heard(opts, action);
    assert heard != [] ==> heard[1..] == [];
    if action.Send? {
      assert "" + action.text == action.text && action.text + "" == action.text;
    }
  }

  lemma {:induction false} HeardIsContent(opts: Options, actions: seq<Action>)
    requires opts.enabled && opts.format != BlockFormat
    ensures CallMarks(HeardAll(opts, actions)) == T.Content(TagsOf(opts.format), actions)
  {
    if actions != [] {
      HeardIsContent(opts, actions[1..]);
      CallMarksAppend(Heard(opts, actions[0]), HeardAll(opts, actions[1..]));
      HeardOneAsText(opts, actions[0]);
    }
  }

  ghost predicate TellsEverything(tags: T.Tags, cbs: seq<Callback>, marks: seq<Mark>) {
    exists actions :: marks == T.Content(tags, actions) && HoldsEverything(cbs, actions)
  }

  /**
   End to end where thinking is shown as text, on every run: the consumer gets the content of a well-bracketed
   sequence of sends that holds everything received. Unless reasoning events claimed the attempt, that is each
   section with its tags replaced.
   */
  lemma EndToEndAsText(a: Attempt)
    requires a.Upstream? && a.outcome.Succeeded? && a.opts.codec.Inverse()
    requires a.opts.enabled && a.opts.format != BlockFormat
    ensures var marks := CallMarks(Conclude(FeedAll(a.opts.codec, UNPARSED, Answer(a))).calls);
            var tags := TagsOf(a.opts.format);
            && TellsEverything(tags, a.cbs, marks)
            && (Claimed(true, "", a.cbs) != ReasoningEvent ==> marks == T.RetagStream(tags, T.Outside, "", a.cbs))
  {
    var actions := Run(INITIAL, true, a.cbs).sent;
    RoundTrip(a);
    HeardIsContent(a.opts, actions);
    RunHoldsEverything(a.cbs);
    if Claimed(true, "", a.cbs) != ReasoningEvent {
      RunIsClaimed(true, a.cbs);
      T.RunRetags(TagsOf(a.opts.format), INITIAL, true, a.cbs);
    }
  }
}
