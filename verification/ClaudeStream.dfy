/** The Claude stream handler: the block emitter, one attempt, and the failover loop around it. */
module ClaudeStream {
  import opened Basics
  import opened Text
  import opened Wire
  import opened ThinkingSplit
  import opened ClaudeEvents

  /** How thinking is shown. `BlockFormat` is the default: thinking blocks. */
  datatype Format = ThinkFormat | ReasoningFormat | BlockFormat

  /** What one attempt is configured with; `startTokens` is what its message_start reports. */
  datatype Options = Options(enabled: bool, format: Format, omit: bool, startTokens: int, codec: Codec)

  datatype Active = Idle | TextActive | ThinkingActive

  /** The emitter's captured variables; `index` is -1 while idle. */
  datatype Blocks = Blocks(started: bool, index: int, active: Active, next: nat)

  datatype Emitted = Emitted(b: Blocks, events: seq<Event>)

  function Announcement(active: Active): ContentBlock {
    if active == ThinkingActive then ThinkingBlock else TextBlock("")
  }

  function EnsureStart(opts: Options, b: Blocks): Emitted {
    if b.started then Emitted(b, []) else Emitted(b.(started := true), [MessageStart(Some(opts.startTokens))])
  }

  function Close(b: Blocks): Emitted {
    if b.index < 0 then Emitted(b, []) else Emitted(b.(index := -1, active := Idle), [BlockStop(b.index)])
  }

  function Open(opts: Options, b: Blocks, kind: Active): Emitted {
    if b.active == kind then Emitted(b, [])
    else
      var e1 := EnsureStart(opts, b);
      var e2 := Close(e1.b);
      Emitted(
        e2.b.(index := b.next, active := kind, next := b.next + 1),
        e1.events + e2.events + [BlockStart(b.next, Some(Announcement(kind)))])
  }

  /** Text or thinking in a block of its own kind. */
  function Say(opts: Options, b: Blocks, kind: Active, text: string): Emitted {
    var e := Open(opts, b, kind);
    var delta := if kind == ThinkingActive then ThinkingDelta(text) else TextDelta(text);
    Emitted(e.b, e.events + [BlockDelta(e.b.index, Some(delta))])
  }

  function SayIf(opts: Options, b: Blocks, kind: Active, text: string): Emitted {
    if text == "" then Emitted(b, []) else Say(opts, b, kind, text)
  }

  /** Thinking written into the text as `<think>...</think>`. */
  function Wrapped(text: string, phase: Phase): string {
    match phase
    case Begin => "<think>" + text
    case End => text + "</think>"
    case _ => text
  }

  /** Thinking as blocks of their own. */
  function SendBlock(opts: Options, b: Blocks, text: string, phase: Phase): Emitted {
    if opts.omit then
      if phase == Begin then
        Open(opts, b, ThinkingActive)
      else if phase == End then
        var e1 := Open(opts, b, ThinkingActive);
        var e2 := Close(e1.b);
        Emitted(e2.b, e1.events + e2.events)
      else
        Emitted(b, [])
    else
      var e1 := SayIf(opts, b, ThinkingActive, text);
      if phase == End && e1.b.active == ThinkingActive then
        var e2 := Close(e1.b);
        Emitted(e2.b, e1.events + e2.events)
      else
        e1
  }

  function SendText(opts: Options, b: Blocks, text: string, phase: Phase): Emitted {
    if phase == Visible then SayIf(opts, b, TextActive, text)
    else if !opts.enabled then Emitted(b, [])
    else match opts.format
      case ThinkFormat => SayIf(opts, b, TextActive, Wrapped(text, phase))
      case ReasoningFormat => SayIf(opts, b, TextActive, text)
      case BlockFormat => SendBlock(opts, b, text, phase)
  }

  function SendTool(opts: Options, b: Blocks, tool: ToolUse): Emitted {
    var e1 := EnsureStart(opts, b);
    var e2 := Close(e1.b);
    Emitted(
      e2.b.(next := b.next + 1),
      e1.events + e2.events + [
        BlockStart(b.next, Some(ToolBlock(tool.id, tool.name))),
        BlockDelta(b.next, Some(InputJsonDelta(opts.codec.marshal(tool.input)))),
        BlockStop(b.next)])
  }

  function Emit(opts: Options, b: Blocks, action: Action): Emitted {
    match action
    case Send(text, phase) => SendText(opts, b, text, phase)
    case Use(tool) => SendTool(opts, b, tool)
  }

  function EmitAll(opts: Options, b: Blocks, actions: seq<Action>): Emitted
    decreases |actions|
  {
    if actions == [] then Emitted(b, [])
    else
      var e1 := Emit(opts, b, actions[0]);
      var e2 := EmitAll(opts, e1.b, actions[1..]);
      Emitted(e2.b, e1.events + e2.events)
  }

  lemma {:induction false} EmitAppend(opts: Options, b: Blocks, x: seq<Action>, y: seq<Action>)
    ensures var e1 := EmitAll(opts, b, x);
            var e2 := EmitAll(opts, e1.b, y);
            EmitAll(opts, b, x + y) == Emitted(e2.b, e1.events + e2.events)
    decreases |x|
  {
    if x == [] {
      assert x + y == y;
      assert [] + EmitAll(opts, b, y).events == EmitAll(opts, b, y).events;
    } else {
      assert (x + y)[0] == x[0] && (x + y)[1..] == x[1..] + y;
      var e := Emit(opts, b, x[0]);
      EmitAppend(opts, e.b, x[1..], y);
      var e1 := EmitAll(opts, e.b, x[1..]);
      Assoc(e.events, e1.events, EmitAll(opts, e1.b, y).events);
    }
  }

  /** The closing events of a successful attempt. */
  function Finish(opts: Options, b: Blocks, reason: string, usage: Usage): Emitted {
    var e1 := Close(b);
    var e2 := EnsureStart(opts, e1.b);
    Emitted(e2.b, e1.events + e2.events + [MessageDelta(Some(reason), Some(usage)), MessageStop])
  }

  function StopReason(actions: seq<Action>, upstreamStop: string): string {
    if Used(actions) then "tool_use"
    else if upstreamStop == "max_tokens" then "max_tokens"
    else "end_turn"
  }

  predicate Used(actions: seq<Action>) {
    exists i :: 0 <= i < |actions| && actions[i].Use?
  }

  // ---- The emitter as the handler runs it ----

  class Emitter {
    const opts: Options
    var messageStarted: bool
    var activeBlockIndex: int
    var activeBlockType: Active
    var nextContentIndex: nat
    var wire: seq<Event>

    function Value(): Blocks
      reads this
    {
      Blocks(messageStarted, activeBlockIndex, activeBlockType, nextContentIndex)
    }

    constructor (opts: Options, messageStarted: bool, wire: seq<Event>)
      ensures Value() == Blocks(messageStarted, -1, Idle, 0)
      ensures this.opts == opts && this.wire == wire
    {
      this.opts := opts;
      this.messageStarted := messageStarted;
      activeBlockIndex, activeBlockType, nextContentIndex := -1, Idle, 0;
      this.wire := wire;
    }

    method EnsureMessageStart()
      modifies this
      ensures var e := EnsureStart(opts, old(Value())); Value() == e.b && wire == old(wire) + e.events
    {
      if messageStarted {
        return;
      }
      wire := wire + [MessageStart(Some(opts.startTokens))];
      messageStarted := true;
    }

    method CloseActiveBlock()
      modifies this
      ensures var e := Close(old(Value())); Value() == e.b && wire == old(wire) + e.events
    {
      if activeBlockIndex < 0 {
        return;
      }
      wire := wire + [BlockStop(activeBlockIndex)];
      activeBlockIndex := -1;
      activeBlockType := Idle;
    }

    method StartContentBlock(kind: Active)
      modifies this
      ensures var e := Open(opts, old(Value()), kind); Value() == e.b && wire == old(wire) + e.events
    {
      if activeBlockType == kind {
        return;
      }
      EnsureMessageStart();
      CloseActiveBlock();
      var idx := nextContentIndex;
      nextContentIndex := nextContentIndex + 1;
      if kind == ThinkingActive {
        wire := wire + [BlockStart(idx, Some(ThinkingBlock))];
      } else {
        wire := wire + [BlockStart(idx, Some(TextBlock("")))];
      }
      activeBlockIndex := idx;
      activeBlockType := kind;
    }

    method TextDeltaIn(text: string)
      modifies this
      ensures var e := Say(opts, old(Value()), TextActive, text); Value() == e.b && wire == old(wire) + e.events
    {
      StartContentBlock(TextActive);
      wire := wire + [BlockDelta(activeBlockIndex, Some(TextDelta(text)))];
    }

    method SendThinkingBlock(text: string, thinkingState: Phase)
      requires thinkingState != Visible
      modifies this
      ensures var e := SendBlock(opts, old(Value()), text, thinkingState); Value() == e.b && wire == old(wire) + e.events
    {
      if opts.omit {
        if thinkingState == Begin {
          StartContentBlock(ThinkingActive);
          return;
        }
        if thinkingState == End {
          if activeBlockType != ThinkingActive {
            StartContentBlock(ThinkingActive);
          }
          CloseActiveBlock();
        }
        return;
      }
      if thinkingState == End && text == "" {
        if activeBlockType == ThinkingActive {
          CloseActiveBlock();
        }
        return;
      }
      if text != "" {
        StartContentBlock(ThinkingActive);
        wire := wire + [BlockDelta(activeBlockIndex, Some(ThinkingDelta(text)))];
      }
      if thinkingState == End && activeBlockType == ThinkingActive {
        CloseActiveBlock();
      }
    }

    method Send(text: string, thinkingState: Phase)
      modifies this
      ensures var e := SendText(opts, old(Value()), text, thinkingState); Value() == e.b && wire == old(wire) + e.events
    {
      if thinkingState == Visible {
        if text == "" {
          return;
        }
        TextDeltaIn(text);
        return;
      }
      if !opts.enabled {
        return;
      }
      match opts.format {
        case ThinkFormat =>
          var outputText := text;
          match thinkingState {
            case Begin => outputText := "<think>" + text;
            case End => outputText := text + "</think>";
            case _ =>
          }
          if outputText == "" {
            return;
          }
          TextDeltaIn(outputText);
        case ReasoningFormat =>
          if text == "" {
            return;
          }
          TextDeltaIn(text);
        case BlockFormat =>
          SendThinkingBlock(text, thinkingState);
      }
    }

    method Tool(tool: ToolUse)
      modifies this
      ensures var e := SendTool(opts, old(Value()), tool); Value() == e.b && wire == old(wire) + e.events
    {
      EnsureMessageStart();
      CloseActiveBlock();
      var idx := nextContentIndex;
      nextContentIndex := nextContentIndex + 1;
      wire := wire + [BlockStart(idx, Some(ToolBlock(tool.id, tool.name)))];
      var inputJSON := opts.codec.marshal(tool.input);
      wire := wire + [BlockDelta(idx, Some(InputJsonDelta(inputJSON)))];
      wire := wire + [BlockStop(idx)];
    }

    method FinishMessage(stopReason: string, usage: Usage)
      modifies this
      ensures wire == old(wire) + Finish(opts, old(Value()), stopReason, usage).events
    {
      CloseActiveBlock();
      EnsureMessageStart();
      wire := wire + [MessageDelta(Some(stopReason), Some(usage))];
      wire := wire + [MessageStop];
    }
  }

  // ---- Attempts ----

  /** How an upstream call ended. */
  datatype Outcome = Failed(message: string) | Succeeded(upstreamStop: string, usage: Usage)

  /** One turn of the failover loop with an account in hand. */
  datatype Attempt =
    | BadToken
    | Upstream(opts: Options, cbs: seq<Callback>, outcome: Outcome)

  const MAX_ATTEMPTS := 3
  const FRESH_BLOCKS := Blocks(false, -1, Idle, 0)

  /** What an attempt has emitted when its upstream call returns. */
  function Emitting(a: Attempt): Emitted
    requires a.Upstream?
  {
    EmitAll(a.opts, FRESH_BLOCKS, Steps(INITIAL, a.opts.enabled, a.cbs).sent)
  }

  /** The whole answer given by an attempt that is not retried. */
  function Answer(a: Attempt): seq<Event>
    requires a.Upstream?
  {
    match a.outcome
    case Failed(message) =>
      Emitting(a).events + [ErrorEvent(message)]
    case Succeeded(upstreamStop, usage) =>
      var actions := Run(INITIAL, a.opts.enabled, a.cbs).sent;
      var e := EmitAll(a.opts, FRESH_BLOCKS, actions);
      e.events + Finish(a.opts, e.b, StopReason(actions, upstreamStop), usage).events
  }

  /** An attempt is retried if it failed before message_start. */
  predicate Retried(a: Attempt) {
    a.BadToken? || (a.outcome.Failed? && !Emitting(a).b.started)
  }

  method UseAll(em: Emitter, actions: seq<Action>)
    modifies em
    ensures var e := EmitAll(em.opts, old(em.Value()), actions); em.Value() == e.b && em.wire == old(em.wire) + e.events
  {
    var b0, w0 := em.Value(), em.wire;
    for i := 0 to |actions|
      invariant em.Value() == EmitAll(em.opts, b0, actions[..i]).b
      invariant em.wire == w0 + EmitAll(em.opts, b0, actions[..i]).events
    {
      EmitSnoc(em.opts, b0, actions, i);
      match actions[i] {
        case Send(text, phase) => em.Send(text, phase);
        case Use(tool) => em.Tool(tool);
      }
      Assoc(w0, EmitAll(em.opts, b0, actions[..i]).events, Emit(em.opts, EmitAll(em.opts, b0, actions[..i]).b, actions[i]).events);
    }
    assert actions[..|actions|] == actions;
  }

  lemma EmitSnoc(opts: Options, b: Blocks, actions: seq<Action>, i: nat)
    requires i < |actions|
    ensures var e := EmitAll(opts, b, actions[..i]);
            var e' := Emit(opts, e.b, actions[i]);
            EmitAll(opts, b, actions[..i + 1]) == Emitted(e'.b, e.events + e'.events)
  {
    assert actions[..i + 1] == actions[..i] + [actions[i]];
    EmitAppend(opts, b, actions[..i], [actions[i]]);
    assert [actions[i]][1..] == [];
    var e' := Emit(opts, EmitAll(opts, b, actions[..i]).b, actions[i]);
    assert e'.events + [] == e'.events;
  }

  /** One more upstream callback: what the splitter sends and the emitter writes for it. */
  lemma DeliverSnoc(opts: Options, b0: Blocks, cbs: seq<Callback>, i: nat)
    requires i < |cbs|
    ensures var before := Steps(INITIAL, opts.enabled, cbs[..i]);
            var after := Steps(INITIAL, opts.enabled, cbs[..i + 1]);
            var last := Step(before.st, opts.enabled, cbs[i]);
            var e := EmitAll(opts, b0, before.sent);
            var e' := EmitAll(opts, e.b, last.sent);
            && after.st == last.st
            && EmitAll(opts, b0, after.sent) == Emitted(e'.b, e.events + e'.events)
            && (Used(after.sent) <==> Used(before.sent) || cbs[i].OnToolUse?)
  {
    var before := Steps(INITIAL, opts.enabled, cbs[..i]);
    var last := Step(before.st, opts.enabled, cbs[i]);
    assert cbs[..i + 1] == cbs[..i] + [cbs[i]];
    StepsSnoc(INITIAL, opts.enabled, cbs[..i], cbs[i]);
    EmitAppend(opts, b0, before.sent, last.sent);
    UsedAppend(before.sent, last.sent);
    UsedStep(before.st, opts.enabled, cbs[i]);
  }

  /** The upstream callbacks of one attempt, each driving the splitter and then the emitter. */
  method Deliver(sp: Splitter, em: Emitter, cbs: seq<Callback>) returns (toolUses: nat)
    requires sp.Value() == INITIAL && sp.enabled == em.opts.enabled
    modifies sp, em
    ensures var r := Steps(INITIAL, em.opts.enabled, cbs);
            var e := EmitAll(em.opts, old(em.Value()), r.sent);
            && sp.Value() == r.st && em.Value() == e.b && em.wire == old(em.wire) + e.events
            && (toolUses > 0 <==> Used(r.sent))
  {
    toolUses := 0;
    ghost var b0, w0 := em.Value(), em.wire;
    ghost var r := Steps(INITIAL, em.opts.enabled, []);
    ghost var e := EmitAll(em.opts, b0, r.sent);
    for i := 0 to |cbs|
      invariant r == Steps(INITIAL, em.opts.enabled, cbs[..i]) && e == EmitAll(em.opts, b0, r.sent)
      invariant sp.Value() == r.st && em.Value() == e.b && em.wire == w0 + e.events
      invariant toolUses > 0 <==> Used(r.sent)
    {
      DeliverSnoc(em.opts, b0, cbs, i);
      var sent := DeliverOne(sp, cbs[i]);
      UseAll(em, sent);
      Assoc(w0, e.events, EmitAll(em.opts, e.b, sent).events);
      if cbs[i].OnToolUse? {
        toolUses := toolUses + 1;
      }
      r := Steps(INITIAL, em.opts.enabled, cbs[..i + 1]);
      e := EmitAll(em.opts, b0, r.sent);
    }
    assert cbs[..|cbs|] == cbs;
  }

  lemma UsedAppend(a: seq<Action>, b: seq<Action>)
    ensures Used(a + b) <==> Used(a) || Used(b)
  {
    if Used(b) {
      var i :| 0 <= i < |b| && b[i].Use?;
      assert (a + b)[|a| + i].Use?;
    }
    if Used(a) {
      var i :| 0 <= i < |a| && a[i].Use?;
      assert (a + b)[i].Use?;
    }
  }

  lemma {:induction false} UsedDrain(st: State, force: bool)
    ensures !Used(Drain(st, force).sent)
    decreases |st.buffer|
  {
    if Turn(st, force).again {
      UsedDrain(Turn(st, force).st, force);
      UsedAppend(Turn(st, force).sent, Drain(Turn(st, force).st, force).sent);
    }
  }

  lemma UsedProcess(st: State, enabled: bool, text: string, isThinking: bool, force: bool)
    ensures !Used(Process(st, enabled, text, isThinking, force).sent)
  {
    if !isThinking {
      UsedDrain(AfterEvents(st).(buffer := st.buffer + text), force);
      UsedAppend(SendIf(st.eventOpen, "", End), Drain(AfterEvents(st).(buffer := st.buffer + text), force).sent);
    }
  }

  lemma UsedStep(st: State, enabled: bool, cb: Callback)
    ensures Used(Step(st, enabled, cb).sent) <==> cb.OnToolUse?
  {
    match cb
    case OnText(text, isThinking) => UsedProcess(st, enabled, text, isThinking, false);
    case OnToolUse(tool) =>
      UsedProcess(st, enabled, "", false, true);
      UsedAppend(Process(st, enabled, "", false, true).sent, [Use(tool)]);
      assert [Use(tool)][0].Use?;
  }

  method DeliverOne(sp: Splitter, cb: Callback) returns (sent: seq<Action>)
    modifies sp
    ensures Result(sp.Value(), sent) == Step(old(sp.Value()), sp.enabled, cb)
  {
    match cb {
      case OnText(text, isThinking) =>
        if text == "" {
          return [];
        }
        sent := sp.ProcessText(text, isThinking, false);
      case OnToolUse(tool) =>
        sent := sp.ProcessText("", false, true);
        sent := sent + [Use(tool)];
    }
  }

  /** What one run of the failover loop sends as events: nothing if no attempt gets as far as message_start. */
  function Serve(attempts: seq<Attempt>, left: nat): seq<Event>
    decreases left
  {
    if left == 0 || attempts == [] then []
    else if Retried(attempts[0]) then Sends(attempts[0]) + Serve(attempts[1..], left - 1)
    else Sends(attempts[0])
  }

  /** What a successful attempt still has to send when its upstream call returns. */
  function Tail(opts: Options, st: State, b: Blocks, used: bool, upstreamStop: string, usage: Usage): seq<Event> {
    var e := EmitAll(opts, b, Process(st, opts.enabled, "", false, true).sent);
    var reason := if used then "tool_use" else if upstreamStop == "max_tokens" then "max_tokens" else "end_turn";
    e.events + Finish(opts, e.b, reason, usage).events
  }

  method Complete(sp: Splitter, em: Emitter, toolUses: nat, upstreamStop: string, usage: Usage)
    requires sp.enabled == em.opts.enabled
    modifies sp, em
    ensures em.wire == old(em.wire) + Tail(em.opts, old(sp.Value()), old(em.Value()), toolUses > 0, upstreamStop, usage)
  {
    ghost var w, b := em.wire, em.Value();
    var sent := sp.ProcessText("", false, true);
    UseAll(em, sent);
    var stopReason := "end_turn";
    if toolUses > 0 {
      stopReason := "tool_use";
    } else if upstreamStop == "max_tokens" {
      stopReason := "max_tokens";
    }
    ghost var e := EmitAll(em.opts, b, sent);
    Assoc(w, e.events, Finish(em.opts, e.b, stopReason, usage).events);
    em.FinishMessage(stopReason, usage);
  }

  lemma AnswerIsFlushed(a: Attempt)
    requires a.Upstream? && a.outcome.Succeeded?
    ensures var cut := Steps(INITIAL, a.opts.enabled, a.cbs);
            Answer(a) == Emitting(a).events
              + Tail(a.opts, cut.st, Emitting(a).b, Used(cut.sent), a.outcome.upstreamStop, a.outcome.usage)
  {
    var cut := Steps(INITIAL, a.opts.enabled, a.cbs);
    var flush := Process(cut.st, a.opts.enabled, "", false, true);
    RunIsSteps(INITIAL, a.opts.enabled, a.cbs);
    EmitAppend(a.opts, FRESH_BLOCKS, cut.sent, flush.sent);
    UsedAppend(cut.sent, flush.sent);
    UsedProcess(cut.st, a.opts.enabled, "", false, true);
    var e := EmitAll(a.opts, Emitting(a).b, flush.sent);
    Assoc(Emitting(a).events, e.events, Finish(a.opts, e.b, StopReason(cut.sent + flush.sent, a.outcome.upstreamStop), a.outcome.usage).events);
  }

  /** What an attempt sends, and whether the loop goes on to the next one. */
  function Sends(a: Attempt): seq<Event> {
    if a.BadToken? then [] else if Retried(a) then Emitting(a).events else Answer(a)
  }

  /** One turn of the failover loop; it goes on only while nothing has been sent. */
  method TryAttempt(a: Attempt, messageStarted: bool, wire: seq<Event>) returns (again: bool, messageStarted': bool, wire': seq<Event>)
    requires !messageStarted
    ensures again == Retried(a) && wire' == wire + Sends(a)
    ensures again ==> !messageStarted'
  {
    if a.BadToken? {
      assert wire + [] == wire;
      return true, messageStarted, wire;
    }
    again, messageStarted', wire' := CallUpstream(a.opts, a.cbs, a.outcome, messageStarted, wire);
  }

  method CallUpstream(opts: Options, cbs: seq<Callback>, outcome: Outcome, messageStarted: bool, wire: seq<Event>)
    returns (again: bool, messageStarted': bool, wire': seq<Event>)
    requires !messageStarted
    ensures again == Retried(Upstream(opts, cbs, outcome)) && wire' == wire + Sends(Upstream(opts, cbs, outcome))
    ensures again ==> !messageStarted'
  {
    ghost var a := Upstream(opts, cbs, outcome);
    ghost var emitting := Emitting(a);
    var sp := new Splitter(opts.enabled);
    var em := new Emitter(opts, messageStarted, wire);
    var toolUses := Deliver(sp, em, cbs);
    if outcome.Failed? {
      again := !em.messageStarted;
      wire' := em.wire;
      if !again {
        Assoc(wire, emitting.events, [ErrorEvent(outcome.message)]);
        wire' := wire' + [ErrorEvent(outcome.message)];
      }
    } else {
      ghost var cut := Steps(INITIAL, opts.enabled, cbs);
      AnswerIsFlushed(a);
      Assoc(wire, emitting.events, Tail(opts, cut.st, emitting.b, Used(cut.sent), outcome.upstreamStop, outcome.usage));
      Complete(sp, em, toolUses, outcome.upstreamStop, outcome.usage);
      again, wire' := false, em.wire;
    }
    messageStarted' := em.messageStarted;
  }

  /** The handler: up to three attempts, the next one only if nothing was sent yet. */
  method HandleClaudeStream(attempts: seq<Attempt>) returns (wire: seq<Event>)
    ensures wire == Serve(attempts, MAX_ATTEMPTS)
  {
    wire := [];
    var messageStarted := false;
    var attempt := 0;
    while attempt < MAX_ATTEMPTS && attempt < |attempts|
      invariant 0 <= attempt <= MAX_ATTEMPTS && attempt <= |attempts| && !messageStarted
      invariant Serve(attempts, MAX_ATTEMPTS) == wire + Serve(attempts[attempt..], MAX_ATTEMPTS - attempt)
    {
      ServeStep(attempts, attempt);
      ghost var rest := Serve(attempts[attempt + 1..], MAX_ATTEMPTS - attempt - 1);
      Assoc(wire, Sends(attempts[attempt]), rest);
      var again;
      again, messageStarted, wire := TryAttempt(attempts[attempt], messageStarted, wire);
      if !again {
        return;
      }
      attempt := attempt + 1;
    }
  }

  lemma ServeStep(attempts: seq<Attempt>, attempt: nat)
    requires attempt < MAX_ATTEMPTS && attempt < |attempts|
    ensures Serve(attempts[attempt..], MAX_ATTEMPTS - attempt)
         == if Retried(attempts[attempt]) then Sends(attempts[attempt]) + Serve(attempts[attempt + 1..], MAX_ATTEMPTS - attempt - 1)
            else Sends(attempts[attempt])
  {
    assert attempts[attempt..][0] == attempts[attempt] && attempts[attempt..][1..] == attempts[attempt + 1..];
  }
}
