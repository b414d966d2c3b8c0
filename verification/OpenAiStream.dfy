/** The OpenAI stream handler: the chunk sender, one attempt, and the failover loop around it. */
module OpenAiStream {
  import opened Text
  import opened Wire
  import opened ThinkingSplit

  /** How thinking is shown. `FieldFormat` is the default: a `reasoning_content` field. */
  datatype Format = TagFormat | ThinkFormat | FieldFormat

  datatype Chunk =
    | Content(text: string)
    | Reasoning(text: string)
    | ToolChunk(index: nat, tool: ToolUse)
    | FinishChunk(reason: string, input: int, output: int)
    | DoneMark

  datatype Options = Options(enabled: bool, format: Format)

  function NonEmpty(text: string): seq<Chunk> {
    if text == "" then [] else [Content(text)]
  }

  function Enclosed(open: string, text: string, close: string, phase: Phase): string {
    match phase
    case Begin => open + text
    case End => text + close
    case _ => text
  }

  /** What the send function writes for one call. */
  function Render(opts: Options, text: string, phase: Phase): seq<Chunk> {
    if phase == Visible then NonEmpty(text)
    else if !opts.enabled then []
    else match opts.format
      case TagFormat => NonEmpty(Enclosed(OPEN, text, CLOSE, phase))
      case ThinkFormat => NonEmpty(Enclosed("<think>", text, "</think>", phase))
      case FieldFormat => if text == "" then [] else [Reasoning(text)]
  }

  function Tools(actions: seq<Action>): nat {
    if actions == [] then 0 else ToolsIn(actions[0]) + Tools(actions[1..])
  }

  /** Everything written for a sequence of actions; `index` numbers the next tool call. */
  function RenderAll(opts: Options, index: nat, actions: seq<Action>): seq<Chunk>
    decreases |actions|
  {
    if actions == [] then []
    else RenderOne(opts, index, actions[0]) + RenderAll(opts, index + ToolsIn(actions[0]), actions[1..])
  }

  function RenderOne(opts: Options, index: nat, action: Action): seq<Chunk> {
    match action
    case Send(text, phase) => Render(opts, text, phase)
    case Use(tool) => [ToolChunk(index, tool)]
  }

  function ToolsIn(action: Action): nat {
    if action.Use? then 1 else 0
  }

  lemma {:induction false} RenderAppend(opts: Options, index: nat, a: seq<Action>, b: seq<Action>)
    ensures RenderAll(opts, index, a + b) == RenderAll(opts, index, a) + RenderAll(opts, index + Tools(a), b)
    ensures Tools(a + b) == Tools(a) + Tools(b)
    decreases |a|
  {
    if a == [] {
      assert a + b == b;
    } else {
      assert (a + b)[0] == a[0] && (a + b)[1..] == a[1..] + b;
      var rest := index + ToolsIn(a[0]);
      RenderAppend(opts, rest, a[1..], b);
      Assoc(RenderOne(opts, index, a[0]), RenderAll(opts, rest, a[1..]), RenderAll(opts, index + Tools(a), b));
    }
  }

  lemma RenderSnoc(opts: Options, index: nat, actions: seq<Action>, i: nat)
    requires i < |actions|
    ensures RenderAll(opts, index, actions[..i + 1])
         == RenderAll(opts, index, actions[..i]) + RenderOne(opts, index + Tools(actions[..i]), actions[i])
    ensures Tools(actions[..i + 1]) == Tools(actions[..i]) + ToolsIn(actions[i])
  {
    assert actions[..i + 1] == actions[..i] + [actions[i]];
    RenderAppend(opts, index, actions[..i], [actions[i]]);
    assert [actions[i]][1..] == [];
    var one := RenderOne(opts, index + Tools(actions[..i]), actions[i]);
    assert one + [] == one;
  }

  lemma RenderNext(wire: seq<Chunk>, opts: Options, index: nat, actions: seq<Action>, i: nat)
    requires i < |actions|
    ensures var before, after := RenderAll(opts, index, actions[..i]), RenderAll(opts, index, actions[..i + 1]);
            var one := RenderOne(opts, index + Tools(actions[..i]), actions[i]);
            wire + after == (wire + before) + one && (after == [] <==> before == [] && one == [])
    ensures Tools(actions[..i + 1]) == Tools(actions[..i]) + ToolsIn(actions[i])
  {
    RenderSnoc(opts, index, actions, i);
    Assoc(wire, RenderAll(opts, index, actions[..i]), RenderOne(opts, index + Tools(actions[..i]), actions[i]));
  }

  // ---- Attempts ----

  datatype Outcome = Failed(input: int, output: int) | Succeeded(input: int, output: int)

  datatype Attempt =
    | BadToken
    | Upstream(opts: Options, cbs: seq<Callback>, outcome: Outcome)

  const MAX_ATTEMPTS := 3

  /** The model said something the request can use, even if it is still held back in the buffer. */
  predicate Produced(enabled: bool, cbs: seq<Callback>) {
    exists i :: 0 <= i < |cbs| && ProducedBy(enabled, cbs[i])
  }

  predicate ProducedBy(enabled: bool, cb: Callback) {
    match cb
    case OnText(text, isThinking) => text != "" && (isThinking ==> enabled)
    case OnToolUse(_) => true
  }

  /** What the received callbacks deliver once the buffer is flushed. */
  function Body(a: Attempt): seq<Chunk>
    requires a.Upstream?
  {
    RenderAll(a.opts, 0, Run(INITIAL, a.opts.enabled, a.cbs).sent)
  }

  /** The whole answer given by an attempt that is not retried. */
  function Answer(a: Attempt): seq<Chunk>
    requires a.Upstream?
  {
    var actions := Run(INITIAL, a.opts.enabled, a.cbs).sent;
    var reason :=
      if a.outcome.Failed? then "length"
      else if Tools(actions) > 0 then "tool_calls"
      else "stop";
    Body(a) + [FinishChunk(reason, a.outcome.input, a.outcome.output), DoneMark]
  }

  predicate Retried(a: Attempt) {
    a.BadToken? || (a.outcome.Failed? && !Produced(a.opts.enabled, a.cbs))
  }

  /** What one run of the failover loop sends. */
  function Serve(attempts: seq<Attempt>, left: nat): seq<Chunk>
    decreases left
  {
    if left == 0 || attempts == [] then []
    else if Retried(attempts[0]) then Serve(attempts[1..], left - 1)
    else Answer(attempts[0])
  }

  /** The sender and the flags the error path looks at. */
  class Sender {
    const opts: Options
    var wire: seq<Chunk>
    var toolCallIndex: nat
    var responseStarted: bool
    var upstreamProduced: bool

    constructor (opts: Options, wire: seq<Chunk>)
      ensures this.opts == opts && this.wire == wire
      ensures toolCallIndex == 0 && !responseStarted && !upstreamProduced
    {
      this.opts := opts;
      this.wire := wire;
      toolCallIndex, responseStarted, upstreamProduced := 0, false, false;
    }

    method SendChunk(content: string, thinkingState: Phase)
      modifies this`wire, this`responseStarted
      ensures wire == old(wire) + Render(opts, content, thinkingState)
      ensures responseStarted == (old(responseStarted) || Render(opts, content, thinkingState) != [])
    {
      if content == "" && thinkingState == Middle {
        return;
      }
      var chunk: Chunk;
      if thinkingState != Visible {
        if !opts.enabled {
          return;
        }
        match opts.format {
          case TagFormat =>
            var text := content;
            match thinkingState {
              case Begin => text := "<thinking>" + content;
              case End => text := content + "</thinking>";
              case _ =>
            }
            if text == "" {
              return;
            }
            chunk := Content(text);
          case ThinkFormat =>
            var text := content;
            match thinkingState {
              case Begin => text := "<think>" + content;
              case End => text := content + "</think>";
              case _ =>
            }
            if text == "" {
              return;
            }
            chunk := Content(text);
          case FieldFormat =>
            if content == "" {
              return;
            }
            chunk := Reasoning(content);
        }
      } else {
        if content == "" {
          return;
        }
        chunk := Content(content);
      }
      wire := wire + [chunk];
      responseStarted := true;
    }

    method SendTool(tool: ToolUse)
      modifies this`wire, this`responseStarted, this`toolCallIndex
      ensures wire == old(wire) + [ToolChunk(old(toolCallIndex), tool)]
      ensures toolCallIndex == old(toolCallIndex) + 1 && responseStarted
    {
      wire := wire + [ToolChunk(toolCallIndex, tool)];
      toolCallIndex := toolCallIndex + 1;
      responseStarted := true;
    }

    method UseAll(actions: seq<Action>)
      modifies this`wire, this`responseStarted, this`toolCallIndex
      ensures wire == old(wire) + RenderAll(opts, old(toolCallIndex), actions)
      ensures toolCallIndex == old(toolCallIndex) + Tools(actions)
      ensures responseStarted == (old(responseStarted) || RenderAll(opts, old(toolCallIndex), actions) != [])
    {
      ghost var w0, n0, r0 := wire, toolCallIndex, responseStarted;
      for i := 0 to |actions|
        invariant wire == w0 + RenderAll(opts, n0, actions[..i])
        invariant toolCallIndex == n0 + Tools(actions[..i])
        invariant responseStarted == (r0 || RenderAll(opts, n0, actions[..i]) != [])
      {
        RenderNext(w0, opts, n0, actions, i);
        UseOne(actions[i]);
      }
      assert actions[..|actions|] == actions;
    }

    method UseOne(action: Action)
      modifies this`wire, this`responseStarted, this`toolCallIndex
      ensures wire == old(wire) + RenderOne(opts, old(toolCallIndex), action)
      ensures toolCallIndex == old(toolCallIndex) + ToolsIn(action)
      ensures responseStarted == (old(responseStarted) || RenderOne(opts, old(toolCallIndex), action) != [])
    {
      match action {
        case Send(text, phase) => SendChunk(text, phase);
        case Use(tool) => SendTool(tool);
      }
    }

    /** The two terminal lines of a stream. */
    method End(reason: string, input: int, output: int)
      modifies this`wire
      ensures wire == old(wire) + [FinishChunk(reason, input, output), DoneMark]
    {
      wire := wire + [FinishChunk(reason, input, output)];
      wire := wire + [DoneMark];
    }
  }

  /** One text callback, through the splitter to the sender. */
  method DeliverText(sp: Splitter, out: Sender, text: string, isThinking: bool)
    requires sp.enabled == out.opts.enabled
    modifies sp, out
    ensures var r := Step(old(sp.Value()), sp.enabled, OnText(text, isThinking));
            && sp.Value() == r.st
            && out.wire == old(out.wire) + RenderAll(out.opts, old(out.toolCallIndex), r.sent)
            && out.toolCallIndex == old(out.toolCallIndex) + Tools(r.sent)
    ensures out.upstreamProduced || out.responseStarted
        <==> old(out.upstreamProduced) || old(out.responseStarted) || ProducedBy(sp.enabled, OnText(text, isThinking))
  {
    if text == "" {
      assert out.wire + [] == out.wire;
      return;
    }
    SilentUnlessProduced(sp.Value(), sp.enabled, OnText(text, isThinking));
    if !(isThinking && !sp.enabled) {
      out.upstreamProduced := true;
    }
    var sent := sp.ProcessText(text, isThinking, false);
    out.UseAll(sent);
  }

  /** One tool use, behind the flush it forces. */
  method DeliverTool(sp: Splitter, out: Sender, tool: ToolUse)
    requires sp.enabled == out.opts.enabled
    modifies sp, out
    ensures var r := Step(old(sp.Value()), sp.enabled, OnToolUse(tool));
            && sp.Value() == r.st
            && out.wire == old(out.wire) + RenderAll(out.opts, old(out.toolCallIndex), r.sent)
            && out.toolCallIndex == old(out.toolCallIndex) + Tools(r.sent)
    ensures out.responseStarted
  {
    var sent := sp.ProcessText("", false, true);
    ToolBehind(out.wire, out.opts, out.toolCallIndex, sent, tool);
    out.UseAll(sent);
    out.SendTool(tool);
  }

  lemma ToolBehind(wire: seq<Chunk>, opts: Options, index: nat, sent: seq<Action>, tool: ToolUse)
    ensures (wire + RenderAll(opts, index, sent)) + [ToolChunk(index + Tools(sent), tool)] == wire + RenderAll(opts, index, sent + [Use(tool)])
    ensures Tools(sent + [Use(tool)]) == Tools(sent) + 1
  {
    RenderTool(opts, index, sent, tool);
    Assoc(wire, RenderAll(opts, index, sent), [ToolChunk(index + Tools(sent), tool)]);
  }

  method DeliverOne(sp: Splitter, out: Sender, cb: Callback)
    requires sp.enabled == out.opts.enabled
    modifies sp, out
    ensures var r := Step(old(sp.Value()), sp.enabled, cb);
            && sp.Value() == r.st
            && out.wire == old(out.wire) + RenderAll(out.opts, old(out.toolCallIndex), r.sent)
            && out.toolCallIndex == old(out.toolCallIndex) + Tools(r.sent)
    ensures out.upstreamProduced || out.responseStarted
        <==> old(out.upstreamProduced) || old(out.responseStarted) || ProducedBy(sp.enabled, cb)
  {
    match cb {
      case OnText(text, isThinking) => DeliverText(sp, out, text, isThinking);
      case OnToolUse(tool) => DeliverTool(sp, out, tool);
    }
  }

  lemma RenderTool(opts: Options, index: nat, sent: seq<Action>, tool: ToolUse)
    ensures RenderAll(opts, index, sent + [Use(tool)]) == RenderAll(opts, index, sent) + [ToolChunk(index + Tools(sent), tool)]
    ensures Tools(sent + [Use(tool)]) == Tools(sent) + 1
  {
    RenderAppend(opts, index, sent, [Use(tool)]);
    assert [Use(tool)][1..] == [];
  }

  /** A callback the request cannot use sends nothing. */
  lemma SilentUnlessProduced(st: State, enabled: bool, cb: Callback)
    ensures ProducedBy(enabled, cb) || Step(st, enabled, cb) == Result(st, [])
  {
  }

  /** One more upstream callback: what the splitter sends and the sender writes for it. */
  lemma DeliverSnoc(opts: Options, cbs: seq<Callback>, i: nat)
    requires i < |cbs|
    ensures var before := Steps(INITIAL, opts.enabled, cbs[..i]);
            var after := Steps(INITIAL, opts.enabled, cbs[..i + 1]);
            var last := Step(before.st, opts.enabled, cbs[i]);
            && after.st == last.st
            && RenderAll(opts, 0, after.sent) == RenderAll(opts, 0, before.sent) + RenderAll(opts, Tools(before.sent), last.sent)
            && Tools(after.sent) == Tools(before.sent) + Tools(last.sent)
  {
    var before := Steps(INITIAL, opts.enabled, cbs[..i]);
    PrefixSteps(opts.enabled, cbs, i);
    RenderJoined(opts, before.sent, Step(before.st, opts.enabled, cbs[i]).sent, Steps(INITIAL, opts.enabled, cbs[..i + 1]).sent);
  }

  lemma RenderJoined(opts: Options, a: seq<Action>, b: seq<Action>, both: seq<Action>)
    requires both == a + b
    ensures RenderAll(opts, 0, both) == RenderAll(opts, 0, a) + RenderAll(opts, Tools(a), b) && Tools(both) == Tools(a) + Tools(b)
  {
    RenderAppend(opts, 0, a, b);
  }

  lemma PrefixSteps(enabled: bool, cbs: seq<Callback>, i: nat)
    requires i < |cbs|
    ensures var before := Steps(INITIAL, enabled, cbs[..i]);
            var last := Step(before.st, enabled, cbs[i]);
            Steps(INITIAL, enabled, cbs[..i + 1]) == Result(last.st, before.sent + last.sent)
  {
    assert cbs[..i + 1] == cbs[..i] + [cbs[i]];
    StepsSnoc(INITIAL, enabled, cbs[..i], cbs[i]);
  }

  lemma ProducedSnoc(enabled: bool, cbs: seq<Callback>, i: nat)
    requires i < |cbs|
    ensures Produced(enabled, cbs[..i + 1]) <==> Produced(enabled, cbs[..i]) || ProducedBy(enabled, cbs[i])
  {
    if Produced(enabled, cbs[..i]) {
      var j :| 0 <= j < i && ProducedBy(enabled, cbs[..i][j]);
      assert cbs[..i + 1][j] == cbs[..i][j];
    }
    assert cbs[..i + 1][i] == cbs[i];
  }

  /** The upstream callbacks of one attempt. */
  method Deliver(sp: Splitter, out: Sender, cbs: seq<Callback>)
    requires sp.Value() == INITIAL && sp.enabled == out.opts.enabled
    requires out.toolCallIndex == 0 && !out.upstreamProduced && !out.responseStarted
    modifies sp, out
    ensures var r := Steps(INITIAL, sp.enabled, cbs);
            && sp.Value() == r.st
            && out.wire == old(out.wire) + RenderAll(out.opts, 0, r.sent)
            && out.toolCallIndex == Tools(r.sent)
    ensures out.upstreamProduced || out.responseStarted <==> Produced(sp.enabled, cbs)
  {
    ghost var w0 := out.wire;
    ghost var r := Steps(INITIAL, sp.enabled, []);
    assert w0 + [] == w0;
    for i := 0 to |cbs|
      invariant r == Steps(INITIAL, sp.enabled, cbs[..i])
      invariant sp.Value() == r.st
      invariant out.wire == w0 + RenderAll(out.opts, 0, r.sent) && out.toolCallIndex == Tools(r.sent)
      invariant out.upstreamProduced || out.responseStarted <==> Produced(sp.enabled, cbs[..i])
    {
      DeliverSnoc(out.opts, cbs, i);
      ProducedSnoc(sp.enabled, cbs, i);
      Assoc(w0, RenderAll(out.opts, 0, r.sent), RenderAll(out.opts, Tools(r.sent), Step(r.st, sp.enabled, cbs[i]).sent));
      DeliverOne(sp, out, cbs[i]);
      r := Steps(INITIAL, sp.enabled, cbs[..i + 1]);
    }
    assert cbs[..|cbs|] == cbs;
  }

  /** What an upstream call sends: nothing if it is retried, else the whole answer. */
  method CallUpstream(opts: Options, cbs: seq<Callback>, outcome: Outcome, wire: seq<Chunk>)
    returns (again: bool, wire': seq<Chunk>)
    ensures again == Retried(Upstream(opts, cbs, outcome))
    ensures wire' == if again then wire else wire + Answer(Upstream(opts, cbs, outcome))
  {
    ghost var cut := Steps(INITIAL, opts.enabled, cbs);
    var sp := new Splitter(opts.enabled);
    var out := new Sender(opts, wire);
    Deliver(sp, out, cbs);
    if outcome.Failed? && !out.responseStarted && !out.upstreamProduced {
      UnproducedIsSilent(INITIAL, opts.enabled, cbs);
      assert wire + [] == wire;
      return true, out.wire;
    }
    var sent := sp.ProcessText("", false, true);
    AnswerIsFlushed(Upstream(opts, cbs, outcome), wire);
    out.UseAll(sent);
    var reason := "length";
    if outcome.Succeeded? {
      reason := if out.toolCallIndex > 0 then "tool_calls" else "stop";
    }
    out.End(reason, outcome.input, outcome.output);
    return false, out.wire;
  }

  /** An answer is what was delivered, what the final flush adds, and the end. */
  lemma AnswerIsFlushed(a: Attempt, wire: seq<Chunk>)
    requires a.Upstream?
    ensures var cut := Steps(INITIAL, a.opts.enabled, a.cbs);
            var sent := Process(cut.st, a.opts.enabled, "", false, true).sent;
            var tools := Tools(cut.sent) + Tools(sent);
            var reason := if a.outcome.Failed? then "length" else if tools > 0 then "tool_calls" else "stop";
            wire + Answer(a) == ((wire + RenderAll(a.opts, 0, cut.sent)) + RenderAll(a.opts, Tools(cut.sent), sent))
                                + [FinishChunk(reason, a.outcome.input, a.outcome.output), DoneMark]
  {
    BodyIsFlushed(a);
    var cut := Steps(INITIAL, a.opts.enabled, a.cbs);
    var sent := Process(cut.st, a.opts.enabled, "", false, true).sent;
    var tools := Tools(cut.sent) + Tools(sent);
    var reason := if a.outcome.Failed? then "length" else if tools > 0 then "tool_calls" else "stop";
    FourParts(wire, RenderAll(a.opts, 0, cut.sent), RenderAll(a.opts, Tools(cut.sent), sent),
              [FinishChunk(reason, a.outcome.input, a.outcome.output), DoneMark]);
  }

  lemma BodyIsFlushed(a: Attempt)
    requires a.Upstream?
    ensures var cut := Steps(INITIAL, a.opts.enabled, a.cbs);
            var sent := Process(cut.st, a.opts.enabled, "", false, true).sent;
            && Body(a) == RenderAll(a.opts, 0, cut.sent) + RenderAll(a.opts, Tools(cut.sent), sent)
            && Tools(Run(INITIAL, a.opts.enabled, a.cbs).sent) == Tools(cut.sent) + Tools(sent)
  {
    RunIsSteps(INITIAL, a.opts.enabled, a.cbs);
    var cut := Steps(INITIAL, a.opts.enabled, a.cbs);
    RenderAppend(a.opts, 0, cut.sent, Process(cut.st, a.opts.enabled, "", false, true).sent);
  }

  lemma FourParts<T>(a: seq<T>, b: seq<T>, c: seq<T>, d: seq<T>)
    ensures a + ((b + c) + d) == ((a + b) + c) + d
  {
  }

  lemma {:induction false} UnproducedIsSilent(st: State, enabled: bool, cbs: seq<Callback>)
    requires !Produced(enabled, cbs)
    ensures Steps(st, enabled, cbs) == Result(st, [])
    decreases |cbs|
  {
    if cbs != [] {
      assert !ProducedBy(enabled, cbs[0]);
      SilentUnlessProduced(st, enabled, cbs[0]);
      forall i | 0 <= i < |cbs[1..]|
        ensures !ProducedBy(enabled, cbs[1..][i])
      {
        assert cbs[1..][i] == cbs[i + 1];
      }
      UnproducedIsSilent(st, enabled, cbs[1..]);
    }
  }

  /** The handler: up to three attempts, the next one only if nothing was said yet. */
  method HandleOpenAIStream(attempts: seq<Attempt>) returns (wire: seq<Chunk>)
    ensures wire == Serve(attempts, MAX_ATTEMPTS)
  {
    wire := [];
    var attempt := 0;
    while attempt < MAX_ATTEMPTS && attempt < |attempts|
      invariant 0 <= attempt <= MAX_ATTEMPTS && attempt <= |attempts| && wire == []
      invariant Serve(attempts, MAX_ATTEMPTS) == Serve(attempts[attempt..], MAX_ATTEMPTS - attempt)
    {
      var a := attempts[attempt];
      assert attempts[attempt..][0] == a && attempts[attempt..][1..] == attempts[attempt + 1..];
      if a.Upstream? {
        var again;
        again, wire := CallUpstream(a.opts, a.cbs, a.outcome, wire);
        if !again {
          return;
        }
      }
      attempt := attempt + 1;
    }
  }
}
