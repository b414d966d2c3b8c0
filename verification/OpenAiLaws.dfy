/** What the OpenAI stream handler promises over whole runs, failing ones included. */
module OpenAiLaws {
  import opened Failover
  import opened Text
  import opened Wire
  import opened ThinkingSplit
  import opened SplitLaws
  import opened OpenAiStream
  import T = ThinkingTags
  import C = ClaudeStream

  /** One account per answer: the client gets nothing, or the answer of a single attempt. */
  lemma {:induction false} OneAccountPerAnswer(attempts: seq<Attempt>, left: nat)
    ensures var k := Answering(Retried, attempts, left);
            Serve(attempts, left) == if k < 0 then [] else Answer(attempts[k])
    decreases left
  {
    if left > 0 && attempts != [] && Retried(attempts[0]) {
      OneAccountPerAnswer(attempts[1..], left - 1);
    }
  }

  /** What chunks deliver, character by character. */
  function ChunkMarks(chunks: seq<Chunk>): seq<Mark> {
    if chunks == [] then [] else MarksIn(chunks[0]) + ChunkMarks(chunks[1..])
  }

  function MarksIn(chunk: Chunk): seq<Mark> {
    match chunk
    case Content(text) => Paint(text, false)
    case Reasoning(text) => Paint(text, true)
    case ToolChunk(_, tool) => [Tool(tool)]
    case _ => []
  }

  lemma {:induction false} ChunkMarksAppend(a: seq<Chunk>, b: seq<Chunk>)
    ensures ChunkMarks(a + b) == ChunkMarks(a) + ChunkMarks(b)
  {
    if a == [] {
      assert a + b == b;
    } else {
      assert (a + b)[0] == a[0] && (a + b)[1..] == a[1..] + b;
      ChunkMarksAppend(a[1..], b);
      Assoc(MarksIn(a[0]), ChunkMarks(a[1..]), ChunkMarks(b));
    }
  }

  lemma RenderedOne(opts: Options, index: nat, action: Action)
    requires !opts.enabled || opts.format == FieldFormat
    ensures ChunkMarks(RenderOne(opts, index, action)) == if opts.enabled then MarksOf(action) else VisibleOf(MarksOf(action))
  {
    var one := RenderOne(opts, index, action);
    assert one != [] ==> one[1..] == [] && MarksIn(one[0]) + [] == MarksIn(one[0]);
    match action
    case Send(text, phase) => WithoutPaint(true, text, phase != Visible);
    case Use(tool) => WithoutTool(true, [], tool);
  }

  /** What the first action renders comes in front. */
  lemma RenderedFirst(opts: Options, index: nat, actions: seq<Action>)
    requires actions != []
    ensures ChunkMarks(RenderAll(opts, index, actions))
         == ChunkMarks(RenderOne(opts, index, actions[0])) + ChunkMarks(RenderAll(opts, index + ToolsIn(actions[0]), actions[1..]))
  {
    ChunkMarksAppend(RenderOne(opts, index, actions[0]), RenderAll(opts, index + ToolsIn(actions[0]), actions[1..]));
  }

  /** With thinking in its own field, the chunks deliver exactly the actions; with thinking off, their visible half. */
  lemma Rendered(opts: Options, index: nat, actions: seq<Action>)
    requires !opts.enabled || opts.format == FieldFormat
    ensures ChunkMarks(RenderAll(opts, index, actions)) == if opts.enabled then Marks(actions) else VisibleOf(Marks(actions))
  {
    if opts.enabled {
      RenderedFully(opts, index, actions);
    } else {
      RenderedVisibly(opts, index, actions);
    }
  }

  lemma {:induction false} RenderedFully(opts: Options, index: nat, actions: seq<Action>)
    requires opts.enabled && opts.format == FieldFormat
    ensures ChunkMarks(RenderAll(opts, index, actions)) == Marks(actions)
    decreases |actions|
  {
    if actions != [] {
      RenderedOne(opts, index, actions[0]);
      RenderedFully(opts, index + ToolsIn(actions[0]), actions[1..]);
      RenderedFirst(opts, index, actions);
    }
  }

  lemma {:induction false} RenderedVisibly(opts: Options, index: nat, actions: seq<Action>)
    requires !opts.enabled
    ensures ChunkMarks(RenderAll(opts, index, actions)) == VisibleOf(Marks(actions))
    decreases |actions|
  {
    if actions != [] {
      RenderedOne(opts, index, actions[0]);
      RenderedVisibly(opts, index + ToolsIn(actions[0]), actions[1..]);
      RenderedFirst(opts, index, actions);
      VisibleOfFirst(actions);
    }
  }

  lemma VisibleOfFirst(actions: seq<Action>)
    requires actions != []
    ensures VisibleOf(Marks(actions)) == VisibleOf(MarksOf(actions[0])) + VisibleOf(Marks(actions[1..]))
  {
    WithoutAppend(true, MarksOf(actions[0]), Marks(actions[1..]));
  }

  /** A content chunk: neither the finish chunk nor the terminal line. */
  predicate IsContent(chunk: Chunk) {
    !chunk.FinishChunk? && !chunk.DoneMark?
  }

  lemma {:induction false} RenderedIsContent(opts: Options, index: nat, actions: seq<Action>)
    ensures forall i :: 0 <= i < |RenderAll(opts, index, actions)| ==> IsContent(RenderAll(opts, index, actions)[i])
    decreases |actions|
  {
    if actions != [] {
      RenderedIsContent(opts, index + ToolsIn(actions[0]), actions[1..]);
    }
  }

  /** The tags of the formats that show thinking as content. */
  function TagsOf(format: Format): T.Tags {
    if format == TagFormat then T.KEPT else T.Tags("<think>", "</think>")
  }

  lemma ShownOne(opts: Options, index: nat, action: Action)
    requires opts.enabled && opts.format != FieldFormat
    ensures ChunkMarks(RenderOne(opts, index, action)) == T.ContentOf(TagsOf(opts.format), action)
  {
    var one := RenderOne(opts, index, action);
    assert one != [] ==> one[1..] == [] && MarksIn(one[0]) + [] == MarksIn(one[0]);
  }

  /** With thinking shown between tags, the chunks deliver exactly that content. */
  lemma {:induction false} RenderedContent(opts: Options, index: nat, actions: seq<Action>)
    requires opts.enabled && opts.format != FieldFormat
    ensures ChunkMarks(RenderAll(opts, index, actions)) == T.Content(TagsOf(opts.format), actions)
    decreases |actions|
  {
    if actions != [] {
      var rest := index + ToolsIn(actions[0]);
      ShownOne(opts, index, actions[0]);
      RenderedContent(opts, rest, actions[1..]);
      RenderedFirst(opts, index, actions);
    }
  }

  /** What a client is to be shown of the text received, in one pass over it, section by section between the tool uses. */
  function Shown(opts: Options, cbs: seq<Callback>): seq<Mark> {
    if !opts.enabled then VisibleOf(SplitStream(false, "", cbs))
    else if opts.format == FieldFormat then SplitStream(false, "", cbs)
    else T.RetagStream(TagsOf(opts.format), T.Outside, "", cbs)
  }

  /** How a well-bracketed sequence of sends is shown in each format. */
  function ShownOf(opts: Options, actions: seq<Action>): seq<Mark> {
    if !opts.enabled then VisibleOf(Marks(actions))
    else if opts.format == FieldFormat then Marks(actions)
    else T.Content(TagsOf(opts.format), actions)
  }

  /**
   The chunks show some well-bracketed sequence of sends that holds every visible character of the received
   text, in order and with the tool uses in their places, and all of the thinking of one source.
   */
  ghost predicate ShowsEverything(opts: Options, cbs: seq<Callback>, marks: seq<Mark>) {
    exists actions :: marks == ShownOf(opts, actions) && HoldsEverything(cbs, actions)
  }

  lemma BodyIsShown(a: Attempt)
    requires a.Upstream?
    ensures ChunkMarks(Body(a)) == ShownOf(a.opts, Run(INITIAL, a.opts.enabled, a.cbs).sent)
  {
    var actions := Run(INITIAL, a.opts.enabled, a.cbs).sent;
    if a.opts.enabled && a.opts.format != FieldFormat {
      RenderedContent(a.opts, 0, actions);
    } else {
      Rendered(a.opts, 0, actions);
    }
  }

  /** Unless reasoning events claimed the attempt, that is exactly what one pass over the text shows. */
  lemma UnclaimedIsShown(opts: Options, cbs: seq<Callback>)
    requires Claimed(opts.enabled, "", cbs) != ReasoningEvent
    ensures ShownOf(opts, Run(INITIAL, opts.enabled, cbs).sent) == Shown(opts, cbs)
  {
    RunIsClaimed(opts.enabled, cbs);
    RunExact(INITIAL, opts.enabled, cbs);
    if opts.enabled && opts.format != FieldFormat {
      T.RunRetags(TagsOf(opts.format), INITIAL, opts.enabled, cbs);
    }
  }

  /** Whatever reasoning events, tags and tool uses interleave, in every format. */
  lemma NothingVisibleLost(a: Attempt)
    requires a.Upstream? && !Retried(a)
    ensures a.opts.enabled ==> ShowsEverything(a.opts, a.cbs, ChunkMarks(Body(a)))
    ensures !a.opts.enabled ==> ChunkMarks(Body(a)) == VisibleOf(SplitStream(false, "", a.cbs))
  {
    var actions := Run(INITIAL, a.opts.enabled, a.cbs).sent;
    BodyIsShown(a);
    SingleSource(a.opts.enabled, a.cbs);
    RunHoldsEverything(a.cbs);
  }

  /**
   Nothing lost, on every run and in every thinking format: an answer, even of an attempt that failed after
   the model said something, shows everything received, followed by exactly one finish chunk and one [DONE].
   Unless reasoning events claimed the attempt, what it shows is exactly determined by the text received.
   */
  lemma NothingLost(a: Attempt)
    requires !Retried(a)
    ensures var n := |Answer(a)|;
            var body := Answer(a)[..n - 2];
            && n >= 2
            && (if a.opts.enabled then ShowsEverything(a.opts, a.cbs, ChunkMarks(body))
                else ChunkMarks(body) == VisibleOf(SplitStream(false, "", a.cbs)))
            && (Claimed(a.opts.enabled, "", a.cbs) != ReasoningEvent ==> ChunkMarks(body) == Shown(a.opts, a.cbs))
            && (forall i :: 0 <= i < |body| ==> IsContent(body[i]))
            && Answer(a)[n - 2].FinishChunk? && (a.outcome.Failed? ==> Answer(a)[n - 2].reason == "length")
            && Answer(a)[n - 1] == DoneMark
  {
    assert Answer(a)[..|Answer(a)| - 2] == Body(a);
    RenderedIsContent(a.opts, 0, Run(INITIAL, a.opts.enabled, a.cbs).sent);
    NothingVisibleLost(a);
    BodyIsShown(a);
    if Claimed(a.opts.enabled, "", a.cbs) != ReasoningEvent {
      UnclaimedIsShown(a.opts, a.cbs);
    }
  }

  /** In particular when no reasoning events get through. */
  lemma NothingLostWithoutEvents(a: Attempt)
    requires !Retried(a) && NoEvents(a.opts.enabled, a.cbs)
    ensures ChunkMarks(Body(a)) == Shown(a.opts, a.cbs)
  {
    NoEventsClaimNothing(a.opts.enabled, "", a.cbs);
    BodyIsShown(a);
    UnclaimedIsShown(a.opts, a.cbs);
  }

  function ToolIndices(chunks: seq<Chunk>): seq<nat> {
    if chunks == [] then []
    else (if chunks[0].ToolChunk? then [chunks[0].index] else []) + ToolIndices(chunks[1..])
  }

  lemma {:induction false} ToolIndicesAppend(a: seq<Chunk>, b: seq<Chunk>)
    ensures ToolIndices(a + b) == ToolIndices(a) + ToolIndices(b)
  {
    if a == [] {
      assert a + b == b;
    } else {
      assert (a + b)[0] == a[0] && (a + b)[1..] == a[1..] + b;
      ToolIndicesAppend(a[1..], b);
    }
  }

  /** Tool calls are numbered 0, 1, 2, ... in the order they are sent. */
  lemma {:induction false} ToolsAreNumbered(opts: Options, index: nat, actions: seq<Action>)
    ensures var indices := ToolIndices(RenderAll(opts, index, actions));
            |indices| == Tools(actions) && forall i :: 0 <= i < |indices| ==> indices[i] == index + i
    decreases |actions|
  {
    if actions != [] {
      var one := RenderOne(opts, index, actions[0]);
      var rest := index + ToolsIn(actions[0]);
      ToolsAreNumbered(opts, rest, actions[1..]);
      ToolIndicesAppend(one, RenderAll(opts, rest, actions[1..]));
      assert one != [] ==> one[1..] == [];
    }
  }

  // ---- Which attempt answers ----

  /** Something that a client can use: a tool use, visible text, or thinking where it is shown. */
  predicate Useful(enabled: bool, cb: Callback) {
    cb.OnToolUse? || (cb.text != "" && (enabled || !cb.isThinking))
  }

  predicate UsedTool(cbs: seq<Callback>) {
    exists i :: 0 <= i < |cbs| && cbs[i].OnToolUse?
  }

  /** An attempt with a token that succeeded, or that received anything useful before it failed. */
  predicate Speaks(a: Attempt) {
    a.Upstream? && (a.outcome.Succeeded? || exists i :: 0 <= i < |a.cbs| && Useful(a.opts.enabled, a.cbs[i]))
  }

  lemma SpeaksIff(a: Attempt)
    ensures Speaks(a) <==> !Retried(a)
  {
    if a.Upstream? {
      assert forall i :: 0 <= i < |a.cbs| ==> (Useful(a.opts.enabled, a.cbs[i]) <==> ProducedBy(a.opts.enabled, a.cbs[i]));
      if i :| 0 <= i < |a.cbs| && Useful(a.opts.enabled, a.cbs[i]) {
        assert ProducedBy(a.opts.enabled, a.cbs[i]);
      }
      if i :| 0 <= i < |a.cbs| && ProducedBy(a.opts.enabled, a.cbs[i]) {
        assert Useful(a.opts.enabled, a.cbs[i]);
      }
    }
  }

  lemma {:induction false} ToolsOfRun(st: State, enabled: bool, cbs: seq<Callback>)
    ensures Tools(Run(st, enabled, cbs).sent) > 0 <==> UsedTool(cbs)
    decreases |cbs|
  {
    if cbs == [] {
      C.UsedProcess(st, enabled, "", false, true);
      ToolsAreUses(Process(st, enabled, "", false, true).sent);
    } else {
      var first := Step(st, enabled, cbs[0]);
      ToolsOfRun(first.st, enabled, cbs[1..]);
      C.UsedStep(st, enabled, cbs[0]);
      ToolsAreUses(first.sent);
      RenderAppend(Options(false, FieldFormat), 0, first.sent, Run(first.st, enabled, cbs[1..]).sent);
      if i :| 0 <= i < |cbs| && cbs[i].OnToolUse? {
        assert i > 0 ==> cbs[1..][i - 1].OnToolUse?;
      }
      if i :| 0 <= i < |cbs[1..]| && cbs[1..][i].OnToolUse? {
        assert cbs[i + 1].OnToolUse?;
      }
    }
  }

  lemma {:induction false} ToolsAreUses(actions: seq<Action>)
    ensures Tools(actions) > 0 <==> C.Used(actions)
  {
    if actions != [] {
      ToolsAreUses(actions[1..]);
      if i :| 0 <= i < |actions| && actions[i].Use? {
        assert i > 0 ==> actions[1..][i - 1].Use?;
      }
      if i :| 0 <= i < |actions[1..]| && actions[1..][i].Use? {
        assert actions[i + 1].Use?;
      }
    }
  }

  /** The lines an answer ends with: why it ended, with its token counts, and the terminal line. */
  function Ending(a: Attempt): seq<Chunk>
    requires a.Upstream?
  {
    var reason := if a.outcome.Failed? then "length" else if UsedTool(a.cbs) then "tool_calls" else "stop";
    [FinishChunk(reason, a.outcome.input, a.outcome.output), DoneMark]
  }

  /** An answer of this attempt: everything it received, and nothing but that and its two last lines. */
  ghost predicate IsAnswer(a: Attempt, wire: seq<Chunk>)
    requires a.Upstream?
  {
    var n := |wire|;
    && n >= 2 && wire[n - 2..] == Ending(a)
    && (forall i :: 0 <= i < n - 2 ==> IsContent(wire[i]))
    && var marks := ChunkMarks(wire[..n - 2]);
       && (if a.opts.enabled then ShowsEverything(a.opts, a.cbs, marks) else marks == VisibleOf(SplitStream(false, "", a.cbs)))
       && (Claimed(a.opts.enabled, "", a.cbs) != ReasoningEvent ==> marks == Shown(a.opts, a.cbs))
  }

  lemma AnswerIsOne(a: Attempt)
    requires Speaks(a)
    ensures IsAnswer(a, Answer(a))
  {
    SpeaksIff(a);
    NothingLost(a);
    ToolsOfRun(INITIAL, a.opts.enabled, a.cbs);
    var wire := Answer(a);
    assert wire[|wire| - 2..] == Ending(a);
    assert forall i :: 0 <= i < |wire| - 2 ==> wire[i] == wire[..|wire| - 2][i];
  }

  /** The first of the attempts allowed that speaks. */
  ghost predicate FirstToSpeak(attempts: seq<Attempt>, k: nat) {
    k < 3 && k < |attempts| && Speaks(attempts[k]) && forall i :: 0 <= i < k ==> !Speaks(attempts[i])
  }

  /** Who answers, in terms of who speaks. */
  lemma AnswersIsSpeaks(attempts: seq<Attempt>, k: int)
    requires k == Answering(Retried, attempts, MAX_ATTEMPTS)
    ensures k >= 0 ==> FirstToSpeak(attempts, k)
    ensures k < 0 ==> forall i :: 0 <= i < 3 && i < |attempts| ==> !Speaks(attempts[i])
  {
    forall i | 0 <= i < |attempts|
      ensures Speaks(attempts[i]) <==> !Retried(attempts[i])
    {
      SpeaksIff(attempts[i]);
    }
  }

  lemma FirstIsUnique(attempts: seq<Attempt>, j: nat, k: nat)
    requires FirstToSpeak(attempts, j) && FirstToSpeak(attempts, k)
    ensures j == k
  {
  }

  lemma WhoAnswers(attempts: seq<Attempt>, k: nat)
    ensures FirstToSpeak(attempts, k) ==> Serve(attempts, MAX_ATTEMPTS) == Answer(attempts[k])
    ensures (forall i :: 0 <= i < 3 && i < |attempts| ==> !Speaks(attempts[i])) ==> Serve(attempts, MAX_ATTEMPTS) == []
  {
    var j := Answering(Retried, attempts, MAX_ATTEMPTS);
    OneAccountPerAnswer(attempts, MAX_ATTEMPTS);
    AnswersIsSpeaks(attempts, j);
    if j >= 0 && FirstToSpeak(attempts, k) {
      FirstIsUnique(attempts, j, k);
    }
  }

  /**
   Whom the client hears, told by callbacks and outcomes: the first of three attempts that succeeded, or that received
   anything useful before it failed, even if that was still held back. It hears everything that attempt received,
   one finish chunk and one [DONE]; and nothing at all if there is no such attempt.
   */
  lemma FirstToSpeakAnswers(attempts: seq<Attempt>, k: nat)
    ensures FirstToSpeak(attempts, k) ==> IsAnswer(attempts[k], Serve(attempts, MAX_ATTEMPTS))
    ensures (forall i :: 0 <= i < 3 && i < |attempts| ==> !Speaks(attempts[i])) ==> Serve(attempts, MAX_ATTEMPTS) == []
  {
    WhoAnswers(attempts, k);
    if FirstToSpeak(attempts, k) {
      AnswerIsOne(attempts[k]);
    }
  }
}
