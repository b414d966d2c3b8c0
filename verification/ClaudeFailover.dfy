/** Which attempt a client of the Claude stream hears, told by callbacks and outcomes. */
module ClaudeFailover {
  import opened Failover
  import opened Basics
  import opened Text
  import opened Wire
  import opened ThinkingSplit
  import opened SplitLaws
  import opened HeldBack
  import opened ClaudeEvents
  import opened ClaudeStream
  import opened ClaudeLaws
  import opened ClaudeReading
  import T = ThinkingTags

  // ---- What starts a message ----

  /** An action that something is written for. */
  predicate Emits(opts: Options, action: Action) {
    match action
    case Use(_) => true
    case Send(text, phase) =>
      if phase == Visible then text != ""
      else if !opts.enabled then false
      else if opts.format == BlockFormat && opts.omit then phase != Middle
      else text != "" || (opts.format == ThinkFormat && phase != Middle)
  }

  /** Formats in which even an empty thinking block leaves a trace: its tags, or a block without content. */
  predicate MarksEmpty(opts: Options) {
    opts.format == ThinkFormat || (opts.format == BlockFormat && opts.omit)
  }

  ghost predicate AnyEmits(opts: Options, actions: seq<Action>) {
    exists i :: 0 <= i < |actions| && Emits(opts, actions[i])
  }

  lemma AnyAppend(opts: Options, a: seq<Action>, b: seq<Action>)
    ensures AnyEmits(opts, a + b) <==> AnyEmits(opts, a) || AnyEmits(opts, b)
  {
    if i :| 0 <= i < |a| && Emits(opts, a[i]) {
      assert Emits(opts, (a + b)[i]);
    }
    if i :| 0 <= i < |b| && Emits(opts, b[i]) {
      assert Emits(opts, (a + b)[|a| + i]);
    }
  }

  lemma EmitStarts(opts: Options, b: Blocks, action: Action)
    requires Tidy(b)
    ensures Emit(opts, b, action).b.started <==> b.started || Emits(opts, action)
  {
  }

  lemma {:induction false} EmitAllStarts(opts: Options, b: Blocks, actions: seq<Action>)
    requires Tidy(b)
    ensures EmitAll(opts, b, actions).b.started <==> b.started || AnyEmits(opts, actions)
    decreases |actions|
  {
    if actions != [] {
      var first, rest := [actions[0]], actions[1..];
      EmitStarts(opts, b, actions[0]);
      EmitReads(opts, b, first);
      FirstTidy(opts, b, actions[0]);
      EmitAllStarts(opts, Emit(opts, b, actions[0]).b, rest);
      assert actions == first + rest;
      AnyAppend(opts, first, rest);
      assert AnyEmits(opts, first) <==> Emits(opts, first[0]);
    }
  }

  lemma FirstTidy(opts: Options, b: Blocks, action: Action)
    requires Tidy(b)
    ensures Tidy(Emit(opts, b, action).b)
  {
    match action
    case Send(text, phase) => SendReads(opts, b, text, phase);
    case Use(tool) => ToolReads(opts, b, tool);
  }

  /**
   Text that gets a message started, by itself and without a flush: more than 50 characters outside a block or any
   in front of one, and where thinking is on more than 20 inside a block or any in a closed one, or a closed
   one that leaves a trace.
   */
  predicate TextStarts(opts: Options, inBlock: bool, text: string)
    decreases |text|
  {
    if !inBlock then
      var i := Index(text, OPEN);
      if i < 0 then |text| > 50 else i > 0 || TextStarts(opts, true, text[i + 10..])
    else
      var i := Index(text, CLOSE);
      if i < 0 then opts.enabled && |text| > 20
      else (opts.enabled && (i > 0 || MarksEmpty(opts))) || TextStarts(opts, false, text[i + 11..])
  }

  // ---- One loop iteration ----

  /** Tags may contribute, and nothing shown has been sent. */
  ghost predicate Quiet(opts: Options, st: State) {
    Sound(st) && st.source != ReasoningEvent && (st.started ==> !opts.enabled)
  }

  lemma SegmentEmits(opts: Options, st: State, content: string)
    requires Quiet(opts, st) && st.inBlock
    ensures AnyEmits(opts, Segment(st, content)) <==> opts.enabled && (content != "" || MarksEmpty(opts))
  {
    var sent := Segment(st, content);
    if !st.started {
      assert sent[0] == Send(content, Begin) && sent[1] == Send("", End);
      assert Emits(opts, sent[0]) <==> opts.enabled && (content != "" || MarksEmpty(opts));
    }
  }

  lemma FoundStarts(opts: Options, st: State, force: bool, rest: string)
    requires Quiet(opts, st) && Index(st.buffer, TagOf(st.inBlock)) >= 0
    ensures var turn := Turn(st, force);
            if AnyEmits(opts, turn.sent) then TextStarts(opts, st.inBlock, st.buffer + rest)
            else
              && Quiet(opts, turn.st) && turn.again
              && TextStarts(opts, st.inBlock, st.buffer + rest) == TextStarts(opts, turn.st.inBlock, turn.st.buffer + rest)
  {
    var tag := TagOf(st.inBlock);
    var i: nat := Index(st.buffer, tag);
    var n: nat := i + |tag|;
    IndexAppend(st.buffer, rest, tag);
    assert (st.buffer + rest)[n..] == st.buffer[n..] + rest;
    TurnSound(st, force);
    if st.inBlock {
      SegmentEmits(opts, st, st.buffer[..i]);
    } else if i > 0 {
      assert Emits(opts, Turn(st, force).sent[0]);
    }
  }

  lemma HeldStarts(opts: Options, st: State, rest: string)
    requires Quiet(opts, st) && Index(st.buffer, TagOf(st.inBlock)) < 0
    ensures var turn := Turn(st, false);
            if AnyEmits(opts, turn.sent) then TextStarts(opts, st.inBlock, st.buffer + rest)
            else
              && Quiet(opts, turn.st)
              && TextStarts(opts, st.inBlock, st.buffer + rest) == TextStarts(opts, turn.st.inBlock, turn.st.buffer + rest)
  {
    var turn := Turn(st, false);
    var n: nat := |Taken(st, false)|;
    TurnHolds(st);
    TurnSound(st, false);
    if n > 0 {
      assert turn.sent[0].text == st.buffer[..n];
      NoneBeforeSeam(st.buffer, rest, TagOf(st.inBlock), 1);
      if opts.enabled || !st.inBlock {
        assert Emits(opts, turn.sent[0]);
      } else {
        ThinkingIsSkipped(opts, st.buffer, rest, n);
        assert |turn.sent| == 1 && !Emits(opts, turn.sent[0]);
      }
    }
  }

  /** Where thinking is off, the beginning of a block that a tag does not start in makes no difference. */
  lemma ThinkingIsSkipped(opts: Options, buffer: string, rest: string, n: nat)
    requires !opts.enabled && n + 15 <= |buffer| && Index(buffer, CLOSE) < 0
    ensures TextStarts(opts, true, buffer + rest) == TextStarts(opts, true, buffer[n..] + rest)
  {
    var tail := buffer[n..] + rest;
    NoneBeforeSeam(buffer, rest, CLOSE, n);
    assert buffer + rest == buffer[..n] + tail;
    IndexBehind(buffer[..n], tail, CLOSE);
    var i := Index(tail, CLOSE);
    if i >= 0 {
      assert (buffer + rest)[n + i + 11..] == tail[i + 11..];
    }
  }

  // ---- Whole streams ----

  lemma {:induction false} DrainStarts(opts: Options, st: State, rest: string)
    requires Quiet(opts, st)
    ensures var r := Drain(st, false);
            if AnyEmits(opts, r.sent) then TextStarts(opts, st.inBlock, st.buffer + rest)
            else
              && Quiet(opts, r.st)
              && TextStarts(opts, st.inBlock, st.buffer + rest) == TextStarts(opts, r.st.inBlock, r.st.buffer + rest)
    decreases |st.buffer|
  {
    var turn := Turn(st, false);
    if Index(st.buffer, TagOf(st.inBlock)) < 0 {
      HeldStarts(opts, st, rest);
    } else {
      FoundStarts(opts, st, false, rest);
      AnyAppend(opts, turn.sent, Drain(turn.st, false).sent);
      if !AnyEmits(opts, turn.sent) {
        DrainStarts(opts, turn.st, rest);
      }
    }
  }

  /** As long as nothing was shown, text that is held back does not get a message started. */
  lemma DrainedIsSilent(opts: Options, st: State)
    requires Drained(st)
    ensures !TextStarts(opts, st.inBlock, st.buffer)
  {
  }

  predicate UsedTool(cbs: seq<Callback>) {
    exists i :: 0 <= i < |cbs| && cbs[i].OnToolUse?
  }

  lemma UsedLater(cbs: seq<Callback>)
    requires cbs != [] && !UsedTool(cbs)
    ensures cbs[0].OnText? && !UsedTool(cbs[1..])
  {
    forall i | 0 <= i < |cbs[1..]|
      ensures !cbs[1..][i].OnToolUse?
    {
      assert cbs[1..][i] == cbs[i + 1];
    }
  }

  /** Without tool uses, and unless events claim the attempt, it is the text that starts a message, or does not. */
  lemma {:induction false} TextAloneStarts(opts: Options, st: State, cbs: seq<Callback>)
    requires Quiet(opts, st) && Drained(st) && !UsedTool(cbs)
    requires Run(st, opts.enabled, cbs).st.source != ReasoningEvent
    ensures AnyEmits(opts, Steps(st, opts.enabled, cbs).sent) <==> TextStarts(opts, st.inBlock, st.buffer + Section(cbs))
    decreases |cbs|
  {
    if cbs == [] {
      assert st.buffer + "" == st.buffer;
      DrainedIsSilent(opts, st);
    } else {
      UsedLater(cbs);
      var first := Step(st, opts.enabled, cbs[0]);
      StepSound(st, opts.enabled, cbs[0]);
      StepDrains(st, opts.enabled, cbs[0]);
      RunSound(first.st, opts.enabled, cbs[1..]);
      AnyAppend(opts, first.sent, Steps(first.st, opts.enabled, cbs[1..]).sent);
      CallbackStarts(opts, st, cbs[0], Section(cbs[1..]));
      if !AnyEmits(opts, first.sent) {
        TextAloneStarts(opts, first.st, cbs[1..]);
      }
    }
  }

  lemma CallbackStarts(opts: Options, st: State, cb: Callback, rest: string)
    requires Quiet(opts, st) && cb.OnText? && Step(st, opts.enabled, cb).st.source != ReasoningEvent
    ensures var r := Step(st, opts.enabled, cb);
            var more := if cb.isThinking then "" else cb.text;
            if AnyEmits(opts, r.sent) then TextStarts(opts, st.inBlock, st.buffer + (more + rest))
            else
              && Quiet(opts, r.st)
              && TextStarts(opts, st.inBlock, st.buffer + (more + rest)) == TextStarts(opts, r.st.inBlock, r.st.buffer + rest)
  {
    if cb.isThinking || cb.text == "" {
      assert "" + rest == rest;
    } else {
      Assoc(st.buffer, cb.text, rest);
      var sent := Drain(st.(buffer := st.buffer + cb.text), false).sent;
      assert [] + sent == sent;
      DrainStarts(opts, st.(buffer := st.buffer + cb.text), rest);
    }
  }

  /** A tool use starts a message. */
  lemma {:induction false} ToolStarts(opts: Options, st: State, cbs: seq<Callback>)
    requires UsedTool(cbs)
    ensures AnyEmits(opts, Steps(st, opts.enabled, cbs).sent)
    decreases |cbs|
  {
    var first := Step(st, opts.enabled, cbs[0]);
    AnyAppend(opts, first.sent, Steps(first.st, opts.enabled, cbs[1..]).sent);
    if cbs[0].OnToolUse? {
      assert Emits(opts, first.sent[|first.sent| - 1]);
    } else {
      var i :| 0 <= i < |cbs| && cbs[i].OnToolUse?;
      assert cbs[1..][i - 1].OnToolUse?;
      ToolStarts(opts, first.st, cbs[1..]);
    }
  }

  lemma {:induction false} DrainClaimsNoEvents(st: State, force: bool)
    requires st.source != ReasoningEvent
    ensures Drain(st, force).st.source != ReasoningEvent
    decreases |st.buffer|
  {
    if Turn(st, force).again {
      DrainClaimsNoEvents(Turn(st, force).st, force);
    }
  }

  lemma ClaimingEmits(opts: Options, st: State, cb: Callback)
    requires Sound(st) && st.source == Unknown
    ensures Step(st, opts.enabled, cb).st.source == ReasoningEvent ==> AnyEmits(opts, Step(st, opts.enabled, cb).sent)
  {
    var longer := AfterEvents(st).(buffer := st.buffer + if cb.OnText? then cb.text else "");
    DrainClaimsNoEvents(longer, !cb.OnText?);
    if cb.OnText? && cb.isThinking && cb.text != "" && opts.enabled {
      assert Emits(opts, Step(st, opts.enabled, cb).sent[0]);
    }
  }

  /** The event that claims an attempt starts a message. */
  lemma {:induction false} EventStarts(opts: Options, st: State, cbs: seq<Callback>)
    requires Sound(st) && st.source == Unknown && Run(st, opts.enabled, cbs).st.source == ReasoningEvent
    ensures AnyEmits(opts, Steps(st, opts.enabled, cbs).sent)
    decreases |cbs|
  {
    if cbs == [] {
      DrainClaimsNoEvents(AfterEvents(st).(buffer := st.buffer + ""), true);
    } else {
      var first := Step(st, opts.enabled, cbs[0]);
      StepSound(st, opts.enabled, cbs[0]);
      RunSound(first.st, opts.enabled, cbs[1..]);
      ClaimingEmits(opts, st, cbs[0]);
      AnyAppend(opts, first.sent, Steps(first.st, opts.enabled, cbs[1..]).sent);
      if first.st.source == Unknown {
        EventStarts(opts, first.st, cbs[1..]);
      }
    }
  }

  /** Callbacks that get a message started: a tool use, reasoning events that claim the attempt, or enough text. */
  predicate Starts(opts: Options, cbs: seq<Callback>) {
    UsedTool(cbs) || Claimed(opts.enabled, "", cbs) == ReasoningEvent || TextStarts(opts, false, Section(cbs))
  }

  lemma StartedIff(opts: Options, cbs: seq<Callback>)
    ensures EmitAll(opts, FRESH_BLOCKS, Steps(INITIAL, opts.enabled, cbs).sent).b.started <==> Starts(opts, cbs)
  {
    EmitAllStarts(opts, FRESH_BLOCKS, Steps(INITIAL, opts.enabled, cbs).sent);
    RunIsClaimed(opts.enabled, cbs);
    if UsedTool(cbs) {
      ToolStarts(opts, INITIAL, cbs);
    } else if Claimed(opts.enabled, "", cbs) == ReasoningEvent {
      EventStarts(opts, INITIAL, cbs);
    } else {
      EmptyIsDrained(INITIAL);
      TextAloneStarts(opts, INITIAL, cbs);
      assert "" + Section(cbs) == Section(cbs);
    }
  }

  // ---- Which attempt answers ----

  /** An attempt with a token that succeeded, or that got a message started before it failed. */
  predicate Speaks(a: Attempt) {
    a.Upstream? && (a.outcome.Succeeded? || Starts(a.opts, a.cbs))
  }

  lemma SpeaksIff(a: Attempt)
    ensures Speaks(a) <==> !Retried(a)
  {
    if a.Upstream? {
      StartedIff(a.opts, a.cbs);
    }
  }

  /** Why a successful message ends. */
  function Reason(a: Attempt): string
    requires a.Upstream? && a.outcome.Succeeded?
  {
    if UsedTool(a.cbs) then "tool_use" else if a.outcome.upstreamStop == "max_tokens" then "max_tokens" else "end_turn"
  }

  lemma {:induction false} UsedIff(st: State, enabled: bool, cbs: seq<Callback>)
    ensures Used(Run(st, enabled, cbs).sent) <==> UsedTool(cbs)
    decreases |cbs|
  {
    if cbs == [] {
      UsedProcess(st, enabled, "", false, true);
    } else {
      var first := Step(st, enabled, cbs[0]);
      UsedIff(first.st, enabled, cbs[1..]);
      UsedStep(st, enabled, cbs[0]);
      UsedAppend(first.sent, Run(first.st, enabled, cbs[1..]).sent);
      UsedBehind(cbs);
    }
  }

  lemma UsedBehind(cbs: seq<Callback>)
    requires cbs != []
    ensures UsedTool(cbs) <==> cbs[0].OnToolUse? || UsedTool(cbs[1..])
  {
    if UsedTool(cbs) && cbs[0].OnText? {
      var i :| 0 <= i < |cbs| && cbs[i].OnToolUse?;
      assert cbs[1..][i - 1].OnToolUse?;
    }
    if i :| 0 <= i < |cbs[1..]| && cbs[1..][i].OnToolUse? {
      assert cbs[i + 1].OnToolUse?;
    }
  }

  /**
   What a client that shows every block is told by an attempt that succeeds: the visible text, and all the thinking
   of the source that claimed it; the visible text alone; or content with all of that thinking in it.
   */
  ghost predicate TellsAll(a: Attempt, told: seq<Mark>)
    requires a.Upstream?
  {
    var split := SplitStream(false, "", a.cbs);
    if ShowsThinking(a.opts) then
      && VisibleOf(told) == VisibleOf(split)
      && ThinkingOf(told) == if Claimed(true, "", a.cbs) == ReasoningEvent then Events(true, a.cbs) else ThinkingOf(split)
    else if HidesThinking(a.opts) then
      told == VisibleOf(split)
    else
      && TellsEverything(TagsOf(a.opts.format), a.cbs, told)
      && (Claimed(true, "", a.cbs) != ReasoningEvent ==> told == T.RetagStream(TagsOf(a.opts.format), T.Outside, "", a.cbs))
  }

  lemma RunTellsAll(a: Attempt)
    requires a.Upstream?
    ensures TellsAll(a, Told(a.opts, Run(INITIAL, a.opts.enabled, a.cbs).sent))
  {
    SingleSource(a.opts.enabled, a.cbs);
    if !ShowsThinking(a.opts) && !HidesThinking(a.opts) {
      RunHoldsEverything(a.cbs);
      if Claimed(true, "", a.cbs) != ReasoningEvent {
        RunIsClaimed(true, a.cbs);
        T.RunRetags(TagsOf(a.opts.format), INITIAL, true, a.cbs);
      }
    }
  }

  /**
   An answer of this attempt. If it succeeded, it tells all that was received, and ends with why and with its
   counts. If it failed, it tells the beginning of that, in a format with thinking blocks all but at most
   the last 50 characters, and ends with the error.
   */
  ghost predicate IsAnswer(a: Attempt, wire: seq<Event>)
    requires a.Upstream?
  {
    var told := Reading(a.opts.codec, None, wire);
    match a.outcome
    case Succeeded(_, usage) =>
      |wire| >= 2 && wire[|wire| - 2..] == [MessageDelta(Some(Reason(a)), Some(usage)), MessageStop] && TellsAll(a, told)
    case Failed(message) =>
      && wire != [] && Last(wire) == ErrorEvent(message)
      && exists whole :: TellsAll(a, whole) && told <= whole && (ShowsThinking(a.opts) ==> |whole| <= |told| + 50)
  }

  lemma AnswerIsOne(a: Attempt)
    requires Speaks(a) && a.opts.codec.Inverse()
    ensures IsAnswer(a, Answer(a))
  {
    RunTellsAll(a);
    AnswerTells(a);
    if a.outcome.Succeeded? {
      UsedIff(INITIAL, a.opts.enabled, a.cbs);
      AnswerEnds(a);
    } else {
      BrokenOff(a);
    }
  }

  lemma BrokenOff(a: Attempt)
    requires a.Upstream? && a.outcome.Failed? && a.opts.codec.Inverse()
    ensures IsAnswer(a, Answer(a))
  {
    var whole, told := Told(a.opts, Run(INITIAL, a.opts.enabled, a.cbs).sent), Reading(a.opts.codec, None, Answer(a));
    RunTellsAll(a);
    AnswerTells(a);
    BrokenOffTellsBeginning(a);
    LagIsBounded(a.opts.enabled, a.cbs);
    assert TellsAll(a, whole) && told <= whole && (ShowsThinking(a.opts) ==> |whole| <= |told| + 50);
  }

  lemma AnswerEnds(a: Attempt)
    requires a.Upstream? && a.outcome.Succeeded?
    ensures var n := |Answer(a)|;
            var reason := StopReason(Run(INITIAL, a.opts.enabled, a.cbs).sent, a.outcome.upstreamStop);
            n >= 2 && Answer(a)[n - 2..] == [MessageDelta(Some(reason), Some(a.outcome.usage)), MessageStop]
  {
  }

  /** The first of the attempts allowed that speaks. */
  ghost predicate FirstToSpeak(attempts: seq<Attempt>, k: nat) {
    k < 3 && k < |attempts| && Speaks(attempts[k]) && forall i :: 0 <= i < k ==> !Speaks(attempts[i])
  }

  /** Who answers, in terms of who speaks. */
  lemma AnswersIsSpeaks(attempts: seq<Attempt>, k: int)
    requires k == Answering(Retried, attempts, MAX_ATTEMPTS)
    ensures k >= 0 ==> FirstToSpeak(attempts, k)
    ensures k < 0 ==> forall i :: 0 <= i < 3 && i < |attempts| ==> !Speaks(attempts[i])
  {
    forall i | 0 <= i < |attempts|
      ensures Speaks(attempts[i]) <==> !Retried(attempts[i])
    {
      SpeaksIff(attempts[i]);
    }
  }

  lemma FirstIsUnique(attempts: seq<Attempt>, j: nat, k: nat)
    requires FirstToSpeak(attempts, j) && FirstToSpeak(attempts, k)
    ensures j == k
  {
  }

  lemma WhoAnswers(attempts: seq<Attempt>, k: nat)
    ensures FirstToSpeak(attempts, k) ==> Serve(attempts, MAX_ATTEMPTS) == Answer(attempts[k])
    ensures (forall i :: 0 <= i < 3 && i < |attempts| ==> !Speaks(attempts[i])) ==> Serve(attempts, MAX_ATTEMPTS) == []
  {
    var j := Answering(Retried, attempts, MAX_ATTEMPTS);
    OneAccountPerAnswer(attempts, MAX_ATTEMPTS);
    AnswersIsSpeaks(attempts, j);
    if j >= 0 && FirstToSpeak(attempts, k) {
      FirstIsUnique(attempts, j, k);
    }
  }

  /**
   Whom the client hears, told by callbacks and outcomes: the first of three attempts that succeeded, or got a message
   started before it failed; and nothing if there is none.
   */
  lemma FirstToSpeakAnswers(attempts: seq<Attempt>, k: nat)
    ensures FirstToSpeak(attempts, k) && attempts[k].opts.codec.Inverse() ==> IsAnswer(attempts[k], Serve(attempts, MAX_ATTEMPTS))
    ensures (forall i :: 0 <= i < 3 && i < |attempts| ==> !Speaks(attempts[i])) ==> Serve(attempts, MAX_ATTEMPTS) == []
  {
    WhoAnswers(attempts, k);
    if FirstToSpeak(attempts, k) && attempts[k].opts.codec.Inverse() {
      AnswerIsOne(attempts[k]);
    }
  }
}
