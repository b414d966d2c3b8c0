/** How much text the splitter holds back before the final flush. */
module HeldBack {
  import opened Text
  import opened Wire
  import opened ThinkingSplit
  import opened SplitLaws

  /** At most 50 characters outside a block and 20 inside are held back, and no tag that could be acted upon. */
  ghost predicate Drained(st: State) {
    && |st.buffer| <= (if st.inBlock then 20 else 50)
    && Index(st.buffer, TagOf(st.inBlock)) < 0
  }

  /** What is left of a text without a tag has none either. */
  lemma RestHasNone(text: string, pat: string, n: nat)
    requires n <= |text| && Index(text, pat) < 0
    ensures Index(text[n..], pat) < 0
  {
    var i := Index(text[n..], pat);
    if i >= 0 {
      AtDrop(text, pat, n, n + i);
    }
  }

  lemma TurnDrains(st: State)
    ensures !Turn(st, false).again ==> Drained(Turn(st, false).st)
  {
    if Index(st.buffer, TagOf(st.inBlock)) < 0 {
      TurnHolds(st);
      RestHasNone(st.buffer, TagOf(st.inBlock), |Taken(st, false)|);
    }
  }

  lemma {:induction false} DrainDrains(st: State)
    ensures Drained(Drain(st, false).st)
    decreases |st.buffer|
  {
    TurnDrains(st);
    if Turn(st, false).again {
      DrainDrains(Turn(st, false).st);
    }
  }

  lemma EmptyIsDrained(st: State)
    requires st.buffer == ""
    ensures Drained(st)
  {
  }

  lemma StepDrains(st: State, enabled: bool, cb: Callback)
    requires Sound(st) && Drained(st)
    ensures Drained(Step(st, enabled, cb).st)
  {
    match cb
    case OnText(text, isThinking) =>
      if text != "" && !isThinking {
        DrainDrains(AfterEvents(st).(buffer := st.buffer + text));
      }
    case OnToolUse(_) =>
      StepSound(st, enabled, cb);
      EmptyIsDrained(Step(st, enabled, cb).st);
  }

  lemma {:induction false} StepsDrain(st: State, enabled: bool, cbs: seq<Callback>)
    requires Sound(st) && Drained(st)
    ensures Sound(Steps(st, enabled, cbs).st) && Drained(Steps(st, enabled, cbs).st)
    decreases |cbs|
  {
    if cbs != [] {
      StepSound(st, enabled, cbs[0]);
      StepDrains(st, enabled, cbs[0]);
      StepsDrain(Step(st, enabled, cbs[0]).st, enabled, cbs[1..]);
    }
  }

  // ---- What the flush adds ----

  lemma {:induction false} PaintLength(text: string, thinking: bool)
    ensures |Paint(text, thinking)| == |text|
  {
    if text != "" {
      PaintLength(text[1..], thinking);
    }
  }

  lemma TurnSendsLess(st: State, force: bool)
    requires Sound(st) && !st.eventOpen
    ensures |Marks(Turn(st, force).sent)| + |Turn(st, force).st.buffer| <= |st.buffer|
  {
    TurnSends(st, force);
    PaintLength(Taken(st, force), st.inBlock);
  }

  /** No more is sent than was buffered. */
  lemma {:induction false} DrainSendsLess(st: State, force: bool)
    requires Sound(st) && !st.eventOpen
    ensures |Marks(Drain(st, force).sent)| <= |st.buffer|
    decreases |st.buffer|
  {
    TurnSendsLess(st, force);
    TurnSound(st, force);
    var turn := Turn(st, force);
    if turn.again {
      DrainSendsLess(turn.st, force);
      MarksAppend(turn.sent, Drain(turn.st, force).sent);
    }
  }

  lemma FlushSendsLess(st: State, enabled: bool)
    requires Sound(st)
    ensures |Marks(Process(st, enabled, "", false, true).sent)| <= |st.buffer|
  {
    var closed := AfterEvents(st).(buffer := st.buffer + "");
    assert st.buffer + "" == st.buffer;
    DrainSendsLess(closed, true);
    var end := SendIf(st.eventOpen, "", End);
    MarksAppend(end, Drain(closed, true).sent);
    MarksSend("", End);
  }

  /**
   The stream keeps up: after any callbacks, all but at most 50 of the characters that are to be sent of the text
   received so far have been sent, in their final order and as what they are.
   */
  lemma LagIsBounded(enabled: bool, cbs: seq<Callback>)
    ensures var sent, all := Marks(Steps(INITIAL, enabled, cbs).sent), Marks(Run(INITIAL, enabled, cbs).sent);
            sent <= all && |all| <= |sent| + 50
  {
    var cut := Steps(INITIAL, enabled, cbs);
    RunIsSteps(INITIAL, enabled, cbs);
    EmptyIsDrained(INITIAL);
    StepsDrain(INITIAL, enabled, cbs);
    FlushSendsLess(cut.st, enabled);
    MarksAppend(cut.sent, Process(cut.st, enabled, "", false, true).sent);
  }
}
