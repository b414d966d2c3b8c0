/** Which attempt a client of the Responses stream hears, told by callbacks and outcomes. */
module ResponsesFailover {
  import opened Basics
  import opened Text
  import opened Wire
  import opened Spaces
  import opened ResponsesStream
  import opened ResponsesLaws
  import opened ResponsesItems
  import E = ThinkingExtract

  /** An attempt that reached the upstream and succeeded, or received visible text or a tool use before it broke. */
  predicate Speaks(a: Attempt) {
    a.Upstream? && (a.outcome.Succeeded? || exists i :: 0 <= i < |a.cbs| && Useful(a.cbs[i]))
  }

  predicate Useful(cb: Callback) {
    cb.OnToolUse? || (cb.text != "" && !cb.isThinking)
  }

  lemma SpeaksIff(a: Attempt)
    ensures Speaks(a) <==> !Retried(a)
  {
    if a.Upstream? {
      if i :| 0 <= i < |a.cbs| && Useful(a.cbs[i]) {
        assert Starts(a.cbs[i]);
      }
      if i :| 0 <= i < |a.cbs| && Starts(a.cbs[i]) {
        assert Useful(a.cbs[i]);
      }
    }
  }

  /** The tool uses of the function items that are done. */
  function ToolsDone(events: seq<Event>): seq<ToolUse> {
    if events == [] then []
    else (if events[0].ItemDone? && events[0].item.Function? then [events[0].item.tool] else []) + ToolsDone(events[1..])
  }

  lemma {:induction false} ToolsDoneAppend(a: seq<Event>, b: seq<Event>)
    ensures ToolsDone(a + b) == ToolsDone(a) + ToolsDone(b)
  {
    if a == [] {
      assert a + b == b;
    } else {
      assert (a + b)[0] == a[0] && (a + b)[1..] == a[1..] + b;
      ToolsDoneAppend(a[1..], b);
    }
  }

  lemma ToolsDoneOfOne(e: Event)
    ensures ToolsDone([e]) == if e.ItemDone? && e.item.Function? then [e.item.tool] else []
  {
    assert [e][1..] == [];
  }

  lemma ToolsDoneOfTwo(e: Event, f: Event)
    requires !(e.ItemDone? && e.item.Function?) && !(f.ItemDone? && f.item.Function?)
    ensures ToolsDone([e, f]) == []
  {
    assert [e, f][1..] == [f];
    ToolsDoneOfOne(f);
  }

  lemma ToolsDoneOfStep(p: Progress, cb: Callback)
    ensures ToolsDone(Step(p, cb).events) == if cb.OnToolUse? then [cb.tool] else []
  {
    match cb
    case OnText(text, isThinking) =>
      ToolsDoneAppend(OpenMessage(p), [TextDelta(p.outputIndex, text)]);
      ToolsDoneOfTwo(ItemAdded(p.outputIndex, Message("")), PartAdded(p.outputIndex));
      ToolsDoneOfOne(TextDelta(p.outputIndex, text));
    case OnToolUse(tool) =>
      var index := if p.messageStarted then p.outputIndex + 1 else p.outputIndex;
      ToolsDoneAppend(CloseMessage(p, p.fullText), ToolItem(index, tool));
      ToolsDoneOfTwo(PartDone(p.outputIndex, p.fullText), ItemDone(p.outputIndex, Message(p.fullText)));
      ToolsDoneOfItem(index, tool);
  }

  lemma ToolsDoneOfItem(index: nat, tool: ToolUse)
    ensures ToolsDone(ToolItem(index, tool)) == [tool]
  {
    var added, arguments, done := ItemAdded(index, Function(tool)), ArgumentsDelta(index, tool), ItemDone(index, Function(tool));
    assert ToolItem(index, tool) == [added, arguments] + [done];
    ToolsDoneAppend([added, arguments], [done]);
    ToolsDoneOfTwo(added, arguments);
    ToolsDoneOfOne(done);
  }

  lemma {:induction false} ToolsDoneOfSteps(p: Progress, cbs: seq<Callback>)
    ensures ToolsDone(Steps(p, cbs).events) == ToolsIn(cbs)
    decreases |cbs|
  {
    if cbs != [] {
      var first := Step(p, cbs[0]);
      ToolsDoneOfStep(p, cbs[0]);
      ToolsDoneOfSteps(first.p, cbs[1..]);
      ToolsDoneAppend(first.events, Steps(first.p, cbs[1..]).events);
    }
  }

  // ---- Bodies ----

  /** What an answer is made of until its end: neither a notice nor an end. */
  predicate IsContent(e: Event) {
    !e.InProgress? && !e.Completed? && !e.Failed? && !e.DoneMark?
  }

  ghost predicate AllContent(events: seq<Event>) {
    forall i :: 0 <= i < |events| ==> IsContent(events[i])
  }

  lemma {:induction false} StepsAreContent(p: Progress, cbs: seq<Callback>)
    ensures AllContent(Steps(p, cbs).events)
    decreases |cbs|
  {
    if cbs != [] {
      StepsAreContent(Step(p, cbs[0]).p, cbs[1..]);
    }
  }

  lemma {:induction false} ContentIsSubstance(events: seq<Event>)
    requires AllContent(events)
    ensures Substance(events) == events
  {
    if events != [] {
      assert IsContent(events[0]);
      forall i | 0 <= i < |events[1..]|
        ensures IsContent(events[1..][i])
      {
        assert events[1..][i] == events[i + 1];
      }
      ContentIsSubstance(events[1..]);
    }
  }

  /** Everything the callbacks send before the end of a successful attempt, or before an attempt breaks. */
  function Body(a: Attempt): seq<Event>
    requires a.Upstream?
  {
    var r := Steps(UNSTARTED, a.cbs);
    r.events + (if a.outcome.Succeeded? then CloseMessage(r.p, FinalContent(r.p)) else [])
  }

  /** How an answer ends. */
  function Ending(a: Attempt): seq<Event>
    requires a.Upstream?
  {
    match a.outcome
    case Broken(message) => [Failed(message)]
    case Succeeded => [Completed(TrimSpace(E.Extract(AllText(a.cbs)).text), ToolsIn(a.cbs)), DoneMark]
  }

  lemma AnswerEnds(a: Attempt)
    requires a.Upstream?
    ensures Answer(a) == Body(a) + Ending(a)
  {
    var r := Steps(UNSTARTED, a.cbs);
    FullTextIsAll(a.cbs);
    ToolsAreCollected(UNSTARTED, a.cbs);
    assert [] + ToolsIn(a.cbs) == ToolsIn(a.cbs);
    assert r.events + [] == r.events;
  }

  lemma BodyTells(a: Attempt)
    requires a.Upstream?
    ensures AllContent(Body(a)) && Deltas(Body(a)) == AllText(a.cbs) && ToolsDone(Body(a)) == ToolsIn(a.cbs)
  {
    var r := Steps(UNSTARTED, a.cbs);
    var close := if a.outcome.Succeeded? then CloseMessage(r.p, FinalContent(r.p)) else [];
    StepsAreContent(UNSTARTED, a.cbs);
    DeltasAreTheText(UNSTARTED, a.cbs);
    DeltasAppend(r.events, close);
    ToolsDoneOfSteps(UNSTARTED, a.cbs);
    ToolsDoneAppend(r.events, close);
    ToolsDoneOfTwo(PartDone(r.p.outputIndex, FinalContent(r.p)), ItemDone(r.p.outputIndex, Message(FinalContent(r.p))));
    CloseSaysNothing(r.p, FinalContent(r.p));
  }

  lemma CloseSaysNothing(p: Progress, text: string)
    ensures Deltas(CloseMessage(p, text)) == ""
  {
    var e, f := PartDone(p.outputIndex, text), ItemDone(p.outputIndex, Message(text));
    DeltasAppend([e], [f]);
    assert [e][1..] == [] && [f][1..] == [] && [e] + [f] == [e, f];
  }

  /** An answer of this attempt: all the text and all the tool uses it received, and its end. */
  ghost predicate IsAnswer(a: Attempt, events: seq<Event>)
    requires a.Upstream?
  {
    exists body :: events == body + Ending(a) && AllContent(body) && Deltas(body) == AllText(a.cbs) && ToolsDone(body) == ToolsIn(a.cbs)
  }

  lemma AnswerIsOne(a: Attempt)
    requires a.Upstream?
    ensures IsAnswer(a, Substance(Answer(a)))
  {
    BodyTells(a);
    AnswerEnds(a);
    SubstanceAppend(Body(a), Ending(a));
    ContentIsSubstance(Body(a));
    EndingIsSubstance(a);
  }

  lemma EndingIsSubstance(a: Attempt)
    requires a.Upstream?
    ensures Substance(Ending(a)) == Ending(a)
  {
    match a.outcome
    case Broken(message) => SubstanceOfOne(Failed(message));
    case Succeeded =>
      SubstanceAppend([Ending(a)[0]], [DoneMark]);
      assert Ending(a) == [Ending(a)[0]] + [DoneMark];
      SubstanceOfOne(Ending(a)[0]);
      SubstanceOfOne(DoneMark);
  }

  lemma SubstanceOfOne(e: Event)
    requires !e.InProgress?
    ensures Substance([e]) == [e]
  {
    assert [e][1..] == [];
  }

  // ---- Which attempt answers ----

  lemma PassedOver(attempts: seq<Attempt>, left: nat, lastError: string)
    requires left > 0 && attempts != [] && Retried(attempts[0])
    ensures Substance(Serve(attempts, left, lastError)) == Substance(Serve(attempts[1..], left - 1, ErrorAfter(attempts[0], lastError)))
  {
    RetriedIsNoSubstance(attempts[0], Serve(attempts[1..], left - 1, ErrorAfter(attempts[0], lastError)));
  }

  lemma {:induction false} AnsweredBy(attempts: seq<Attempt>, left: nat, k: nat, lastError: string)
    requires k < left && k < |attempts| && Speaks(attempts[k]) && forall i :: 0 <= i < k ==> !Speaks(attempts[i])
    ensures Substance(Serve(attempts, left, lastError)) == Substance(Answer(attempts[k]))
    decreases k
  {
    SpeaksIff(attempts[0]);
    if k == 0 {
      NoticeIsNoSubstance(Answer(attempts[0]));
    } else {
      var rest, fewer, j := attempts[1..], left - 1, k - 1;
      assert rest[j] == attempts[k] && forall i :: 0 <= i < j ==> rest[i] == attempts[i + 1];
      AnsweredBy(rest, fewer, j, ErrorAfter(attempts[0], lastError));
      PassedOver(attempts, left, lastError);
    }
  }

  /** The message of a failed attempt. */
  function Complaint(a: Attempt): string {
    match a
    case Unusable(message) => message
    case Upstream(_, Broken(message)) => message
    case Upstream(_, Succeeded) => ""
  }

  lemma {:induction false} AnsweredByNone(attempts: seq<Attempt>, left: nat, lastError: string)
    requires forall i :: 0 <= i < left && i < |attempts| ==> !Speaks(attempts[i])
    ensures var n := if left < |attempts| then left else |attempts|;
            Substance(Serve(attempts, left, lastError)) == [Failed(if n == 0 then lastError else Complaint(attempts[n - 1]))]
    decreases left
  {
    if left == 0 || attempts == [] {
      assert [Failed(lastError)][1..] == [];
    } else {
      SpeaksIff(attempts[0]);
      var rest, fewer := attempts[1..], left - 1;
      assert forall i :: 0 <= i < fewer && i < |rest| ==> rest[i] == attempts[i + 1];
      AnsweredByNone(rest, fewer, ErrorAfter(attempts[0], lastError));
      PassedOver(attempts, left, lastError);
    }
  }

  /** The first of the attempts allowed that speaks. */
  ghost predicate FirstToSpeak(attempts: seq<Attempt>, k: nat) {
    k < 3 && k < |attempts| && Speaks(attempts[k]) && forall i :: 0 <= i < k ==> !Speaks(attempts[i])
  }

  /** All of the attempts allowed that there are, and none speaks. */
  ghost predicate NobodySpeaks(attempts: seq<Attempt>, n: nat) {
    n == (if 3 < |attempts| then 3 else |attempts|) && forall i :: 0 <= i < n ==> !Speaks(attempts[i])
  }

  /**
   Whom the client hears, told by callbacks and outcomes: apart from progress notices, the first of three attempts that
   succeeded, or received visible text or a tool use before it broke, with all the text and tool uses it
   received and its end; and if there is none, the last attempt's failure.
   */
  lemma FirstToSpeakAnswers(attempts: seq<Attempt>, k: nat)
    ensures var events := Substance(Serve(attempts, MAX_ATTEMPTS, "No available accounts"));
            && (FirstToSpeak(attempts, k) ==> IsAnswer(attempts[k], events))
            && (NobodySpeaks(attempts, k) ==> events == [Failed(if k == 0 then "No available accounts" else Complaint(attempts[k - 1]))])
  {
    if FirstToSpeak(attempts, k) {
      AnsweredBy(attempts, 3, k, "No available accounts");
      AnswerIsOne(attempts[k]);
    }
    if NobodySpeaks(attempts, k) {
      AnsweredByNone(attempts, 3, "No available accounts");
    }
  }
}
