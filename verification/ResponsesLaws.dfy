/** What the Responses stream handler promises over whole runs, and where it does not. */
module ResponsesLaws {
  import opened Failover
  import opened Basics
  import opened Text
  import opened Wire
  import opened ResponsesStream
  import opened Spaces
  import E = ThinkingExtract
  import S = ThinkingSplit

  // ---- Grammar ----

  /** How far the open output item has come. */
  datatype Open = Closed | MessageAdded | PartOpen | PartClosed | FunctionAdded(tool: ToolUse) | ArgumentsSent(tool: ToolUse)

  datatype Stage = Waiting | Streaming | Finished | Done | Aborted

  datatype Reader = Reader(stage: Stage, next: nat, open: Open)

  const FRESH := Reader(Waiting, 0, Closed)

  /** The reader after one event, or `None` if the grammar does not allow it here. `next` is the index of the open or the next item. */
  function Read(r: Reader, e: Event): Option<Reader> {
    match r.stage
    case Waiting => if e.Created? then Some(r.(stage := Streaming)) else None
    case Finished => if e.DoneMark? then Some(r.(stage := Done)) else None
    case Streaming => (
      match e
      case InProgress => if r == Reader(Streaming, 0, Closed) then Some(r) else None
      case Failed(_) => Some(r.(stage := Aborted))
      case Completed(_, _) => if r.open == Closed then Some(r.(stage := Finished)) else None
      case ItemAdded(index, item) =>
        if r.open != Closed || index != r.next then None
        else (match item
          case Message(text) => if text == "" then Some(r.(open := MessageAdded)) else None
          case Function(tool) => Some(r.(open := FunctionAdded(tool))))
      case PartAdded(index) => if r.open == MessageAdded && index == r.next then Some(r.(open := PartOpen)) else None
      case TextDelta(index, _) => if r.open == PartOpen && index == r.next then Some(r) else None
      case PartDone(index, _) => if r.open == PartOpen && index == r.next then Some(r.(open := PartClosed)) else None
      case ArgumentsDelta(index, tool) =>
        if r.open == FunctionAdded(tool) && index == r.next then Some(r.(open := ArgumentsSent(tool))) else None
      case ItemDone(index, item) =>
        if index == r.next && (if item.Message? then r.open == PartClosed else r.open == ArgumentsSent(item.tool))
        then Some(Reader(Streaming, r.next + 1, Closed)) else None
      case _ => None)
    case _ => None
  }

  function ReadAll(r: Reader, events: seq<Event>): Option<Reader>
    decreases |events|
  {
    if events == [] then Some(r)
    else match Read(r, events[0])
      case None => None
      case Some(r') => ReadAll(r', events[1..])
  }

  lemma {:induction false} ReadAppend(r: Reader, a: seq<Event>, b: seq<Event>)
    ensures ReadAll(r, a + b) == (match ReadAll(r, a) case None => None case Some(r') => ReadAll(r', b))
    decreases |a|
  {
    if a == [] {
      assert a + b == b;
    } else {
      assert (a + b)[0] == a[0] && (a + b)[1..] == a[1..] + b;
      if Read(r, a[0]).Some? {
        ReadAppend(Read(r, a[0]).value, a[1..], b);
      }
    }
  }

  lemma ReadOne(r: Reader, e: Event)
    ensures ReadAll(r, [e]) == Read(r, e)
  {
    assert [e][1..] == [];
  }

  lemma ReadTwo(r: Reader, e: Event, f: Event)
    ensures ReadAll(r, [e, f]) == (match Read(r, e) case None => None case Some(r') => Read(r', f))
  {
    assert [e, f][1..] == [f];
    if Read(r, e).Some? {
      ReadOne(Read(r, e).value, f);
    }
  }

  /** Where a reader stands while an attempt is under way. */
  function ReaderAt(p: Progress): Reader {
    Reader(Streaming, p.outputIndex, if p.messageStarted then PartOpen else Closed)
  }

  lemma OpenReads(p: Progress)
    ensures ReadAll(ReaderAt(p), OpenMessage(p)) == Some(ReaderAt(p.(messageStarted := true)))
  {
    ReadTwo(ReaderAt(p), ItemAdded(p.outputIndex, Message("")), PartAdded(p.outputIndex));
  }

  lemma CloseReads(p: Progress, text: string)
    ensures ReadAll(ReaderAt(p), CloseMessage(p, text))
         == Some(Reader(Streaming, if p.messageStarted then p.outputIndex + 1 else p.outputIndex, Closed))
  {
    ReadTwo(ReaderAt(p), PartDone(p.outputIndex, text), ItemDone(p.outputIndex, Message(text)));
  }

  lemma ToolReads(index: nat, tool: ToolUse)
    ensures ReadAll(Reader(Streaming, index, Closed), ToolItem(index, tool)) == Some(Reader(Streaming, index + 1, Closed))
  {
    var r1 := Reader(Streaming, index, FunctionAdded(tool));
    assert ToolItem(index, tool)[1..] == [ArgumentsDelta(index, tool), ItemDone(index, Function(tool))];
    ReadTwo(r1, ArgumentsDelta(index, tool), ItemDone(index, Function(tool)));
  }

  lemma StepReads(p: Progress, cb: Callback)
    ensures ReadAll(ReaderAt(p), Step(p, cb).events) == Some(ReaderAt(Step(p, cb).p))
  {
    match cb
    case OnText(text, isThinking) =>
      OpenReads(p);
      ReadAppend(ReaderAt(p), OpenMessage(p), [TextDelta(p.outputIndex, text)]);
      ReadOne(ReaderAt(p.(messageStarted := true)), TextDelta(p.outputIndex, text));
    case OnToolUse(tool) =>
      var index := if p.messageStarted then p.outputIndex + 1 else p.outputIndex;
      CloseReads(p, p.fullText);
      ToolReads(index, tool);
      ReadAppend(ReaderAt(p), CloseMessage(p, p.fullText), ToolItem(index, tool));
  }

  /** Every callback keeps the grammar: items are numbered without gaps, and each is done before the next. */
  lemma {:induction false} StepsRead(p: Progress, cbs: seq<Callback>)
    ensures ReadAll(ReaderAt(p), Steps(p, cbs).events) == Some(ReaderAt(Steps(p, cbs).p))
    decreases |cbs|
  {
    if cbs != [] {
      var first := Step(p, cbs[0]);
      StepReads(p, cbs[0]);
      StepsRead(first.p, cbs[1..]);
      ReadAppend(ReaderAt(p), first.events, Steps(first.p, cbs[1..]).events);
    }
  }

  lemma AnswerReads(a: Attempt)
    requires !Retried(a)
    ensures match ReadAll(Reader(Streaming, 0, Closed), Answer(a))
            case None => false
            case Some(r) => if a.outcome.Succeeded? then r.stage == Done && r.open == Closed else r.stage == Aborted
  {
    var r := Steps(UNSTARTED, a.cbs);
    StepsRead(UNSTARTED, a.cbs);
    match a.outcome
    case Broken(message) => FailureReads(r.events, r.p, message);
    case Succeeded => CompletionReads(r.events, r.p, FinalContent(r.p));
  }

  lemma FailureReads(events: seq<Event>, p: Progress, message: string)
    requires ReadAll(Reader(Streaming, 0, Closed), events) == Some(ReaderAt(p))
    ensures ReadAll(Reader(Streaming, 0, Closed), events + [Failed(message)]) == Some(ReaderAt(p).(stage := Aborted))
  {
    ReadAppend(Reader(Streaming, 0, Closed), events, [Failed(message)]);
    ReadOne(ReaderAt(p), Failed(message));
  }

  /** From where the callbacks have led, the end of a successful attempt leads to Done. */
  lemma CompletionReads(events: seq<Event>, p: Progress, final: string)
    requires ReadAll(Reader(Streaming, 0, Closed), events) == Some(ReaderAt(p))
    ensures var next := if p.messageStarted then p.outputIndex + 1 else p.outputIndex;
            ReadAll(Reader(Streaming, 0, Closed), events + CloseMessage(p, final) + [Completed(final, p.toolUses), DoneMark])
            == Some(Reader(Done, next, Closed))
  {
    var start := Reader(Streaming, 0, Closed);
    var next := if p.messageStarted then p.outputIndex + 1 else p.outputIndex;
    CloseReads(p, final);
    ReadAppend(start, events, CloseMessage(p, final));
    ReadAppend(start, events + CloseMessage(p, final), [Completed(final, p.toolUses), DoneMark]);
    ReadTwo(Reader(Streaming, next, Closed), Completed(final, p.toolUses), DoneMark);
  }

  /** The whole stream keeps the grammar on every run of the failover loop. */
  lemma {:induction false} ServeReads(attempts: seq<Attempt>, left: nat, lastError: string)
    ensures match ReadAll(Reader(Streaming, 0, Closed), Serve(attempts, left, lastError))
            case None => false
            case Some(r) => r.stage == Aborted || (r.stage == Done && r.open == Closed)
    decreases left
  {
    var start := Reader(Streaming, 0, Closed);
    if left == 0 || attempts == [] {
      ReadOne(start, Failed(lastError));
    } else {
      var a := attempts[0];
      if Retried(a) {
        ServeReads(attempts[1..], left - 1, ErrorAfter(a, lastError));
        RetriedReads(a, Serve(attempts[1..], left - 1, ErrorAfter(a, lastError)));
      } else {
        AnswerReads(a);
        NoticeReads(Answer(a));
      }
    }
  }

  lemma NoticeReads(events: seq<Event>)
    ensures ReadAll(Reader(Streaming, 0, Closed), [InProgress] + events) == ReadAll(Reader(Streaming, 0, Closed), events)
  {
    ReadOne(Reader(Streaming, 0, Closed), InProgress);
    ReadAppend(Reader(Streaming, 0, Closed), [InProgress], events);
  }

  lemma RetriedReads(a: Attempt, rest: seq<Event>)
    requires Retried(a)
    ensures ReadAll(Reader(Streaming, 0, Closed), Sends(a) + rest) == ReadAll(Reader(Streaming, 0, Closed), rest)
  {
    if a.Unusable? {
      assert [] + rest == rest;
    } else {
      assert [InProgress] + [] == [InProgress];
      NoticeReads(rest);
    }
  }

  // ---- One account per answer ----

  /** The events that carry the answer, its end included. */
  function Substance(events: seq<Event>): seq<Event> {
    if events == [] then []
    else (if events[0] == InProgress then [] else [events[0]]) + Substance(events[1..])
  }

  lemma {:induction false} SubstanceAppend(a: seq<Event>, b: seq<Event>)
    ensures Substance(a + b) == Substance(a) + Substance(b)
  {
    if a == [] {
      assert a + b == b;
    } else {
      assert (a + b)[0] == a[0] && (a + b)[1..] == a[1..] + b;
      SubstanceAppend(a[1..], b);
    }
  }

  /** One account per answer: apart from progress notices, the client gets one failure, or one attempt's answer. */
  lemma {:induction false} OneAccountPerAnswer(attempts: seq<Attempt>, left: nat, lastError: string)
    ensures var k := Answering(Retried, attempts, left);
            var events := Substance(Serve(attempts, left, lastError));
            if k < 0 then |events| == 1 && events[0].Failed? else events == Substance(Answer(attempts[k]))
    decreases left
  {
    if left == 0 || attempts == [] {
      assert [Failed(lastError)][1..] == [];
    } else if Retried(attempts[0]) {
      AnsweringBehind(Retried, attempts, left);
      OneAccountPerAnswer(attempts[1..], left - 1, ErrorAfter(attempts[0], lastError));
      RetriedIsNoSubstance(attempts[0], Serve(attempts[1..], left - 1, ErrorAfter(attempts[0], lastError)));
    } else {
      NoticeIsNoSubstance(Answer(attempts[0]));
    }
  }

  lemma NoticeIsNoSubstance(events: seq<Event>)
    ensures Substance([InProgress] + events) == Substance(events)
  {
    SubstanceAppend([InProgress], events);
    assert [InProgress][1..] == [] && [] + Substance(events) == Substance(events);
  }

  lemma RetriedIsNoSubstance(a: Attempt, rest: seq<Event>)
    requires Retried(a)
    ensures Substance(Sends(a) + rest) == Substance(rest)
  {
    if a.Unusable? {
      assert [] + rest == rest;
    } else {
      assert [InProgress] + [] == [InProgress];
      NoticeIsNoSubstance(rest);
    }
  }

  // ---- Text ----

  /** The visible text of a stream of callbacks, and the part of it behind the last tool use. */
  function AllText(cbs: seq<Callback>): string {
    if cbs == [] then "" else TextIn(cbs[0]) + AllText(cbs[1..])
  }

  function TextIn(cb: Callback): string {
    if cb.OnText? && !cb.isThinking then cb.text else ""
  }

  function OwnText(cbs: seq<Callback>): string {
    if cbs == [] then ""
    else
      var last := cbs[|cbs| - 1];
      if last.OnToolUse? then "" else OwnText(cbs[..|cbs| - 1]) + TextIn(last)
  }

  /** The visible text up to the last tool use. */
  function EarlierText(cbs: seq<Callback>): string {
    if cbs == [] then ""
    else if cbs[|cbs| - 1].OnToolUse? then AllText(cbs)
    else EarlierText(cbs[..|cbs| - 1])
  }

  function Deltas(events: seq<Event>): string {
    if events == [] then "" else (if events[0].TextDelta? then events[0].text else "") + Deltas(events[1..])
  }

  lemma {:induction false} DeltasAppend(a: seq<Event>, b: seq<Event>)
    ensures Deltas(a + b) == Deltas(a) + Deltas(b)
  {
    if a == [] {
      assert a + b == b;
    } else {
      assert (a + b)[0] == a[0] && (a + b)[1..] == a[1..] + b;
      DeltasAppend(a[1..], b);
    }
  }

  lemma DeltasOfStep(p: Progress, cb: Callback)
    ensures Deltas(Step(p, cb).events) == TextIn(cb)
    ensures Step(p, cb).p.fullText == p.fullText + TextIn(cb)
  {
    match cb
    case OnText(text, isThinking) =>
      DeltasAppend(OpenMessage(p), [TextDelta(p.outputIndex, text)]);
      assert [TextDelta(p.outputIndex, text)][1..] == [];
      if !p.messageStarted {
        assert OpenMessage(p)[1..] == [PartAdded(p.outputIndex)] && OpenMessage(p)[1..][1..] == [];
      }
    case OnToolUse(tool) =>
      var index := if p.messageStarted then p.outputIndex + 1 else p.outputIndex;
      DeltasAppend(CloseMessage(p, p.fullText), ToolItem(index, tool));
      ToolItemIsSilent(index, tool);
      if p.messageStarted {
        assert CloseMessage(p, p.fullText)[1..] == [ItemDone(p.outputIndex, Message(p.fullText))];
        assert CloseMessage(p, p.fullText)[1..][1..] == [];
      }
  }

  lemma ToolItemIsSilent(index: nat, tool: ToolUse)
    ensures Deltas(ToolItem(index, tool)) == ""
  {
    var events := ToolItem(index, tool);
    assert events == [events[0]] + ([events[1]] + [events[2]]);
    DeltasAppend([events[0]], [events[1]] + [events[2]]);
    DeltasAppend([events[1]], [events[2]]);
    assert [events[0]][1..] == [] && [events[1]][1..] == [] && [events[2]][1..] == [];
  }

  /** The text deltas of an attempt are the visible text it received, all of it and in order. */
  lemma {:induction false} DeltasAreTheText(p: Progress, cbs: seq<Callback>)
    ensures Deltas(Steps(p, cbs).events) == AllText(cbs)
    ensures Steps(p, cbs).p.fullText == p.fullText + AllText(cbs)
    decreases |cbs|
  {
    if cbs != [] {
      var first := Step(p, cbs[0]);
      DeltasOfStep(p, cbs[0]);
      DeltasAreTheText(first.p, cbs[1..]);
      DeltasAppend(first.events, Steps(first.p, cbs[1..]).events);
      Assoc(p.fullText, TextIn(cbs[0]), AllText(cbs[1..]));
    }
  }

  lemma {:induction false} AllTextAppend(a: seq<Callback>, b: seq<Callback>)
    ensures AllText(a + b) == AllText(a) + AllText(b)
  {
    if a == [] {
      assert a + b == b;
    } else {
      assert (a + b)[0] == a[0] && (a + b)[1..] == a[1..] + b;
      AllTextAppend(a[1..], b);
    }
  }

  /** A message item is open exactly while it has text of its own. */
  lemma {:induction false} StartedIff(cbs: seq<Callback>)
    ensures Steps(UNSTARTED, cbs).p.messageStarted <==> OwnText(cbs) != ""
    decreases |cbs|
  {
    if cbs != [] {
      var front, last := cbs[..|cbs| - 1], cbs[|cbs| - 1];
      assert front + [last] == cbs;
      StartedIff(front);
      StepsSnoc(UNSTARTED, front, last);
    }
  }

  /**
   The text a tool use closes the open message item with is all the text of the attempt so far. It is the
   item's own text, the text of its deltas, exactly if no text came before the item.
   */
  lemma ClosingTextIsOwnIff(cbs: seq<Callback>, tool: ToolUse)
    requires OwnText(cbs) != ""
    ensures var p := Steps(UNSTARTED, cbs).p;
            var events := Step(p, OnToolUse(tool)).events;
            && |events| > 1 && events[1] == ItemDone(p.outputIndex, Message(AllText(cbs)))
            && (AllText(cbs) == OwnText(cbs) <==> EarlierText(cbs) == "")
  {
    StartedIff(cbs);
    DeltasAreTheText(UNSTARTED, cbs);
    assert "" + AllText(cbs) == AllText(cbs);
    EarlierAndOwn(cbs);
    assert |AllText(cbs)| == |EarlierText(cbs)| + |OwnText(cbs)|;
  }

  lemma {:induction false} EarlierAndOwn(cbs: seq<Callback>)
    ensures AllText(cbs) == EarlierText(cbs) + OwnText(cbs)
    decreases |cbs|
  {
    if cbs != [] {
      var front, last := cbs[..|cbs| - 1], cbs[|cbs| - 1];
      assert front + [last] == cbs;
      EarlierAndOwn(front);
      AllTextAppend(front, [last]);
      assert [last][1..] == [] && TextIn(last) + "" == TextIn(last);
      Assoc(EarlierText(front), OwnText(front), TextIn(last));
    }
  }

  /** Text, a tool use, more text, a tool use: the second message item is closed with the text of both. */
  lemma ClosedWithEarlierText(tool: ToolUse)
    ensures var cbs := [OnText("a", false), OnToolUse(tool), OnText("b", false)];
            var r := Step(Steps(UNSTARTED, cbs).p, OnToolUse(tool));
            && OwnText(cbs) == "b"
            && |r.events| > 1 && r.events[1] == ItemDone(2, Message("ab"))
  {
    var a, t, b := OnText("a", false), OnToolUse(tool), OnText("b", false);
    var cbs := [a, t, b];
    assert [a, t] == [a] + [t] && cbs == [a, t] + [b];
    StepsSnoc(UNSTARTED, [], a);
    StepsSnoc(UNSTARTED, [a], t);
    StepsSnoc(UNSTARTED, [a, t], b);
    assert [] + [a] == [a];
    assert cbs[..2] == [a, t] && "" + "a" == "a" && "a" + "b" == "ab";
    assert [a, t][..1] == [a];
    assert OwnText([a, t]) == "";
    assert OwnText(cbs) == "" + "b";
  }

  // ---- The close at the end of a successful attempt ----

  lemma FullTextIsAll(cbs: seq<Callback>)
    ensures Steps(UNSTARTED, cbs).p.fullText == AllText(cbs)
  {
    DeltasAreTheText(UNSTARTED, cbs);
    assert "" + AllText(cbs) == AllText(cbs);
  }

  lemma EndsInSpace(a: string, b: string)
    requires AllSpace(b) && b != ""
    ensures IsSpace((a + b)[|a + b| - 1])
  {
    assert (a + b)[|a + b| - 1] == b[|b| - 1];
  }

  /** Nothing but white space can stand in front of a trimmed text that ends a text padded with it. */
  lemma FrontIsPadding(earlier: string, own: string, a: string, b: string)
    requires own != "" && Trimmed(own)
    requires earlier + own == a + own + b && AllSpace(a) && AllSpace(b)
    ensures a == earlier
  {
    var all := earlier + own;
    assert all[|all| - 1] == own[|own| - 1];
    if b != "" {
      EndsInSpace(a + own, b);
      assert false;
    }
    assert |a| == |earlier|;
    assert a == (a + own + b)[..|a|] && earlier == all[..|earlier|];
  }

  lemma OnlySpaceInFront(earlier: string, own: string)
    requires own != "" && Trimmed(own)
    ensures Padded(earlier + own, own) <==> AllSpace(earlier)
  {
    if AllSpace(earlier) {
      assert earlier + own == earlier + own + "";
      PaddedBy(earlier + own, earlier, own, "");
    }
    if Padded(earlier + own, own) {
      var a, b :| earlier + own == a + own + b && AllSpace(a) && AllSpace(b);
      FrontIsPadding(earlier, own, a, b);
    }
  }

  lemma NotShorter(s: string, own: string)
    requires |s| < |own|
    ensures !Padded(s, own)
  {
  }

  lemma ExtractCuts(text: string)
    ensures E.HasPair(text) ==> |E.Extract(text).text| < |text|
    ensures !E.HasPair(text) ==> E.Extract(text).text == text
  {
  }

  /** Whatever stands in front of it, this text neither holds nor completes a tag. */
  ghost predicate Inert(own: string) {
    forall t: string, tag: string, j: int :: IsTag(tag) && At(t + own, tag, j) ==> j + |tag| <= |t|
  }

  predicate IsTag(tag: string) {
    tag == S.OPEN || tag == S.CLOSE
  }

  /** For one, text without a closing bracket. */
  lemma NoBracketIsInert(own: string)
    requires '>' !in own
    ensures Inert(own)
  {
    forall t: string, tag: string, j: int | IsTag(tag) && At(t + own, tag, j)
      ensures j + |tag| <= |t|
    {
      E.AtChars(t + own, tag, j);
      assert (t + own)[j + |tag| - 1] == tag[|tag| - 1] == '>';
    }
  }

  lemma InertIndex(t: string, own: string, tag: string)
    requires Inert(own) && IsTag(tag)
    ensures Index(t + own, tag) == Index(t, tag)
  {
    if Index(t, tag) >= 0 {
      IndexAppend(t, own, tag);
    } else {
      var j := Index(t + own, tag);
      if j >= 0 {
        AtAppend(t, own, tag, j);
      }
    }
  }

  /** Such text passes through the extraction behind whatever is left of the text before it. */
  lemma {:induction false} InertIsKept(t: string, own: string)
    requires Inert(own)
    ensures E.Extract(t + own).text == E.Extract(t).text + own
    decreases |t|
  {
    InertIndex(t, own, S.OPEN);
    var start := Index(t, S.OPEN);
    if start >= 0 {
      assert (t + own)[start..] == t[start..] + own;
      InertIndex(t[start..], own, S.CLOSE);
      var end := Index(t[start..], S.CLOSE);
      if end >= 0 {
        InertStep(t, own, start, end);
        InertIsKept(t[..start] + t[start + end + 11..], own);
      }
    }
  }

  lemma InertStep(t: string, own: string, start: nat, end: nat)
    requires Index(t, S.OPEN) == start && Index(t[start..], S.CLOSE) == end
    requires Index(t + own, S.OPEN) == start && Index((t + own)[start..], S.CLOSE) == end
    ensures start + end + 11 <= |t|
    ensures var spliced := t[..start] + t[start + end + 11..];
            |spliced| < |t| && E.Extract(t).text == E.Extract(spliced).text && E.Extract(t + own).text == E.Extract(spliced + own).text
  {
    E.EndsBehind(t, start, end);
    var spliced, whole := t[..start] + t[start + end + 11..], t + own;
    assert spliced + own == whole[..start] + whole[start + end + 11..];
    E.ExtractStep(t, start, end, spliced, t[start + 10..start + end]);
    E.ExtractStep(whole, start, end, spliced + own, whole[start + 10..start + end]);
  }

  /** When the text extracted from `earlier + own`, trimmed, is `own`. */
  lemma ExtractedIsOwnIff(earlier: string, own: string)
    requires own != ""
    ensures var final := TrimSpace(E.Extract(earlier + own).text);
            && (final == own <==> Trimmed(own) && Padded(E.Extract(earlier + own).text, own))
            && (Inert(own) ==> (final == own <==> Trimmed(own) && AllSpace(E.Extract(earlier).text)))
            && (!E.HasPair(earlier + own) ==> (final == own <==> Trimmed(own) && AllSpace(earlier)))
            && (earlier == "" ==> (final == own <==> Trimmed(own) && !E.HasPair(own)))
  {
    var all := earlier + own;
    TrimIff(E.Extract(all).text, own);
    ExtractCuts(all);
    if Trimmed(own) {
      OnlySpaceInFront(earlier, own);
      OnlySpaceInFront(E.Extract(earlier).text, own);
    }
    if Inert(own) {
      InertIsKept(earlier, own);
    }
    if earlier == "" {
      assert all == own;
      if E.HasPair(own) {
        NotShorter(E.Extract(own).text, own);
      }
    }
  }

  /** A successful attempt with a message item open closes it with the final content. */
  lemma FinalClose(cbs: seq<Callback>)
    requires OwnText(cbs) != ""
    ensures var p := Steps(UNSTARTED, cbs).p;
            var events := Answer(Upstream(cbs, Succeeded));
            |events| > 2 && events[|events| - 3] == ItemDone(p.outputIndex, Message(FinalContent(p)))
  {
    StartedIff(cbs);
    var r := Steps(UNSTARTED, cbs);
    var body := r.events + CloseMessage(r.p, FinalContent(r.p));
    assert body[|body| - 1] == CloseMessage(r.p, FinalContent(r.p))[1];
  }

  /**
   The text a successful attempt closes its open message item with, and completes the response with, is
   extracted from all the text of the attempt, and trimmed. It is the item's own text exactly if that is
   trimmed already and the extraction leaves it in nothing but white space: where the item holds and completes no
   tag, if only white space is left of the text before it; where no thinking block is cut out, if only white space
   came before it; where nothing came before it, if it holds no thinking block.
   */
  lemma FinalTextIsOwnIff(cbs: seq<Callback>)
    requires OwnText(cbs) != ""
    ensures var final := FinalContent(Steps(UNSTARTED, cbs).p);
            var events := Answer(Upstream(cbs, Succeeded));
            && |events| > 2 && events[|events| - 3] == ItemDone(Steps(UNSTARTED, cbs).p.outputIndex, Message(final))
            && (final == OwnText(cbs) <==> Trimmed(OwnText(cbs)) && Padded(E.Extract(AllText(cbs)).text, OwnText(cbs)))
            && (Inert(OwnText(cbs)) ==> (final == OwnText(cbs) <==> Trimmed(OwnText(cbs)) && AllSpace(E.Extract(EarlierText(cbs)).text)))
            && (!E.HasPair(AllText(cbs)) ==> (final == OwnText(cbs) <==> Trimmed(OwnText(cbs)) && AllSpace(EarlierText(cbs))))
            && (EarlierText(cbs) == "" ==> (final == OwnText(cbs) <==> Trimmed(OwnText(cbs)) && !E.HasPair(OwnText(cbs))))
  {
    FinalClose(cbs);
    FullTextIsAll(cbs);
    EarlierAndOwn(cbs);
    ExtractedIsOwnIff(EarlierText(cbs), OwnText(cbs));
  }

  lemma OneText(text: string)
    requires text != ""
    ensures var cbs := [OnText(text, false)];
            && OwnText(cbs) == text && AllText(cbs) == text && EarlierText(cbs) == ""
            && Steps(UNSTARTED, cbs).p.outputIndex == 0
  {
    var cbs := [OnText(text, false)];
    assert cbs[..0] == [] && cbs[1..] == [] && "" + text == text && text + "" == text;
  }

  lemma HiIsTrimmed()
    ensures TrimSpace(E.Extract(" hi").text) == "hi"
  {
    NoTag(" hi");
    ExtractCuts(" hi");
    assert " hi" == " " + "hi" + "";
    TrimTakesAll(" ", "hi", "");
  }

  /** Even when nothing was said before it, an item is not closed with its own text if that has white space around it. */
  lemma ClosedTrimmed()
    ensures var cbs := [OnText(" hi", false)];
            var events := Answer(Upstream(cbs, Succeeded));
            && OwnText(cbs) == " hi" && EarlierText(cbs) == ""
            && |events| > 2 && events[|events| - 3] == ItemDone(0, Message("hi"))
  {
    var cbs := [OnText(" hi", false)];
    OneText(" hi");
    FinalClose(cbs);
    FullTextIsAll(cbs);
    HiIsTrimmed();
  }

  lemma NoTag(s: string)
    requires |s| < 10
    ensures !E.HasPair(s)
  {
  }
}
