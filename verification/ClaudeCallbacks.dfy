/** What a consumer of Claude events calls back, told from the event list alone. */
module ClaudeCallbacks {
  import opened Basics
  import opened Wire
  import opened ClaudeEvents

  /** This event announces a content block at the index. */
  predicate Announced(e: Event, index: int) {
    e.BlockStart? && e.index == index && e.block.Some?
  }

  /** Nothing has stopped the block announced by event `s`, or announced it anew, before event `n`. */
  ghost predicate StillOpen(events: seq<Event>, s: nat, n: nat, index: int)
    requires s < n <= |events|
  {
    Announced(events[s], index) && forall j :: s < j < n ==> !Announced(events[j], index) && events[j] != BlockStop(index)
  }

  /** Where the block open at the index before event `n` was announced, or -1 if none is open. */
  function Opening(events: seq<Event>, n: nat, index: int): (s: int)
    requires n <= |events|
    ensures -1 <= s < n
    ensures s >= 0 ==> StillOpen(events, s, n, index)
    ensures s < 0 ==> forall j :: 0 <= j < n ==> !StillOpen(events, j, n, index)
  {
    if n == 0 then -1
    else if Announced(events[n - 1], index) then n - 1
    else if events[n - 1] == BlockStop(index) then -1
    else
      var s := Opening(events, n - 1, index);
      assert s < 0 ==> forall j :: 0 <= j < n - 1 && StillOpen(events, j, n, index) ==> StillOpen(events, j, n - 1, index);
      s
  }

  /** What an event adds to the input of the block at the index. */
  function Fragment(e: Event, index: int): string {
    if e.BlockDelta? && e.index == index && e.delta.Some? && e.delta.value.InputJsonDelta? then e.delta.value.partialJson else ""
  }

  /** All fragments for the index behind event `s` and before event `n`, in order, whatever lies between them. */
  function Fragments(events: seq<Event>, s: nat, n: nat, index: int): string
    requires s < n <= |events|
  {
    if n == s + 1 then "" else Fragments(events, s, n - 1, index) + Fragment(events[n - 1], index)
  }

  /** What a client is to make of the fragments joined: nothing, an object, or the raw text kept as it is. */
  function InputOf(codec: Codec, joined: string): Json {
    if joined == "" then Null
    else if codec.valid(joined) then codec.unmarshal(joined)
    else Object(map["arguments_raw" := Text(joined)])
  }

  function Spoken(text: string): seq<Callback> {
    if text == "" then [] else [OnText(text, false)]
  }

  /** What event `k` is to be called back as. */
  function CallsAt(codec: Codec, events: seq<Event>, k: nat): seq<Callback>
    requires k < |events|
  {
    match events[k]
    case BlockStart(_, Some(TextBlock(text))) => Spoken(text)
    case BlockDelta(index, Some(TextDelta(text))) => if Opening(events, k, index) < 0 then [] else Spoken(text)
    case BlockStop(index) => (
      var s := Opening(events, k, index);
      if s < 0 then []
      else match events[s].block.value
        case ToolBlock(id, name) => [OnToolUse(ToolUse(id, name, InputOf(codec, Fragments(events, s, k, index))))]
        case _ => [])
    case _ => []
  }

  function CallsUpTo(codec: Codec, events: seq<Event>, n: nat): seq<Callback>
    requires n <= |events|
  {
    if n == 0 then [] else CallsUpTo(codec, events, n - 1) + CallsAt(codec, events, n - 1)
  }

  /** The last stop reason given, and the last positive counts. */
  function ReasonUpTo(events: seq<Event>, n: nat): string
    requires n <= |events|
  {
    if n == 0 then ""
    else match events[n - 1]
      case MessageDelta(Some(reason), _) => if reason == "" then ReasonUpTo(events, n - 1) else reason
      case _ => ReasonUpTo(events, n - 1)
  }

  function InputUpTo(events: seq<Event>, n: nat): int
    requires n <= |events|
  {
    if n == 0 then 0
    else match events[n - 1]
      case MessageStart(Some(count)) => if count > 0 then count else InputUpTo(events, n - 1)
      case MessageDelta(_, Some(usage)) => if usage.input > 0 then usage.input else InputUpTo(events, n - 1)
      case _ => InputUpTo(events, n - 1)
  }

  function OutputUpTo(events: seq<Event>, n: nat): int
    requires n <= |events|
  {
    if n == 0 then 0
    else match events[n - 1]
      case MessageDelta(_, Some(usage)) => if usage.output > 0 then usage.output else OutputUpTo(events, n - 1)
      case _ => OutputUpTo(events, n - 1)
  }

  // ---- The consumer agrees ----

  /** What the consumer holds for a block: what it was announced as, and the fragments so far. */
  ghost predicate BlockHeld(p: Parse, events: seq<Event>, n: nat, index: int)
    requires n <= |events|
  {
    var s := Opening(events, n, index);
    if s < 0 then index !in p.blocks
    else index in p.blocks && p.blocks[index] == StateOf(events[s].block.value).(input := Fragments(events, s, n, index))
  }

  ghost predicate Follows(codec: Codec, p: Parse, events: seq<Event>, n: nat)
    requires n <= |events|
  {
    && p.calls == CallsUpTo(codec, events, n)
    && forall index :: BlockHeld(p, events, n, index)
  }

  /** What one event does to the block of one index. */
  lemma FedBlock(codec: Codec, p: Parse, e: Event, index: int)
    ensures var q := Feed(codec, p, e);
            if Announced(e, index) then index in q.blocks && q.blocks[index] == StateOf(e.block.value)
            else if e == BlockStop(index) then index !in q.blocks
            else
              && (index in q.blocks <==> index in p.blocks)
              && (index in p.blocks ==> q.blocks[index] == p.blocks[index].(input := p.blocks[index].input + Fragment(e, index)))
  {
    assert index in p.blocks ==> p.blocks[index].input + "" == p.blocks[index].input;
  }

  lemma BlockFollows(codec: Codec, p: Parse, events: seq<Event>, n: nat, m: nat, index: int)
    requires m == n + 1 <= |events| && BlockHeld(p, events, n, index)
    ensures BlockHeld(Feed(codec, p, events[n]), events, m, index)
  {
    FedBlock(codec, p, events[n], index);
    var s := Opening(events, n, index);
    if !Announced(events[n], index) && events[n] != BlockStop(index) && s >= 0 {
      assert Fragments(events, s, m, index) == Fragments(events, s, n, index) + Fragment(events[n], index);
    }
  }

  lemma CallsFollow(codec: Codec, p: Parse, events: seq<Event>, n: nat)
    requires n < |events| && Follows(codec, p, events, n)
    ensures Feed(codec, p, events[n]).calls == p.calls + CallsAt(codec, events, n)
  {
    match events[n]
    case BlockDelta(index, _) => assert BlockHeld(p, events, n, index);
    case BlockStop(index) => assert BlockHeld(p, events, n, index);
    case _ =>
  }

  lemma {:induction false} ConsumerFollows(codec: Codec, events: seq<Event>, n: nat)
    requires n <= |events|
    ensures Follows(codec, FeedAll(codec, UNPARSED, events[..n]), events, n)
  {
    if n == 0 {
      assert events[..0] == [];
    } else {
      var m: nat := n - 1;
      ConsumerFollows(codec, events, m);
      FeedSnoc(codec, events, m);
      var p := FeedAll(codec, UNPARSED, events[..m]);
      CallsFollow(codec, p, events, m);
      forall index
        ensures BlockHeld(Feed(codec, p, events[m]), events, n, index)
      {
        assert BlockHeld(p, events, m, index);
        BlockFollows(codec, p, events, m, n, index);
      }
    }
  }

  lemma {:induction false} OpeningIs(events: seq<Event>, s: nat, n: nat, index: int)
    requires s < n <= |events| && StillOpen(events, s, n, index)
    ensures Opening(events, n, index) == s
  {
    if n > s + 1 {
      OpeningIs(events, s, n - 1, index);
    }
  }

  /**
   A tool use gets all of its input: where a tool block is stopped, one callback is made. It carries the id and
   name of the block's announcement, and the decoding of all fragments given for its index since then, joined in
   order, whatever events of other indices lie between them: null if they are all empty, and an object that keeps
   them as they are if they are not valid.
   */
  lemma ToolIsCalledBack(codec: Codec, events: seq<Event>, s: nat, k: nat, index: int, id: string, name: string)
    requires s < k < |events| && StillOpen(events, s, k, index)
    requires events[s] == BlockStart(index, Some(ToolBlock(id, name))) && events[k] == BlockStop(index)
    ensures var joined := Fragments(events, s, k, index);
            var input :=
              if joined == "" then Null
              else if codec.valid(joined) then codec.unmarshal(joined)
              else Object(map["arguments_raw" := Text(joined)]);
            FeedAll(codec, UNPARSED, events[..k + 1]).calls
            == FeedAll(codec, UNPARSED, events[..k]).calls + [OnToolUse(ToolUse(id, name, input))]
  {
    OpeningIs(events, s, k, index);
    OneMoreEvent(codec, events, k, k + 1);
  }

  lemma OneMoreEvent(codec: Codec, events: seq<Event>, k: nat, m: nat)
    requires m == k + 1 <= |events|
    ensures FeedAll(codec, UNPARSED, events[..m]).calls == FeedAll(codec, UNPARSED, events[..k]).calls + CallsAt(codec, events, k)
  {
    ConsumerFollows(codec, events, k);
    ConsumerFollows(codec, events, m);
  }

  /** The whole of what is called back: content in the order of the events, then the stop reason, then the counts. */
  function Callbacks(codec: Codec, events: seq<Event>): Consumed {
    var n := |events|;
    var reason, input, output := ReasonUpTo(events, n), InputUpTo(events, n), OutputUpTo(events, n);
    Consumed(
      CallsUpTo(codec, events, n),
      if reason == "" then None else Some(reason),
      if MessageStop in events || input > 0 || output > 0 then Some(Usage(input, output)) else None)
  }

  lemma {:induction false} CountsFollow(codec: Codec, events: seq<Event>, n: nat)
    requires n <= |events|
    ensures var p := FeedAll(codec, UNPARSED, events[..n]);
            && p.stopReason == ReasonUpTo(events, n) && p.input == InputUpTo(events, n) && p.output == OutputUpTo(events, n)
            && (p.sawStop <==> MessageStop in events[..n])
  {
    if n == 0 {
      assert events[..0] == [];
    } else {
      var m: nat := n - 1;
      CountsFollow(codec, events, m);
      FeedSnoc(codec, events, m);
      assert events[..n] == events[..m] + [events[m]];
    }
  }

  /** On every list of events, well formed or not, the consumer calls back exactly that. */
  lemma ConsumedIs(codec: Codec, events: seq<Event>)
    ensures Conclude(FeedAll(codec, UNPARSED, events)) == Callbacks(codec, events)
  {
    assert events[..|events|] == events;
    ConsumerFollows(codec, events, |events|);
    CountsFollow(codec, events, |events|);
  }

  /** The consumer's loop. */
  method ConsumeSSE(codec: Codec, events: seq<Event>) returns (result: Consumed)
    ensures result == Conclude(FeedAll(codec, UNPARSED, events)) == Callbacks(codec, events)
  {
    var blocks: map<int, BlockState> := map[];
    var calls: seq<Callback> := [];
    var inputTokens, outputTokens := 0, 0;
    var sawStop := false;
    var stopReason := "";
    for i := 0 to |events|
      invariant FeedAll(codec, UNPARSED, events[..i]) == Parse(blocks, calls, inputTokens, outputTokens, stopReason, sawStop)
    {
      FeedSnoc(codec, events, i);
      match events[i] {
        case MessageStart(usage) =>
          if usage.Some? && usage.value > 0 {
            inputTokens := usage.value;
          }
        case BlockStart(index, block) =>
          if block.None? {
            continue;
          }
          var st := BlockState(OtherKind, "", "", "");
          if block.value.ToolBlock? {
            st := BlockState(ToolKind, block.value.id, block.value.name, "");
          } else if block.value.TextBlock? {
            st := BlockState(TextKind, "", "", "");
            if block.value.text != "" {
              calls := calls + [OnText(block.value.text, false)];
            }
          }
          blocks := blocks[index := st];
        case BlockDelta(index, delta) =>
          if delta.None? || index !in blocks {
            continue;
          }
          if delta.value.TextDelta? && delta.value.text != "" {
            calls := calls + [OnText(delta.value.text, false)];
          } else if delta.value.InputJsonDelta? {
            var st := blocks[index];
            blocks := blocks[index := st.(input := st.input + delta.value.partialJson)];
          }
        case BlockStop(index) =>
          if index in blocks && blocks[index].kind == ToolKind {
            var st := blocks[index];
            var input := Null;
            if st.input != "" {
              if !codec.valid(st.input) {
                input := Object(map["arguments_raw" := Text(st.input)]);
              } else {
                input := codec.unmarshal(st.input);
              }
            }
            calls := calls + [OnToolUse(ToolUse(st.id, st.name, input))];
          }
          blocks := blocks - {index};
        case MessageDelta(reason, usage) =>
          if reason.Some? && reason.value != "" {
            stopReason := reason.value;
          }
          if usage.Some? {
            if usage.value.input > 0 {
              inputTokens := usage.value.input;
            }
            if usage.value.output > 0 {
              outputTokens := usage.value.output;
            }
          }
        case MessageStop =>
          sawStop := true;
        case ErrorEvent(_) =>
      }
    }
    assert events[..|events|] == events;
    ConsumedIs(codec, events);
    result := Consumed(calls, None, None);
    if stopReason != "" {
      result := result.(stopReason := Some(stopReason));
    }
    if sawStop || inputTokens > 0 || outputTokens > 0 {
      result := result.(complete := Some(Usage(inputTokens, outputTokens)));
    }
  }
}
