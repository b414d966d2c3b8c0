/** The Claude event stream: its events, its grammar, and the consumer that parses it. */
module ClaudeEvents {
  import opened Basics
  import opened Wire

  datatype ContentBlock = TextBlock(text: string) | ThinkingBlock | ToolBlock(id: string, name: string) | OtherBlock

  datatype Delta = TextDelta(text: string) | ThinkingDelta(thinking: string) | InputJsonDelta(partialJson: string) | OtherDelta

  datatype Usage = Usage(input: int, output: int)

  /** A decoded event; an absent JSON object is `None`, an absent string is empty. */
  datatype Event =
    | MessageStart(inputTokens: Option<int>)
    | BlockStart(index: int, block: Option<ContentBlock>)
    | BlockDelta(index: int, delta: Option<Delta>)
    | BlockStop(index: int)
    | MessageDelta(stopReason: Option<string>, usage: Option<Usage>)
    | MessageStop
    | ErrorEvent(message: string)

  // ---- Grammar ----

  datatype Stage = Streaming | Ending | Done | Aborted

  /** Where a reader of the stream stands: which block is open, and which index comes next. */
  datatype Reader = Reader(started: bool, open: Option<(nat, ContentBlock)>, next: nat, stage: Stage)

  const FRESH := Reader(false, None, 0, Streaming)

  /** Blocks are announced empty. */
  predicate Announces(block: ContentBlock) {
    match block
    case TextBlock(text) => text == ""
    case ThinkingBlock => true
    case ToolBlock(_, _) => true
    case OtherBlock => false
  }

  /** A block takes only deltas of its own type. */
  predicate Fits(block: ContentBlock, delta: Delta) {
    match block
    case TextBlock(_) => delta.TextDelta?
    case ThinkingBlock => delta.ThinkingDelta?
    case ToolBlock(_, _) => delta.InputJsonDelta?
    case OtherBlock => false
  }

  /** The reader after one event, or `None` if the grammar does not allow it here. */
  function Read(r: Reader, e: Event): Option<Reader> {
    if r.stage == Ending then
      if e.MessageStop? then Some(r.(stage := Done)) else None
    else if r.stage != Streaming then
      None
    else match e
      case MessageStart(usage) =>
        if !r.started && usage.Some? then Some(r.(started := true)) else None
      case BlockStart(index, block) =>
        if r.started && r.open.None? && index == r.next && block.Some? && Announces(block.value)
        then Some(r.(open := Some((r.next, block.value)), next := r.next + 1)) else None
      case BlockDelta(index, delta) =>
        if r.open.Some? && index == r.open.value.0 && delta.Some? && Fits(r.open.value.1, delta.value)
        then Some(r) else None
      case BlockStop(index) =>
        if r.open.Some? && index == r.open.value.0 then Some(r.(open := None)) else None
      case MessageDelta(reason, usage) =>
        if r.started && r.open.None? && reason.Some? && reason.value != "" && usage.Some?
        then Some(r.(stage := Ending)) else None
      case MessageStop => None
      case ErrorEvent(_) =>
        if r.started then Some(r.(stage := Aborted)) else None
  }

  function ReadAll(r: Reader, events: seq<Event>): Option<Reader>
    decreases |events|
  {
    if events == [] then Some(r)
    else match Read(r, events[0])
      case None => None
      case Some(r') => ReadAll(r', events[1..])
  }

  lemma {:induction false} ReadAppend(r: Reader, a: seq<Event>, b: seq<Event>)
    ensures ReadAll(r, a + b) == (match ReadAll(r, a) case None => None case Some(r') => ReadAll(r', b))
    decreases |a|
  {
    if a == [] {
      assert a + b == b;
    } else {
      assert (a + b)[0] == a[0] && (a + b)[1..] == a[1..] + b;
      if Read(r, a[0]).Some? {
        ReadAppend(Read(r, a[0]).value, a[1..], b);
      }
    }
  }

  // ---- Consumer ----

  datatype BlockKind = TextKind | ToolKind | OtherKind

  datatype BlockState = BlockState(kind: BlockKind, id: string, name: string, input: string)

  /** The locals of the consumer's loop, and the content callbacks made so far. */
  datatype Parse = Parse(
    blocks: map<int, BlockState>,
    calls: seq<Callback>,
    input: int,
    output: int,
    stopReason: string,
    sawStop: bool)

  const UNPARSED := Parse(map[], [], 0, 0, "", false)

  /** All callbacks of one stream: content, then the stop reason and the token counts if reported. */
  datatype Consumed = Consumed(calls: seq<Callback>, stopReason: Option<string>, complete: Option<Usage>)

  function DecodeInput(codec: Codec, raw: string): Json {
    if raw == "" then Null
    else if !codec.valid(raw) then Object(map["arguments_raw" := Text(raw)])
    else codec.unmarshal(raw)
  }

  function StateOf(block: ContentBlock): BlockState {
    match block
    case ToolBlock(id, name) => BlockState(ToolKind, id, name, "")
    case TextBlock(_) => BlockState(TextKind, "", "", "")
    case _ => BlockState(OtherKind, "", "", "")
  }

  function CallText(text: string): seq<Callback> {
    if text == "" then [] else [OnText(text, false)]
  }

  /** The consumer's loop body. */
  function Feed(codec: Codec, p: Parse, e: Event): Parse {
    match e
    case MessageStart(usage) =>
      if usage.Some? && usage.value > 0 then p.(input := usage.value) else p
    case BlockStart(index, block) =>
      if block.None? then p
      else p.(
        calls := p.calls + (if block.value.TextBlock? then CallText(block.value.text) else []),
        blocks := p.blocks[index := StateOf(block.value)])
    case BlockDelta(index, delta) =>
      if delta.None? || index !in p.blocks then p
      else (match delta.value
        case TextDelta(text) => p.(calls := p.calls + CallText(text))
        case InputJsonDelta(partial) =>
          var st := p.blocks[index];
          p.(blocks := p.blocks[index := st.(input := st.input + partial)])
        case _ => p)
    case BlockStop(index) =>
      p.(
        calls := p.calls + (
          if index in p.blocks && p.blocks[index].kind == ToolKind then
            [OnToolUse(ToolUse(p.blocks[index].id, p.blocks[index].name, DecodeInput(codec, p.blocks[index].input)))]
          else []),
        blocks := p.blocks - {index})
    case MessageDelta(reason, usage) =>
      p.(
        stopReason := if reason.Some? && reason.value != "" then reason.value else p.stopReason,
        input := if usage.Some? && usage.value.input > 0 then usage.value.input else p.input,
        output := if usage.Some? && usage.value.output > 0 then usage.value.output else p.output)
    case MessageStop => p.(sawStop := true)
    case ErrorEvent(_) => p
  }

  function FeedAll(codec: Codec, p: Parse, events: seq<Event>): Parse
    decreases |events|
  {
    if events == [] then p else FeedAll(codec, Feed(codec, p, events[0]), events[1..])
  }

  function Conclude(p: Parse): Consumed {
    Consumed(
      p.calls,
      if p.stopReason == "" then None else Some(p.stopReason),
      if p.sawStop || p.input > 0 || p.output > 0 then Some(Usage(p.input, p.output)) else None)
  }

  lemma {:induction false} FeedAppend(codec: Codec, p: Parse, a: seq<Event>, b: seq<Event>)
    ensures FeedAll(codec, p, a + b) == FeedAll(codec, FeedAll(codec, p, a), b)
    decreases |a|
  {
    if a == [] {
      assert a + b == b;
    } else {
      assert (a + b)[0] == a[0] && (a + b)[1..] == a[1..] + b;
      FeedAppend(codec, Feed(codec, p, a[0]), a[1..], b);
    }
  }

  lemma FeedSnoc(codec: Codec, events: seq<Event>, i: nat)
    requires i < |events|
    ensures FeedAll(codec, UNPARSED, events[..i + 1]) == Feed(codec, FeedAll(codec, UNPARSED, events[..i]), events[i])
  {
    assert events[..i + 1] == events[..i] + [events[i]];
    FeedAppend(codec, UNPARSED, events[..i], [events[i]]);
    assert [events[i]][1..] == [];
  }
}
