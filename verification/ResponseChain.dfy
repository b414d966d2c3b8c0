/** Conversation history rebuilt from stored responses that name their predecessor. */
module ResponseChain {
  import opened Basics
  import opened Text
  import W = Wire

  datatype Part = Part(kind: string, text: string)

  datatype Item = Item(kind: string, id: string, callId: string, role: string, name: string, arguments: string, content: seq<Part>)

  datatype Response = Response(id: string, previous: string, instructions: string, input: string, output: seq<Item>)

  datatype ToolCall = ToolCall(id: string, name: string, arguments: string)

  datatype Message = Message(role: string, content: W.Json, calls: seq<ToolCall>)

  /**
   What the store answers for an id; nothing when it is missing, expired or unreadable. Different ids may
   answer alike, a response may be filed under another id than its own, and links may run in circles.
   */
  type Load = string -> Option<Response>

  /** The response asked about and at most 64 ancestors. */
  const LIMIT: nat := 65

  function Ids(chain: seq<Response>): set<string> {
    set i | 0 <= i < |chain| :: chain[i].id
  }

  /** The response before the oldest of `chain`, unless it is unnamed, already passed, or not stored. */
  function Next(load: Load, chain: seq<Response>): Option<Response>
    requires chain != []
  {
    var id := chain[0].previous;
    if id == "" || id in Ids(chain) then None else load(id)
  }

  /** `chain` extended into the past as far as it goes. */
  function Walk(load: Load, chain: seq<Response>): (r: seq<Response>)
    requires 0 < |chain| <= LIMIT
    ensures |chain| <= |r| <= LIMIT && r[|r| - |chain|..] == chain
    decreases LIMIT - |chain|
  {
    if |chain| < LIMIT && Next(load, chain).Some? then
      var older := [Next(load, chain).value] + chain;
      assert older[1..] == chain;
      var r := Walk(load, older);
      Slices(r, |r| - |older|, 1);
      r
    else
      assert chain[0..] == chain;
      chain
  }

  lemma WalkStep(load: Load, chain: seq<Response>, older: Response)
    requires 0 < |chain| < LIMIT && Next(load, chain) == Some(older)
    ensures Walk(load, chain) == Walk(load, [older] + chain)
  {
  }

  function Chain(load: Load, response: Response): seq<Response> {
    Walk(load, [response])
  }

  /**
   What a chain has to be: it ends in the response, every node is what the store answers for the id that
   the node after it names, that id was not passed before, and it stops only at the limit or where the
   oldest names nothing, something passed, or something not stored.
   */
  ghost predicate IsChain(load: Load, response: Response, c: seq<Response>) {
    && 0 < |c| <= LIMIT
    && c[|c| - 1] == response
    && (forall i :: 0 < i < |c| ==> LinkedAt(load, c, i))
    && (|c| == LIMIT || c[0].previous == "" || c[0].previous in Ids(c) || load(c[0].previous) == None)
  }

  ghost predicate LinkedAt(load: Load, c: seq<Response>, i: int)
    requires 0 < i < |c|
  {
    c[i].previous != "" && c[i].previous !in Ids(c[i..]) && load(c[i].previous) == Some(c[i - 1])
  }

  lemma {:induction false} WalkLinks(load: Load, chain: seq<Response>)
    requires 0 < |chain| <= LIMIT
    requires forall i :: 0 < i < |chain| ==> LinkedAt(load, chain, i)
    ensures IsChain(load, chain[|chain| - 1], Walk(load, chain))
    decreases LIMIT - |chain|
  {
    if |chain| < LIMIT && Next(load, chain).Some? {
      var older := [Next(load, chain).value] + chain;
      forall i | 0 < i < |older|
        ensures LinkedAt(load, older, i)
      {
        assert older[i..] == chain[i - 1..];
        if i == 1 {
          assert chain[0..] == chain;
        } else {
          assert LinkedAt(load, chain, i - 1);
        }
      }
      WalkLinks(load, older);
    }
  }

  lemma {:induction false} WalkReaches(load: Load, response: Response, c: seq<Response>, i: nat)
    requires IsChain(load, response, c) && i < |c|
    ensures Walk(load, c[i..]) == c
    decreases i
  {
    if i == 0 {
      assert c[0..] == c;
    } else {
      var before: nat := i - 1;
      assert LinkedAt(load, c, i);
      assert c[before..] == [c[before]] + c[i..];
      WalkReaches(load, response, c, before);
    }
  }

  /** On every store, the walk gives the one and only chain of a response. */
  lemma ChainIsUnique(load: Load, response: Response, c: seq<Response>)
    ensures IsChain(load, response, c) <==> c == Chain(load, response)
  {
    WalkLinks(load, [response]);
    if IsChain(load, response, c) {
      assert c[|c| - 1..] == [response];
      WalkReaches(load, response, c, |c| - 1);
    }
  }

  /** Every response is filed under its own id. */
  ghost predicate Canonical(load: Load) {
    forall id :: load(id).Some? ==> load(id).value.id == id
  }

  /** When ids are canonical no response appears twice, however the store is linked. */
  lemma NodesAreDistinct(load: Load, response: Response, i: nat, j: nat)
    requires Canonical(load)
    requires i < j < |Chain(load, response)|
    ensures Chain(load, response)[i].id != Chain(load, response)[j].id
  {
    var c := Chain(load, response);
    ChainIsUnique(load, response, c);
    assert LinkedAt(load, c, i + 1);
    assert c[j] == c[i + 1..][j - i - 1];
  }

  lemma IdsSnoc(chain: seq<Response>, response: Response)
    ensures Ids(chain + [response]) == Ids(chain) + {response.id}
  {
    var whole := chain + [response];
    assert whole[|chain|] == response;
    forall i | 0 <= i < |chain|
      ensures whole[i] == chain[i]
    {
    }
  }

  /** The parent's walk passes `id` on its way: some node other than the oldest reached names it. */
  predicate Passes(chain: seq<Response>, id: string) {
    exists i :: 0 < i < |chain| && chain[i].previous == id
  }

  lemma LinksBeside(load: Load, c: seq<Response>, response: Response, i: int)
    requires 0 < i < |c| && LinkedAt(load, c, i)
    ensures LinkedAt(load, c + [response], i) <==> c[i].previous != response.id
  {
    var extended := c + [response];
    assert extended[i..] == c[i..] + [response];
    IdsSnoc(c[i..], response);
    assert extended[i] == c[i] && extended[i - 1] == c[i - 1];
  }

  lemma LastLink(load: Load, c: seq<Response>, response: Response)
    requires c != [] && response.previous != "" && load(response.previous) == Some(c[|c| - 1])
    ensures LinkedAt(load, c + [response], |c|) <==> response.previous != response.id
  {
    var extended := c + [response];
    assert extended[|c|..] == [response];
    IdsSnoc([], response);
    assert [] + [response] == [response];
  }

  lemma ExtendedIsChain(load: Load, response: Response, parent: Response, c: seq<Response>)
    requires response.previous != "" && load(response.previous) == Some(parent)
    requires IsChain(load, parent, c)
    requires |c| < LIMIT && response.previous != response.id && !Passes(c, response.id)
    ensures IsChain(load, response, c + [response])
  {
    var extended := c + [response];
    LastLink(load, c, response);
    forall i | 0 < i < |extended|
      ensures LinkedAt(load, extended, i)
    {
      if i < |c| {
        assert LinkedAt(load, c, i);
        LinksBeside(load, c, response, i);
      }
    }
    IdsSnoc(c, response);
    assert extended[0] == c[0];
  }

  lemma OnlyThenExtended(load: Load, response: Response, parent: Response, c: seq<Response>)
    requires response.previous != "" && load(response.previous) == Some(parent)
    requires IsChain(load, parent, c)
    requires IsChain(load, response, c + [response])
    ensures |c| < LIMIT && response.previous != response.id && !Passes(c, response.id)
  {
    var extended := c + [response];
    assert LinkedAt(load, extended, |c|);
    LastLink(load, c, response);
    forall i | 0 < i < |c|
      ensures c[i].previous != response.id
    {
      assert LinkedAt(load, c, i);
      assert LinkedAt(load, extended, i);
      LinksBeside(load, c, response, i);
    }
  }

  /**
   A response's chain is its parent's chain and itself, exactly when the parent's chain leaves room under
   the limit and does not come back to the response.
   */
  lemma ExtendsParentIff(load: Load, response: Response, parent: Response)
    requires response.previous != "" && load(response.previous) == Some(parent)
    ensures (Chain(load, response) == Chain(load, parent) + [response]) <==>
            (|Chain(load, parent)| < LIMIT && response.previous != response.id && !Passes(Chain(load, parent), response.id))
  {
    var c := Chain(load, parent);
    ChainIsUnique(load, parent, c);
    ChainIsUnique(load, response, c + [response]);
    if IsChain(load, response, c + [response]) {
      OnlyThenExtended(load, response, parent, c);
    } else if |c| < LIMIT && response.previous != response.id && !Passes(c, response.id) {
      ExtendedIsChain(load, response, parent, c);
    }
  }

  lemma {:induction false} WalkBeside(load: Load, chain: seq<Response>, response: Response)
    returns (k: nat)
    requires 0 < |chain| < LIMIT
    ensures k <= |Walk(load, chain)|
    ensures Walk(load, chain + [response]) == Walk(load, chain)[k..] + [response]
    decreases LIMIT - |chain|
  {
    var beside := chain + [response];
    IdsSnoc(chain, response);
    if |beside| < LIMIT && Next(load, beside).Some? {
      var older := [Next(load, beside).value] + chain;
      assert older + [response] == [Next(load, beside).value] + beside;
      k := WalkBeside(load, older, response);
    } else {
      k := |Walk(load, chain)| - |chain|;
    }
  }

  lemma NextOfOne(load: Load, response: Response)
    ensures Next(load, [response]) == if response.previous == "" || response.previous == response.id then None else load(response.previous)
  {
    IdsSnoc([], response);
    assert [] + [response] == [response];
  }

  lemma LongEnough(load: Load, chain: seq<Response>)
    requires 0 < |chain| <= LIMIT
    ensures |Walk(load, chain)| >= |chain|
  {
  }

  /** In any case the past of a response is the recent end of its parent's chain. */
  lemma RecentPastIsKept(load: Load, response: Response, parent: Response)
    returns (k: nat)
    requires response.previous != "" && response.previous != response.id
    requires load(response.previous) == Some(parent)
    ensures k < |Chain(load, parent)|
    ensures Chain(load, response) == Chain(load, parent)[k..] + [response]
  {
    NextOfOne(load, response);
    WalkStep(load, [response], parent);
    k := WalkBeside(load, [parent], response);
    LongEnough(load, [parent] + [response]);
  }

  function Reversed<T>(s: seq<T>): seq<T> {
    seq(|s|, i requires 0 <= i < |s| => s[|s| - 1 - i])
  }

  /** The walk under way: the stack is the chain so far, newest first, and the visited ids are its own. */
  ghost predicate Climbing(load: Load, prev: Response, stack: seq<Response>, visited: set<string>, cursor: Response) {
    && 0 < |stack| <= LIMIT && cursor == stack[|stack| - 1]
    && visited == Ids(Reversed(stack))
    && Walk(load, Reversed(stack)) == Chain(load, prev)
  }

  lemma WalkEnds(load: Load, chain: seq<Response>)
    requires 0 < |chain| <= LIMIT && (|chain| == LIMIT || Next(load, chain) == None)
    ensures Walk(load, chain) == chain
  {
  }

  /** One step back, if the cursor names a stored response that was not passed. */
  method Climb(load: Load, ghost prev: Response, stack: seq<Response>, visited: set<string>, cursor: Response)
      returns (climbed: bool, stack': seq<Response>, visited': set<string>, cursor': Response)
    requires Climbing(load, prev, stack, visited, cursor) && |stack| < LIMIT
    ensures Climbing(load, prev, stack', visited', cursor')
    ensures if climbed then |stack'| == |stack| + 1 else Reversed(stack') == Chain(load, prev)
  {
    ghost var chain := Reversed(stack);
    assert chain[0] == cursor;
    climbed, stack', visited', cursor' := false, stack, visited, cursor;
    if cursor.previous == "" || cursor.previous in visited {
      WalkEnds(load, chain);
      return;
    }
    var ancestor := load(cursor.previous);
    if ancestor.None? {
      WalkEnds(load, chain);
      return;
    }
    WalkStep(load, chain, ancestor.value);
    StackGrows(stack, ancestor.value);
    climbed, stack', visited', cursor' := true, stack + [ancestor.value], visited + {ancestor.value.id}, ancestor.value;
  }

  method CollectAncestorChain(load: Load, prev: Response) returns (stack: seq<Response>)
    ensures stack == Chain(load, prev)
  {
    stack := [prev];
    var visited := {prev.id};
    var cursor := prev;
    var climbed, depth := true, 0;
    StartsClimbing(load, prev);
    while depth < 64 && climbed
      invariant depth <= 64 && Climbing(load, prev, stack, visited, cursor)
      invariant climbed ==> |stack| == depth + 1
      invariant !climbed ==> Reversed(stack) == Chain(load, prev)
    {
      climbed, stack, visited, cursor := Climb(load, prev, stack, visited, cursor);
      depth := depth + 1;
    }
    if climbed {
      WalkEnds(load, Reversed(stack));
    }
    stack := Reverse(stack);
  }

  lemma StartsClimbing(load: Load, prev: Response)
    ensures Climbing(load, prev, [prev], {prev.id}, prev)
  {
    StackGrows([], prev);
    assert [] + [prev] == [prev] == [prev] + Reversed([]);
  }

  /** Swaps entries in place from both ends. */
  method Reverse(s: seq<Response>) returns (stack: seq<Response>)
    ensures stack == Reversed(s)
  {
    stack := s;
    var i, j := 0, |stack| - 1;
    while i < j
      invariant |stack| == |s| && i + j == |s| - 1 && 0 <= i <= j + 1
      invariant forall k :: 0 <= k < i || j < k < |stack| ==> stack[k] == s[|s| - 1 - k]
      invariant forall k :: i <= k <= j ==> stack[k] == s[k]
    {
      stack := stack[i := stack[j]][j := stack[i]];
      i, j := i + 1, j - 1;
    }
  }

  lemma StackGrows(stack: seq<Response>, ancestor: Response)
    ensures Reversed(stack + [ancestor]) == [ancestor] + Reversed(stack)
    ensures Ids(Reversed(stack + [ancestor])) == Ids(Reversed(stack)) + {ancestor.id}
  {
    var r := Reversed(stack);
    var grown := [ancestor] + r;
    assert Reversed(stack + [ancestor]) == grown;
    assert grown[0] == ancestor;
    forall i | 0 <= i < |r|
      ensures grown[i + 1] == r[i]
    {
    }
  }

  predicate IsText(p: Part) {
    p.kind == "output_text" || p.kind == "text" || p.kind == "input_text"
  }

  /** The text of the text parts, in order. */
  function Joined(parts: seq<Part>): string {
    if parts == [] then ""
    else
      var p := parts[|parts| - 1];
      Joined(parts[..|parts| - 1]) + (if IsText(p) then p.text else "")
  }

  method JoinTextParts(parts: seq<Part>) returns (out: string)
    ensures out == Joined(parts)
  {
    out := "";
    for i := 0 to |parts|
      invariant out == Joined(parts[..i])
    {
      assert parts[..i + 1][..i] == parts[..i];
      var p := parts[i];
      if p.kind == "output_text" || p.kind == "text" || p.kind == "input_text" {
        out := out + p.text;
      }
    }
    assert parts[..|parts|] == parts;
  }

  function RoleOf(item: Item): string {
    if item.role == "" then "assistant" else item.role
  }

  function CallOf(item: Item): ToolCall {
    ToolCall(if item.callId == "" then item.id else item.callId, item.name, item.arguments)
  }

  function MessageOf(item: Item): seq<Message> {
    if item.kind == "message" then
      if Joined(item.content) == "" && RoleOf(item) == "assistant" then []
      else [Message(RoleOf(item), W.Text(Joined(item.content)), [])]
    else if item.kind == "function_call" then
      [Message("assistant", W.Text(""), [CallOf(item)])]
    else []
  }

  function MessagesOf(items: seq<Item>): seq<Message> {
    if items == [] then []
    else MessagesOf(items[..|items| - 1]) + MessageOf(items[|items| - 1])
  }

  method OutputToMessages(items: seq<Item>) returns (out: seq<Message>)
    ensures out == MessagesOf(items)
  {
    out := [];
    for i := 0 to |items|
      invariant out == MessagesOf(items[..i])
    {
      assert items[..i + 1][..i] == items[..i];
      var item := items[i];
      if item.kind == "message" {
        var text := JoinTextParts(item.content);
        var role := item.role;
        if role == "" {
          role := "assistant";
        }
        if text == "" && role == "assistant" {
          continue;
        }
        out := out + [Message(role, W.Text(text), [])];
      } else if item.kind == "function_call" {
        var tc := ToolCall(item.callId, item.name, item.arguments);
        if tc.id == "" {
          tc := tc.(id := item.id);
        }
        out := out + [Message("assistant", W.Text(""), [tc])];
      }
    }
    assert items[..|items|] == items;
  }

  /** One thing a reader of a conversation gets: a character somebody said, or a call. */
  datatype Heard = Said(role: string, c: char) | Called(call: ToolCall)

  function Spoken(role: string, text: string): seq<Heard> {
    seq(|text|, i requires 0 <= i < |text| => Said(role, text[i]))
  }

  function Calls(calls: seq<ToolCall>): seq<Heard> {
    seq(|calls|, i requires 0 <= i < |calls| => Called(calls[i]))
  }

  function HeardFrom(m: Message): seq<Heard> {
    (if m.content.Text? then Spoken(m.role, m.content.s) else []) + Calls(m.calls)
  }

  function Transcript(messages: seq<Message>): seq<Heard> {
    if messages == [] then []
    else Transcript(messages[..|messages| - 1]) + HeardFrom(messages[|messages| - 1])
  }

  function SpokenParts(role: string, parts: seq<Part>): seq<Heard> {
    if parts == [] then []
    else
      var p := parts[|parts| - 1];
      SpokenParts(role, parts[..|parts| - 1]) + (if p.kind in ["text", "input_text", "output_text"] then Spoken(role, p.text) else [])
  }

  /**
   What a stored item says, part by part: a message what its text parts hold, by the assistant if nobody is named, and a
   function call the call, under its call id if it has one and else under its own.
   */
  function StoredIn(item: Item): seq<Heard> {
    match item.kind
    case "message" => SpokenParts(if item.role == "" then "assistant" else item.role, item.content)
    case "function_call" => [Called(ToolCall(if item.callId != "" then item.callId else item.id, item.name, item.arguments))]
    case _ => []
  }

  /** What the stored items say, in their order. */
  function StoredTranscript(items: seq<Item>): seq<Heard> {
    if items == [] then []
    else StoredTranscript(items[..|items| - 1]) + StoredIn(items[|items| - 1])
  }

  lemma {:induction false} PartsAreSpoken(role: string, parts: seq<Part>)
    ensures SpokenParts(role, parts) == Spoken(role, Joined(parts))
  {
    if parts != [] {
      PartsAreSpoken(role, parts[..|parts| - 1]);
    }
  }

  lemma {:induction false} TranscriptJoins(a: seq<Message>, b: seq<Message>)
    ensures Transcript(a + b) == Transcript(a) + Transcript(b)
  {
    if b == [] {
      assert a + b == a;
    } else {
      var n := |b| - 1;
      var front, last := b[..n], b[n];
      var whole := a + b;
      assert whole[..|whole| - 1] == a + front && whole[|whole| - 1] == last;
      TranscriptJoins(a, front);
      Assoc(Transcript(a), Transcript(front), HeardFrom(last));
      calc {
        Transcript(whole);
        Transcript(a + front) + HeardFrom(last);
        Transcript(a) + (Transcript(front) + HeardFrom(last));
        Transcript(a) + Transcript(b);
      }
    }
  }

  lemma TranscriptOfOne(m: Message)
    ensures Transcript([m]) == HeardFrom(m)
  {
    assert [m][..0] == [];
  }

  lemma ItemKeepsEverything(item: Item)
    ensures Transcript(MessageOf(item)) == StoredIn(item)
  {
    if item.kind == "message" {
      PartsAreSpoken(RoleOf(item), item.content);
      TranscriptOfOne(Message(RoleOf(item), W.Text(Joined(item.content)), []));
    } else if item.kind == "function_call" {
      TranscriptOfOne(Message("assistant", W.Text(""), [CallOf(item)]));
    }
  }

  /** Every character of every text part and every call reaches the messages, in order; dropping empty messages loses nothing. */
  lemma {:induction false} OutputIsConserved(items: seq<Item>)
    ensures Transcript(MessagesOf(items)) == StoredTranscript(items)
  {
    if items != [] {
      var n := |items| - 1;
      OutputIsConserved(items[..n]);
      TranscriptJoins(MessagesOf(items[..n]), MessageOf(items[n]));
      ItemKeepsEverything(items[n]);
    }
  }

  /** What parses a stored input into messages; nothing when it cannot. */
  type Parse = string -> Option<seq<Message>>

  /** A response's own contribution to the history. */
  function Turn(parse: Parse, node: Response): seq<Message> {
    (if node.instructions != "" then [Message("system", W.Text(node.instructions), [])] else []) +
    (if parse(node.input).Some? then parse(node.input).value else []) +
    MessagesOf(node.output)
  }

  function Turns(parse: Parse, chain: seq<Response>): seq<Message> {
    if chain == [] then []
    else Turns(parse, chain[..|chain| - 1]) + Turn(parse, chain[|chain| - 1])
  }

  function History(load: Load, parse: Parse, response: Response): seq<Message> {
    Turns(parse, Chain(load, response))
  }

  lemma TurnAppended(parse: Parse, node: Response, before: seq<Message>, instructed: seq<Message>, asked: seq<Message>)
    requires instructed == before + (if node.instructions != "" then [Message("system", W.Text(node.instructions), [])] else [])
    requires asked == instructed + (if parse(node.input).Some? then parse(node.input).value else [])
    ensures asked + MessagesOf(node.output) == before + Turn(parse, node)
  {
    assert forall a: seq<Message>, b, c, d :: ((a + b) + c) + d == a + ((b + c) + d);
  }

  lemma TurnsStep(parse: Parse, chain: seq<Response>, i: nat)
    requires i < |chain|
    ensures Turns(parse, chain[..i + 1]) == Turns(parse, chain[..i]) + Turn(parse, chain[i])
  {
    assert chain[..i + 1][..i] == chain[..i];
  }

  /** Adds one response's instructions, input and output. */
  method AppendTurn(parse: Parse, node: Response, before: seq<Message>) returns (messages: seq<Message>)
    ensures messages == before + Turn(parse, node)
  {
    messages := before;
    if node.instructions != "" {
      messages := messages + [Message("system", W.Text(node.instructions), [])];
    }
    ghost var instructed := messages;
    var prior := parse(node.input);
    if prior.Some? {
      messages := messages + prior.value;
    }
    var said := OutputToMessages(node.output);
    TurnAppended(parse, node, before, instructed, messages);
    messages := messages + said;
  }

  method ExpandPreviousResponseHistory(load: Load, parse: Parse, prev: Option<Response>) returns (messages: seq<Message>)
    ensures messages == if prev.None? then [] else History(load, parse, prev.value)
  {
    if prev.None? {
      return [];
    }
    var chain := CollectAncestorChain(load, prev.value);
    messages := ExpandChain(parse, chain);
  }

  /** The loop over the nodes of a chain. */
  method ExpandChain(parse: Parse, chain: seq<Response>) returns (messages: seq<Message>)
    ensures messages == Turns(parse, chain)
  {
    messages := [];
    for i := 0 to |chain|
      invariant messages == Turns(parse, chain[..i])
    {
      TurnsStep(parse, chain, i);
      messages := AppendTurn(parse, chain[i], messages);
    }
    assert chain[..|chain|] == chain;
  }

  /**
   The history a response expands to is its parent's history and its own turn, when the parent's chain
   leaves room under the limit and does not come back to the response.
   */
  lemma HistoryGrows(load: Load, parse: Parse, response: Response, parent: Response)
    requires response.previous != "" && load(response.previous) == Some(parent)
    requires |Chain(load, parent)| < LIMIT && response.previous != response.id && !Passes(Chain(load, parent), response.id)
    ensures History(load, parse, response) == History(load, parse, parent) + Turn(parse, response)
  {
    ExtendsParentIff(load, response, parent);
    var c := Chain(load, parent);
    assert (c + [response])[..|c|] == c;
  }

  /** Past the limit the oldest turn falls out: the window slides. */
  lemma HistorySlides(load: Load, parse: Parse, response: Response, parent: Response)
    requires response.previous != "" && load(response.previous) == Some(parent)
    requires |Chain(load, parent)| == LIMIT && response.previous != response.id && !Passes(Chain(load, parent), response.id)
    ensures History(load, parse, response) == Turns(parse, Chain(load, parent)[1..]) + Turn(parse, response)
  {
    var c := Chain(load, parent);
    var slid := c[1..] + [response];
    ChainIsUnique(load, parent, c);
    LastLink(load, c[1..], response);
    forall i | 0 < i < |slid|
      ensures LinkedAt(load, slid, i)
    {
      if i < |c| - 1 {
        assert LinkedAt(load, c, i + 1);
        assert c[1..][i..] == c[i + 1..];
        LinksBeside(load, c[1..], response, i);
      }
    }
    ChainIsUnique(load, response, slid);
    assert slid[..|slid| - 1] == c[1..];
  }

  /** What a stored response is to add to the conversation: its instructions, what was asked, and what it said. */
  function StoredTurn(parse: Parse, node: Response): seq<Heard> {
    var asked := match parse(node.input) case None => [] case Some(messages) => Transcript(messages);
    Spoken("system", node.instructions) + asked + StoredTranscript(node.output)
  }

  function StoredTurns(parse: Parse, chain: seq<Response>): seq<Heard> {
    if chain == [] then [] else StoredTurns(parse, chain[..|chain| - 1]) + StoredTurn(parse, chain[|chain| - 1])
  }

  lemma TurnTells(parse: Parse, node: Response)
    ensures Transcript(Turn(parse, node)) == StoredTurn(parse, node)
  {
    var instructed := if node.instructions != "" then [Message("system", W.Text(node.instructions), [])] else [];
    var asked := if parse(node.input).Some? then parse(node.input).value else [];
    TranscriptJoins(instructed + asked, MessagesOf(node.output));
    TranscriptJoins(instructed, asked);
    OutputIsConserved(node.output);
    InstructionsAreSpoken(node.instructions);
  }

  lemma InstructionsAreSpoken(text: string)
    ensures Transcript(if text != "" then [Message("system", W.Text(text), [])] else []) == Spoken("system", text)
  {
    if text != "" {
      TranscriptOfOne(Message("system", W.Text(text), []));
    }
  }

  lemma {:induction false} TurnsTell(parse: Parse, chain: seq<Response>)
    ensures Transcript(Turns(parse, chain)) == StoredTurns(parse, chain)
  {
    if chain != [] {
      var front, last := chain[..|chain| - 1], chain[|chain| - 1];
      TurnsTell(parse, front);
      TurnTells(parse, last);
      TranscriptJoins(Turns(parse, front), Turn(parse, last));
    }
  }

  /** A rebuilt conversation says, response by response, everything its chain has stored, and nothing else. */
  lemma HistoryTells(load: Load, parse: Parse, response: Response)
    ensures Transcript(History(load, parse, response)) == StoredTurns(parse, Chain(load, response))
  {
    TurnsTell(parse, Chain(load, response));
  }
}
