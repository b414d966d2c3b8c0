/** The whole-string counterpart of the splitter, used for non-stream answers. */
module ThinkingExtract {
  import opened Text
  import opened Spaces
  import opened ThinkingSplit
  import opened SplitLaws

  /** What the removal loop ends with: the text left over, the thinking removed, the number of removals. */
  datatype Extraction = Extraction(text: string, reasoning: string, removed: nat)

  /** The loop: remove the first tag that has a closing tag behind it, rescan from the start. */
  function Extract(text: string): (x: Extraction)
    ensures |x.text| + |x.reasoning| + 21 * x.removed == |text|
    decreases |text|
  {
    var start := Index(text, OPEN);
    if start < 0 then Extraction(text, "", 0)
    else
      var tail := text[start..];
      var end := Index(tail, CLOSE);
      if end < 0 then Extraction(text, "", 0)
      else
        CloseAfterOpen(tail);
        var x := Extract(text[..start] + tail[end + 11..]);
        Extraction(x.text, tail[10..end] + x.reasoning, x.removed + 1)
  }

  /** An occurrence of a tag does not overlap an opening tag: each starts with the only '<' it has. */
  lemma NoOverlap(text: string, at: int, tag: string, i: int)
    requires At(text, OPEN, at) && (tag == OPEN || tag == CLOSE)
    ensures At(text, tag, i) ==> i + |tag| <= at || i >= at + 10 || (i == at && tag == OPEN)
  {
    AtChars(text, OPEN, at);
    AtChars(text, tag, i);
    assert forall k :: 0 < k < |tag| ==> tag[k] != '<';
    assert forall k :: 0 < k < |OPEN| ==> OPEN[k] != '<';
    assert text[at] == '<' && text[at + 1] == 't';
    if At(text, tag, i) {
      assert text[i] == '<' && text[i + 1] == tag[1];
    }
  }

  lemma AtChars(text: string, pat: string, i: int)
    ensures At(text, pat, i) ==> forall j :: i <= j < i + |pat| ==> text[j] == pat[j - i]
  {
    if At(text, pat, i) {
      forall j | i <= j < i + |pat|
        ensures text[j] == pat[j - i]
      {
        assert text[i..i + |pat|][j - i] == text[j];
      }
    }
  }

  /** In text that starts with an opening tag, no closing tag starts inside that tag. */
  lemma CloseAfterOpen(text: string)
    requires At(text, OPEN, 0)
    ensures NoneBefore(text, CLOSE, 10)
    ensures Index(text, CLOSE) == if Index(text[10..], CLOSE) < 0 then -1 else 10 + Index(text[10..], CLOSE)
  {
    assert text[..10] + text[10..] == text;
    forall j | j < 10
      ensures !At(text, CLOSE, j)
    {
      NoOverlap(text, 0, CLOSE, j);
    }
    IndexBehind(text[..10], text[10..], CLOSE);
  }

  lemma ExtractUnfolds(text: string, start: nat, end: nat, spliced: string, thinking: string)
    requires Index(text, OPEN) == start && Index(text[start..], CLOSE) == end
    requires 10 <= end && end + 11 <= |text[start..]|
    requires spliced == text[..start] + text[start..][end + 11..] && thinking == text[start..][10..end]
    ensures var x := Extract(spliced); Extract(text) == Extraction(x.text, thinking + x.reasoning, x.removed + 1)
  {
  }

  lemma Within(text: string, start: nat, from: nat, to: nat)
    requires from <= to && start + to <= |text|
    ensures text[start..][from..to] == text[start + from..start + to]
  {
  }

  lemma EndsBehind(text: string, start: nat, end: nat)
    requires Index(text, OPEN) == start && Index(text[start..], CLOSE) == end
    ensures 10 <= end && start + end + 11 <= |text|
  {
    CloseAfterOpen(text[start..]);
  }

  /** One removal, in positions of the text itself. */
  lemma ExtractStep(text: string, start: nat, end: nat, spliced: string, thinking: string)
    requires Index(text, OPEN) == start && Index(text[start..], CLOSE) == end
    requires 10 <= end && start + end + 11 <= |text|
    requires spliced == text[..start] + text[start + end + 11..] && thinking == text[start + 10..start + end]
    ensures var x := Extract(spliced); Extract(text) == Extraction(x.text, thinking + x.reasoning, x.removed + 1)
  {
    Slices(text, start, end + 11);
    Within(text, start, 10, end);
    ExtractUnfolds(text, start, end, spliced, thinking);
  }

  method ExtractThinkingFromContent(content: string) returns (visible: string, reasoning: string)
    ensures visible == TrimSpace(Extract(content).text) && reasoning == Extract(content).reasoning
  {
    reasoning := "";
    var result := content;
    while true
      invariant Extract(content).text == Extract(result).text
      invariant Extract(content).reasoning == reasoning + Extract(result).reasoning
      decreases |result|
    {
      var start := Index(result, OPEN);
      if start == -1 {
        break;
      }
      var end := Index(result[start..], CLOSE);
      if end == -1 {
        break;
      }
      EndsBehind(result, start, end);
      var thinkingContent := result[start + 10..start + end];
      var spliced := result[..start] + result[start + end + 11..];
      ExtractStep(result, start, end, spliced, thinkingContent);
      Assoc(reasoning, thinkingContent, Extract(spliced).reasoning);
      reasoning := reasoning + thinkingContent;
      result := spliced;
    }
    assert reasoning + "" == reasoning;
    visible := TrimSpace(result);
  }

  // ---- Agreement with the one-pass split ----

  /** The one-pass split as strings; `early` is the visible text in front of the last closed block. */
  datatype Pass = Pass(shown: string, thought: string, early: string, blocks: nat, closed: bool)

  function OnePass(text: string): (p: Pass)
    ensures |p.shown| + |p.thought| + 21 * p.blocks + (if p.closed then 0 else 10) == |text|
    decreases |text|
  {
    var s := Index(text, OPEN);
    if s < 0 then Pass(text, "", "", 0, true)
    else
      var after := text[s + 10..];
      var e := Index(after, CLOSE);
      if e < 0 then Pass(text[..s], after, "", 0, false)
      else
        var p := OnePass(after[e + 11..]);
        Pass(text[..s] + p.shown, after[..e] + p.thought, text[..s] + p.early, p.blocks + 1, p.closed)
  }

  /** The contents of the first block. */
  function Block(text: string): string
    requires OnePass(text).blocks > 0
  {
    var after := text[Index(text, OPEN) + 10..];
    after[..Index(after, CLOSE)]
  }

  /** The text behind the first block. */
  function Rest(text: string): (rest: string)
    requires OnePass(text).blocks > 0
    ensures |rest| < |text|
  {
    var after := text[Index(text, OPEN) + 10..];
    after[Index(after, CLOSE) + 11..]
  }

  function CharsOf(marks: seq<Mark>): string {
    if marks == [] then "" else (if marks[0].Char? then [marks[0].c] else "") + CharsOf(marks[1..])
  }

  lemma CharsOfOne(c: char, thinking: bool, rest: seq<Mark>)
    ensures CharsOf([Char(c, thinking)] + rest) == [c] + CharsOf(rest)
  {
    var marks := [Char(c, thinking)] + rest;
    assert marks[0] == Char(c, thinking) && marks[1..] == rest;
  }

  lemma {:induction false} CharsOfPaint(text: string, thinking: bool, tail: seq<Mark>)
    ensures CharsOf(Paint(text, thinking) + tail) == text + CharsOf(tail)
  {
    if text == "" {
      assert Paint(text, thinking) + tail == tail;
    } else {
      var rest := Paint(text[1..], thinking) + tail;
      assert Paint(text, thinking) + tail == [Char(text[0], thinking)] + rest;
      CharsOfOne(text[0], thinking, rest);
      CharsOfPaint(text[1..], thinking, tail);
      Assoc([text[0]], text[1..], CharsOf(tail));
      assert text == [text[0]] + text[1..];
    }
  }

  /** `OnePass` is the splitter's reference, projected. */
  lemma {:induction false} OnePassIsSplit(text: string)
    ensures CharsOf(VisibleOf(Split(false, text))) == OnePass(text).shown
    ensures CharsOf(ThinkingOf(Split(false, text))) == OnePass(text).thought
    decreases |text|
  {
    var s := Index(text, OPEN);
    if s < 0 {
      Project(text, false, []);
      assert Paint(text, false) + [] == Paint(text, false) && text + "" == text;
    } else {
      var after := text[s + 10..];
      var e := Index(after, CLOSE);
      if e >= 0 {
        OnePassIsSplit(after[e + 11..]);
      }
      ThinkingHead(after);
      Project(text[..s], false, Split(true, after));
      assert "" + CharsOf(ThinkingOf(Split(true, after))) == CharsOf(ThinkingOf(Split(true, after)));
    }
  }

  /** What the reference makes of text inside a block. */
  lemma ThinkingHead(after: string)
    ensures var e := Index(after, CLOSE);
            && CharsOf(VisibleOf(Split(true, after))) == (if e < 0 then "" else CharsOf(VisibleOf(Split(false, after[e + 11..]))))
            && CharsOf(ThinkingOf(Split(true, after))) == (if e < 0 then after else after[..e] + CharsOf(ThinkingOf(Split(false, after[e + 11..]))))
  {
    var e := Index(after, CLOSE);
    if e < 0 {
      Project(after, true, []);
      assert Paint(after, true) + [] == Paint(after, true) && after + "" == after;
    } else {
      Project(after[..e], true, Split(false, after[e + 11..]));
      assert "" + CharsOf(VisibleOf(Split(false, after[e + 11..]))) == CharsOf(VisibleOf(Split(false, after[e + 11..])));
    }
  }

  lemma Project(text: string, thinking: bool, tail: seq<Mark>)
    ensures CharsOf(VisibleOf(Paint(text, thinking) + tail)) == (if thinking then "" else text) + CharsOf(VisibleOf(tail))
    ensures CharsOf(ThinkingOf(Paint(text, thinking) + tail)) == (if thinking then text else "") + CharsOf(ThinkingOf(tail))
  {
    ProjectOne(text, thinking, tail, true);
    ProjectOne(text, thinking, tail, false);
  }

  lemma ProjectOne(text: string, thinking: bool, tail: seq<Mark>, unwanted: bool)
    ensures CharsOf(Without(unwanted, Paint(text, thinking) + tail))
         == (if thinking == unwanted then "" else text) + CharsOf(Without(unwanted, tail))
  {
    WithoutAppend(unwanted, Paint(text, thinking), tail);
    WithoutPaint(unwanted, text, thinking);
    CharsOfPaint(text, thinking, Without(unwanted, tail));
    assert [] + Without(unwanted, tail) == Without(unwanted, tail);
  }

  /** An opening tag with a closing tag somewhere behind it. */
  predicate HasPair(text: string) {
    var i := Index(text, OPEN);
    i >= 0 && Contains(text[i..], CLOSE)
  }

  /**
   The visible text, once the blocks are cut out, spells no tag pair, and what is in front of the last
   block spells no opening tag.
   */
  predicate Undisturbed(head: string, p: Pass) {
    && (p.blocks > 0 ==> !Contains(head + p.early, OPEN))
    && !HasPair(head + p.shown)
  }

  /** The first opening tag of `head + text`, when only `text` has a real one and at `s`. */
  lemma FirstOpen(head: string, text: string)
    requires Index(text, OPEN) >= 0 && Index(head, OPEN) < 0
    ensures var s := Index(text, OPEN);
            var i := Index(head + text, OPEN);
            && 0 <= i <= |head| + s
            && (i == |head| + s <==> !Contains(head + text[..s], OPEN))
            && (i < |head| + s ==> i < |head| < i + 10 <= |head| + s)
  {
    var s := Index(text, OPEN);
    var whole := head + text;
    assert whole[|head|..] == text;
    AtDrop(whole, OPEN, |head|, |head| + s);
    var i := Index(whole, OPEN);
    assert i <= |head| + s;
    NoOverlap(whole, |head| + s, OPEN, i);
    var front := head + text[..s];
    assert front + text[s..] == whole;
    if i < |head| + s {
      AtAppend(front, text[s..], OPEN, i);
      assert Contains(front, OPEN);
      if i >= |head| {
        AtDrop(whole, OPEN, |head|, i);
      }
      AtInside(head, text, OPEN, i);
    } else if Contains(front, OPEN) {
      AtAppend(front, text[s..], OPEN, Index(front, OPEN));
    }
  }

  /** Where the closing tag behind an opening one lies. */
  lemma CloseAt(text: string, s: nat, e: nat)
    requires Index(text, OPEN) == s && s + 10 <= |text| && Index(text[s + 10..], CLOSE) == e
    ensures s + e + 21 <= |text| && Index(text[s..], CLOSE) == 10 + e
    ensures text[s + 10..][..e] == text[s + 10..s + 10 + e] && text[s + 10..][e + 11..] == text[s + e + 21..]
  {
    CloseAfterOpen(text[s..]);
    Slices(text, s, 10);
    Slices(text, s + 10, e + 11);
    Within(text, s + 10, 0, e);
  }

  /** Where the first block lies. */
  lemma BlockAt(text: string)
    requires OnePass(text).blocks > 0
    ensures var s := Index(text, OPEN);
            var n := |Block(text)|;
            && 0 <= s && s + n + 21 <= |text|
            && text[s + 10..s + 10 + n] == Block(text) && text[s + n + 21..] == Rest(text)
            && Index(text[s..], CLOSE) == 10 + n
  {
    var s := Index(text, OPEN);
    var e := FirstBlockEnds(text, s);
    CloseAt(text, s, e);
  }

  lemma FirstBlockEnds(text: string, s: int) returns (e: nat)
    requires OnePass(text).blocks > 0 && s == Index(text, OPEN)
    ensures 0 <= s && s + 10 <= |text| && Index(text[s + 10..], CLOSE) == e && e + 11 <= |text[s + 10..]|
    ensures Block(text) == text[s + 10..][..e] && Rest(text) == text[s + 10..][e + 11..]
  {
    e := Index(text[s + 10..], CLOSE);
  }

  lemma WithinBehind(head: string, text: string, from: nat, to: nat)
    requires from <= to <= |text|
    ensures (head + text)[|head| + from..|head| + to] == text[from..to]
  {
  }

  lemma RealOpenAt(head: string, text: string)
    requires Index(head, OPEN) < 0 && OnePass(text).blocks > 0
    requires !Contains(head + text[..Index(text, OPEN)], OPEN)
    ensures Index(head + text, OPEN) == |head| + Index(text, OPEN)
  {
    FirstOpen(head, text);
  }

  /** Positions behind `head`. */
  lemma Behind(head: string, text: string, s: nat, from: nat, to: nat, end: nat)
    requires s <= from <= to <= end <= |text|
    ensures var whole := head + text;
            && whole[|head| + s..] == text[s..] && whole[..|head| + s] == head + text[..s]
            && whole[|head| + from..|head| + to] == text[from..to]
            && whole[|head| + end..] == text[end..]
  {
    HeadTail(head, text, s);
    HeadTail(head, text, end);
    WithinBehind(head, text, from, to);
  }

  /** The loop's first removal, of a block that lies behind `head`. */
  lemma RemovesBehind(head: string, text: string, s: nat, n: nat, block: string, rest: string)
    requires s + n + 21 <= |text| && block == text[s + 10..s + 10 + n] && rest == text[s + n + 21..]
    requires Index(head + text, OPEN) == |head| + s && Index(text[s..], CLOSE) == 10 + n
    ensures var x := Extract(head + text[..s] + rest);
            Extract(head + text) == Extraction(x.text, block + x.reasoning, x.removed + 1)
  {
    Behind(head, text, s, s + 10, s + 10 + n, s + n + 21);
    ExtractStep(head + text, |head| + s, 10 + n, head + text[..s] + rest, block);
  }

  /** The loop's first removal when the first tag found is a real one. */
  lemma RemovesReal(head: string, text: string)
    requires Index(head, OPEN) < 0 && OnePass(text).blocks > 0
    requires !Contains(head + text[..Index(text, OPEN)], OPEN)
    ensures var x := Extract(head + text[..Index(text, OPEN)] + Rest(text));
            Extract(head + text) == Extraction(x.text, Block(text) + x.reasoning, x.removed + 1)
  {
    RealOpenAt(head, text);
    BlockAt(text);
    RemovesBehind(head, text, Index(text, OPEN), |Block(text)|, Block(text), Rest(text));
  }

  lemma HeadTail(head: string, text: string, s: nat)
    requires s <= |text|
    ensures (head + text)[|head| + s..] == text[s..] && (head + text)[..|head| + s] == head + text[..s]
  {
  }

  lemma AtInside(a: string, b: string, pat: string, i: int)
    requires Index(a, pat) < 0 && At(a + b, pat, i)
    ensures i + |pat| > |a|
  {
    if i + |pat| <= |a| {
      AtAppend(a, b, pat, i);
    }
  }

  /** Where, in `text`, the first closing tag behind position `m` starts. */
  function CloseFrom(text: string, m: nat): int
    requires m <= |text|
  {
    m + Index(text[m..], CLOSE)
  }

  /** Where the closing tag lies behind a spelled opening tag. */
  lemma SpelledAt(head: string, text: string, i: nat, c: nat)
    requires Index(head + text, OPEN) == i < |head| < i + 10 <= |head| + |text|
    requires Index(text[i + 10 - |head|..], CLOSE) >= 0 && CloseFrom(text, i + 10 - |head|) == c
    ensures var whole := head + text;
            var end := c + |head| - i;
            && c + 11 <= |text| && 10 <= end && i + end + 11 <= |whole| && Index(whole[i..], CLOSE) == end
            && head[..i] + text[c + 11..] == whole[..i] + whole[i + end + 11..]
            && text[i + 10 - |head|..c] == whole[i + 10..i + end]
  {
    var whole := head + text;
    var m := i + 10 - |head|;
    var tail := whole[i..];
    assert tail[10..] == text[m..];
    CloseAfterOpen(tail);
    assert whole[..i] == head[..i];
  }

  /** The loop's first removal when the first tag found is spelled across a place where a block was cut out. */
  lemma RemovesSpelled(head: string, text: string, i: nat, c: nat)
    requires Index(head + text, OPEN) == i < |head| < i + 10 <= |head| + |text|
    requires Index(text[i + 10 - |head|..], CLOSE) >= 0 && CloseFrom(text, i + 10 - |head|) == c
    ensures c + 11 <= |text|
    ensures var x := Extract(head[..i] + text[c + 11..]);
            Extract(head + text) == Extraction(x.text, text[i + 10 - |head|..c] + x.reasoning, x.removed + 1)
  {
    SpelledAt(head, text, i, c);
    var whole, end, spliced, thinking := head + text, c + |head| - i, head[..i] + text[c + 11..], text[i + 10 - |head|..c];
    assert Index(whole, OPEN) == i && Index(whole[i..], CLOSE) == end;
    ExtractStep(whole, i, end, spliced, thinking);
  }

  /** From in front of a block, the next closing tag is a stray one before the block, or the block's own. */
  lemma NextClose(text: string, m: nat)
    requires OnePass(text).blocks > 0 && m <= Index(text, OPEN)
    ensures var s := Index(text, OPEN);
            var c := CloseFrom(text, m);
            && Index(text[m..], CLOSE) >= 0
            && (m <= c <= s - 11 || c == s + 10 + |Block(text)|)
  {
    var s := Index(text, OPEN);
    var after := text[s + 10..];
    var own := s + 10 + Index(after, CLOSE);
    AtDrop(text, CLOSE, s + 10, own);
    AtDrop(text, CLOSE, m, own);
    assert At(text[m..], CLOSE, own - m);
    var c := CloseFrom(text, m);
    AtDrop(text, CLOSE, m, c);
    NoOverlap(text, s, CLOSE, c);
    if c >= s + 10 {
      OwnIsFirst(text, s + 10, c);
    }
  }

  lemma OwnIsFirst(text: string, start: nat, c: nat)
    requires start <= c && At(text, CLOSE, c)
    ensures start <= |text| && 0 <= Index(text[start..], CLOSE) <= c - start
  {
    AtDrop(text, CLOSE, start, c);
    assert At(text[start..], CLOSE, c - start);
  }

  lemma OnePassUnclosed(text: string, s: nat)
    requires Index(text, OPEN) == s && s + 10 <= |text| && Index(text[s + 10..], CLOSE) < 0
    ensures OnePass(text) == Pass(text[..s], text[s + 10..], "", 0, false)
  {
  }

  lemma OnePassUnfolds(text: string, s: nat, after: string, e: nat, rest: string, p: Pass)
    requires Index(text, OPEN) == s && s + 10 <= |text| && after == text[s + 10..]
    requires Index(after, CLOSE) == e && e + 11 <= |after| && rest == after[e + 11..] && p == OnePass(rest)
    ensures OnePass(text) == Pass(text[..s] + p.shown, after[..e] + p.thought, text[..s] + p.early, p.blocks + 1, p.closed)
  {
  }

  lemma IndexDrop(text: string, n: nat)
    requires 0 <= n <= Index(text, OPEN)
    ensures Index(text, OPEN) + 10 <= |text| && Index(text[n..], OPEN) == Index(text, OPEN) - n
  {
    assert text[..n] + text[n..] == text;
    IndexBehind(text[..n], text[n..], OPEN);
  }

  /** Dropping visible text in front of the first tag changes neither the blocks nor their contents. */
  lemma OnePassDrop(text: string, n: nat)
    requires 0 <= n <= Index(text, OPEN)
    ensures OnePass(text[n..]).blocks == OnePass(text).blocks
    ensures OnePass(text[n..]).thought == OnePass(text).thought
    ensures OnePass(text[n..]).closed == OnePass(text).closed
  {
    var i := Index(text, OPEN);
    IndexDrop(text, n);
    Slices(text, n, i - n + 10);
    SamePass(text, i, text[n..], i - n, text[i + 10..]);
  }

  /** The blocks are determined by the text behind the first opening tag. */
  lemma SamePass(a: string, i: nat, b: string, j: nat, after: string)
    requires Index(a, OPEN) == i && i + 10 <= |a| && after == a[i + 10..]
    requires Index(b, OPEN) == j && j + 10 <= |b| && after == b[j + 10..]
    ensures OnePass(a).blocks == OnePass(b).blocks && OnePass(a).thought == OnePass(b).thought && OnePass(a).closed == OnePass(b).closed
  {
    var e := Index(after, CLOSE);
    if e < 0 {
      OnePassUnclosed(a, i);
      OnePassUnclosed(b, j);
    } else {
      var rest := after[e + 11..];
      OnePassUnfolds(a, i, after, e, rest, OnePass(rest));
      OnePassUnfolds(b, j, after, e, rest, OnePass(rest));
    }
  }

  /** The loop removes at least the real blocks, and with no more removals, at least their contents. */
  ghost predicate AtLeast(x: Extraction, p: Pass) {
    x.removed >= p.blocks && (x.removed == p.blocks ==> |x.reasoning| >= |p.thought|)
  }

  ghost predicate AsMuch(x: Extraction, p: Pass) {
    x.removed == p.blocks && |x.reasoning| == |p.thought|
  }

  /** And if it removes just as much, then nothing was spelled. */
  ghost predicate NoFewer(head: string, text: string) {
    && AtLeast(Extract(head + text), OnePass(text))
    && (AsMuch(Extract(head + text), OnePass(text)) ==> Undisturbed(head, OnePass(text)))
  }

  lemma NoFewerReal(head: string, text: string)
    requires Index(head, OPEN) < 0 && OnePass(text).blocks > 0
    requires !Contains(head + text[..Index(text, OPEN)], OPEN)
    requires NoFewer(head + text[..Index(text, OPEN)], Rest(text))
    ensures NoFewer(head, text)
  {
    RemovesReal(head, text);
    UndisturbedGrows(head, text);
    assert OnePass(text).thought == Block(text) + OnePass(Rest(text)).thought;
  }

  /** `n` more characters removed make up for what the pass over `text` has more than that over `rest`. */
  ghost predicate MakesUp(text: string, rest: string, n: nat) {
    var p, p' := OnePass(text), OnePass(rest);
    p.blocks == p'.blocks || (p.blocks == p'.blocks + 1 && |p.thought| < n + |p'.thought|)
  }

  lemma SpelledIsMore(head: string, text: string, i: nat, c: nat)
    requires Index(head, OPEN) < 0 && OnePass(text).blocks > 0
    requires Index(head + text, OPEN) == i < |head| < i + 10 <= |head| + |text|
    requires Index(text[i + 10 - |head|..], CLOSE) >= 0 && CloseFrom(text, i + 10 - |head|) == c
    requires c + 11 <= |text| && AtLeast(Extract(head[..i] + text[c + 11..]), OnePass(text[c + 11..]))
    requires MakesUp(text, text[c + 11..], c - (i + 10 - |head|))
    ensures AtLeast(Extract(head + text), OnePass(text)) && !AsMuch(Extract(head + text), OnePass(text))
  {
    RemovesSpelled(head, text, i, c);
    MoreRemoved(
      Extract(head[..i] + text[c + 11..]), OnePass(text[c + 11..]),
      Extract(head + text), OnePass(text), c - (i + 10 - |head|));
  }

  lemma FirstBlock(text: string)
    requires OnePass(text).blocks > 0
    ensures OnePass(text).blocks == OnePass(Rest(text)).blocks + 1
    ensures |OnePass(text).thought| == |Block(text)| + |OnePass(Rest(text)).thought|
  {
  }

  lemma MoreRemoved(x': Extraction, p': Pass, x: Extraction, p: Pass, n: nat)
    requires AtLeast(x', p') && x.removed == x'.removed + 1 && |x.reasoning| == n + |x'.reasoning|
    requires || p.blocks == p'.blocks
             || (p.blocks == p'.blocks + 1 && |p.thought| < n + |p'.thought|)
    ensures AtLeast(x, p) && !AsMuch(x, p)
  {
  }

  lemma NoFewerPlain(head: string, text: string)
    requires Index(text, OPEN) < 0
    ensures NoFewer(head, text)
  {
  }

  /** The piece a spelled tag cuts out of `text`: up to and including the closing tag at `c`. */
  lemma SpelledCut(head: string, text: string) returns (i: nat, c: nat)
    requires Index(head, OPEN) < 0 && OnePass(text).blocks > 0 && OnePass(text).closed
    requires Index(head + text, OPEN) < |head| + Index(text, OPEN)
    ensures Index(head + text, OPEN) == i < |head| < i + 10 <= |head| + Index(text, OPEN)
    ensures Index(text[i + 10 - |head|..], CLOSE) >= 0 && CloseFrom(text, i + 10 - |head|) == c
    ensures c + 11 <= |text|
    ensures MakesUp(text, text[c + 11..], c - (i + 10 - |head|))
    ensures OnePass(text[c + 11..]).closed && Index(head[..i], OPEN) < 0
  {
    FirstOpen(head, text);
    i := Index(head + text, OPEN);
    var m := i + 10 - |head|;
    NextClose(text, m);
    PrefixFree(head, i);
    c := CloseFrom(text, m);
    CutMakesUp(text, m, c);
  }

  /** Cutting up to the next closing tag drops visible text only, or the whole first block. */
  lemma CutMakesUp(text: string, m: nat, c: nat)
    requires OnePass(text).blocks > 0 && OnePass(text).closed && m <= Index(text, OPEN)
    requires m <= c <= Index(text, OPEN) - 11 || c == Index(text, OPEN) + 10 + |Block(text)|
    ensures c + 11 <= |text| && MakesUp(text, text[c + 11..], c - m) && OnePass(text[c + 11..]).closed
  {
    if c + 11 <= Index(text, OPEN) {
      var behind := c + 11;
      OnePassDrop(text, behind);
    } else {
      OwnMakesUp(text, m, c);
    }
  }

  lemma OwnMakesUp(text: string, m: nat, c: nat)
    requires OnePass(text).blocks > 0 && OnePass(text).closed && m <= Index(text, OPEN)
    requires c == Index(text, OPEN) + 10 + |Block(text)|
    ensures c + 11 <= |text| && MakesUp(text, text[c + 11..], c - m) && OnePass(text[c + 11..]).closed
  {
    BlockAt(text);
    FirstBlock(text);
  }

  /** Whatever the splices spell, the loop does no less than the one-pass split. */
  lemma {:induction false} Disturbs(head: string, text: string)
    requires Index(head, OPEN) < 0 && OnePass(text).closed
    ensures NoFewer(head, text)
    decreases |text|
  {
    if Index(text, OPEN) < 0 {
      NoFewerPlain(head, text);
      return;
    }
    FirstOpen(head, text);
    if Index(head + text, OPEN) < |head| + Index(text, OPEN) {
      var i, c := SpelledCut(head, text);
      Disturbs(head[..i], text[c + 11..]);
      SpelledIsMore(head, text, i, c);
    } else {
      Disturbs(head + text[..Index(text, OPEN)], Rest(text));
      NoFewerReal(head, text);
    }
  }

  lemma PrefixFree(head: string, i: nat)
    requires Index(head, OPEN) < 0 && i <= |head|
    ensures Index(head[..i], OPEN) < 0
  {
    var k := Index(head[..i], OPEN);
    assert head[..i] + head[i..] == head;
    if k >= 0 {
      AtAppend(head[..i], head[i..], OPEN, k);
    }
  }

  /** The condition with a block still ahead is the condition behind it. */
  lemma UndisturbedGrows(head: string, text: string)
    requires OnePass(text).blocks > 0
    ensures var front := head + text[..Index(text, OPEN)];
            Undisturbed(head, OnePass(text)) <==> !Contains(front, OPEN) && Undisturbed(front, OnePass(Rest(text)))
  {
    var s := Index(text, OPEN);
    var p := OnePass(Rest(text));
    Assoc(head, text[..s], p.shown);
    Assoc(head, text[..s], p.early);
    var front := head + text[..s];
    if Contains(front, OPEN) {
      IndexAppend(front, p.early, OPEN);
    }
    if p.blocks == 0 {
      assert p.early == "" && front + "" == front;
    }
  }

  /** While nothing is spelled, the loop computes the one-pass split. */
  lemma {:induction false} Agrees(head: string, text: string)
    requires Index(head, OPEN) < 0 && OnePass(text).closed && Undisturbed(head, OnePass(text))
    ensures var p := OnePass(text);
            Extract(head + text) == Extraction(head + p.shown, p.thought, p.blocks)
    decreases |text|
  {
    var s := Index(text, OPEN);
    if s >= 0 {
      UndisturbedGrows(head, text);
      RemovesReal(head, text);
      Agrees(head + text[..s], Rest(text));
      Assoc(head, text[..s], OnePass(Rest(text)).shown);
    }
  }

  /**
   Stream and non-stream agree exactly when every opening tag is closed, the visible text in front of the
   last block spells no opening tag, and the visible text as a whole spells no tag pair.
   */
  lemma ExtractAgreesIff(content: string)
    ensures var p := OnePass(content);
            var x := Extract(content);
            (x.text == p.shown && x.reasoning == p.thought) <==> (p.closed && Undisturbed("", p))
  {
    if OnePass(content).closed {
      BothFromStart(content);
    } else {
      UnclosedDiffers(OnePass(content), Extract(content), |content|);
    }
  }

  /** With an unclosed tag the lengths cannot agree: one side has a lone opening tag more. */
  lemma UnclosedDiffers(p: Pass, x: Extraction, n: nat)
    requires |x.text| + |x.reasoning| + 21 * x.removed == n == |p.shown| + |p.thought| + 21 * p.blocks + 10
    ensures x.text != p.shown || x.reasoning != p.thought
  {
  }

  lemma BothFromStart(content: string)
    requires OnePass(content).closed
    ensures var p := OnePass(content);
            var x := Extract(content);
            (x.text == p.shown && x.reasoning == p.thought) <==> Undisturbed("", p)
  {
    var p := OnePass(content);
    assert "" + content == content;
    assert "" + p.shown == p.shown;
    if Undisturbed("", p) {
      Agrees("", content);
    } else {
      Disturbs("", content);
    }
  }

  lemma InkOfTags()
    ensures Ink(OPEN) == 10 && Ink(CLOSE) == 11
  {
    InkOfSolid(OPEN);
    InkOfSolid(CLOSE);
  }

  lemma {:induction false} InkOfSolid(s: string)
    requires forall i :: 0 <= i < |s| ==> !IsSpace(s[i])
    ensures Ink(s) == |s|
  {
    if s != "" {
      InkOfSolid(s[..|s| - 1]);
    }
  }

  /** A text cut at a block. */
  lemma InkOfBlock(head: string, thought: string, tail: string)
    ensures Ink(head + OPEN + thought + CLOSE + tail) == Ink(head) + Ink(thought) + Ink(tail) + 21
  {
    InkOfTags();
    InkAppend(head, OPEN);
    InkAppend(head + OPEN, thought);
    InkAppend(head + OPEN + thought, CLOSE);
    InkAppend(head + OPEN + thought + CLOSE, tail);
  }

  lemma AtStep(text: string, start: nat, end: nat)
    requires Index(text, OPEN) == start && Index(text[start..], CLOSE) == end
    requires 10 <= end && start + end + 11 <= |text|
    ensures text == text[..start] + OPEN + text[start + 10..start + end] + CLOSE + text[start + end + 11..]
  {
    assert At(text, OPEN, start);
    AtDrop(text, CLOSE, start, start + end);
  }

  /** The removal loop keeps every character that is not white space, but for the tags it removes. */
  lemma {:induction false} ExtractKeepsInk(text: string)
    ensures Ink(Extract(text).text) + Ink(Extract(text).reasoning) + 21 * Extract(text).removed == Ink(text)
    decreases |text|
  {
    var start := Index(text, OPEN);
    if start >= 0 && Index(text[start..], CLOSE) >= 0 {
      var end := Index(text[start..], CLOSE);
      EndsBehind(text, start, end);
      var head, thought, tail := text[..start], text[start + 10..start + end], text[start + end + 11..];
      AtStep(text, start, end);
      ExtractStep(text, start, end, head + tail, thought);
      ExtractKeepsInk(head + tail);
      InkOfBlock(head, thought, tail);
      InkAppend(head, tail);
      InkAppend(thought, Extract(head + tail).reasoning);
    }
  }

  lemma FirstBlockInText(text: string)
    requires OnePass(text).blocks > 0
    ensures var head := text[..Index(text, OPEN)];
            && text == head + OPEN + Block(text) + CLOSE + Rest(text)
            && OnePass(text).shown == head + OnePass(Rest(text)).shown
            && OnePass(text).thought == Block(text) + OnePass(Rest(text)).thought
            && OnePass(text).closed == OnePass(Rest(text)).closed && OnePass(text).blocks == OnePass(Rest(text)).blocks + 1
  {
    FirstBlockText(text);
    FirstBlockPass(text);
  }

  lemma FirstBlockText(text: string)
    requires OnePass(text).blocks > 0
    ensures Index(text, OPEN) >= 0 && text == text[..Index(text, OPEN)] + OPEN + Block(text) + CLOSE + Rest(text)
  {
    BlockAt(text);
    AtStep(text, Index(text, OPEN), 10 + |Block(text)|);
  }

  lemma FirstBlockPass(text: string)
    requires OnePass(text).blocks > 0
    ensures Index(text, OPEN) >= 0 && OnePass(text).shown == text[..Index(text, OPEN)] + OnePass(Rest(text)).shown
    ensures OnePass(text).thought == Block(text) + OnePass(Rest(text)).thought
    ensures OnePass(text).closed == OnePass(Rest(text)).closed && OnePass(text).blocks == OnePass(Rest(text)).blocks + 1
  {
  }

  lemma UnclosedInText(text: string)
    requires OnePass(text).blocks == 0 && !OnePass(text).closed
    ensures text == OnePass(text).shown + OPEN + OnePass(text).thought
  {
    assert At(text, OPEN, Index(text, OPEN));
  }

  /** So does the one-pass split. */
  lemma {:induction false} OnePassKeepsInk(text: string)
    ensures var p := OnePass(text);
            Ink(p.shown) + Ink(p.thought) + 21 * p.blocks + (if p.closed then 0 else 10) == Ink(text)
    decreases |text|
  {
    var p := OnePass(text);
    if p.blocks > 0 {
      FirstBlockInText(text);
      var head, rest := text[..Index(text, OPEN)], Rest(text);
      OnePassKeepsInk(rest);
      InkOfBlock(head, Block(text), rest);
      InkAppend(head, OnePass(rest).shown);
      InkAppend(Block(text), OnePass(rest).thought);
    } else if !p.closed {
      UnclosedInText(text);
      InkOfTags();
      InkAppend(p.shown, OPEN);
      InkAppend(p.shown + OPEN, p.thought);
    } else {
      assert p.shown == text && p.thought == "";
    }
  }

  lemma SameInk(x: Extraction, p: Pass, n: nat)
    requires TrimSpace(x.text) == TrimSpace(p.shown) && x.reasoning == p.thought
    requires Ink(x.text) + Ink(x.reasoning) + 21 * x.removed == n
    requires Ink(p.shown) + Ink(p.thought) + 21 * p.blocks + (if p.closed then 0 else 10) == n
    ensures p.closed && x.removed == p.blocks
  {
    TrimKeepsInk(x.text);
    TrimKeepsInk(p.shown);
  }

  /**
   The same of what the extractor returns, which is trimmed: it is the one-pass split's visible text, trimmed,
   and its thinking, under exactly the same condition.
   */
  lemma ReturnedAgreesIff(content: string)
    ensures var p := OnePass(content);
            var x := Extract(content);
            (TrimSpace(x.text) == TrimSpace(p.shown) && x.reasoning == p.thought) <==> (p.closed && Undisturbed("", p))
  {
    var p, x := OnePass(content), Extract(content);
    ExtractAgreesIff(content);
    if TrimSpace(x.text) == TrimSpace(p.shown) && x.reasoning == p.thought {
      ExtractKeepsInk(content);
      OnePassKeepsInk(content);
      SameInk(x, p, Ink(content));
      assert "" + content == content;
      Disturbs("", content);
    }
  }

  /** The promise as stated: with every tag closed and no tag spelled by the visible text, they agree. */
  lemma ExtractAgrees(content: string)
    requires OnePass(content).closed
    requires !Contains(CharsOf(VisibleOf(Split(false, content))), OPEN)
    ensures Extract(content).text == CharsOf(VisibleOf(Split(false, content)))
    ensures Extract(content).reasoning == CharsOf(ThinkingOf(Split(false, content)))
  {
    OnePassIsSplit(content);
    EarlyIsPrefix(content);
    var p := OnePass(content);
    assert "" + p.early == p.early && "" + p.shown == p.shown;
    EarlyFree(p.early, p.shown);
    ExtractAgreesIff(content);
  }

  lemma EarlyFree(early: string, shown: string)
    requires early <= shown
    ensures Contains(early, OPEN) ==> Contains(shown, OPEN)
  {
    assert early + shown[|early|..] == shown;
    if Contains(early, OPEN) {
      IndexAppend(early, shown[|early|..], OPEN);
    }
  }

  lemma PrefixBehind(head: string, a: string, b: string)
    requires a <= b
    ensures head + a <= head + b
  {
  }

  lemma {:induction false} EarlyIsPrefix(text: string)
    ensures OnePass(text).early <= OnePass(text).shown
    decreases |text|
  {
    var s := Index(text, OPEN);
    if s >= 0 && Index(text[s + 10..], CLOSE) >= 0 {
      var rest := text[s + 10..][Index(text[s + 10..], CLOSE) + 11..];
      EarlyIsPrefix(rest);
      PrefixBehind(text[..s], OnePass(rest).early, OnePass(rest).shown);
    }
  }

  const SPELLED_REST := "king>y" + CLOSE
  const SPELLED := "<thin" + OPEN + ("x" + CLOSE + SPELLED_REST)

  lemma SpelledPass()
    ensures OnePass(SPELLED).closed && OnePass(SPELLED).shown == "<thin" + SPELLED_REST
  {
    var rest := SPELLED_REST;
    var after := "x" + CLOSE + rest;
    assert SPELLED[5..15] == OPEN && SPELLED[15..] == after && SPELLED[..5] == "<thin";
    forall j | j < 5
      ensures !At(SPELLED, OPEN, j)
    {
      NoOverlap(SPELLED, 5, OPEN, j);
    }
    IndexIs(SPELLED, OPEN, 5);
    assert after[1..12] == CLOSE && after[12..] == rest && after[0] == 'x';
    AtChars(after, CLOSE, 0);
    IndexIs(after, CLOSE, 1);
    SpelledPlain();
    assert OnePass(after[12..]) == Pass(rest, "", "", 0, true);
  }

  lemma SpelledPlain()
    ensures Index(SPELLED_REST, OPEN) < 0
  {
    forall j
      ensures !At(SPELLED_REST, OPEN, j)
    {
      AtChars(SPELLED_REST, OPEN, j);
      assert SPELLED_REST[7] == '/' && forall k :: 0 <= k < 17 && k != 6 ==> SPELLED_REST[k] != '<';
      assert OPEN[0] == '<' && OPEN[1] == 't';
    }
  }

  lemma SpelledPair()
    ensures HasPair("<thin" + SPELLED_REST)
  {
    var shown := "<thin" + SPELLED_REST;
    assert shown[..10] == OPEN && shown[11..22] == CLOSE;
    IndexIs(shown, OPEN, 0);
    assert shown[0..] == shown;
    assert At(shown, CLOSE, 11);
  }

  lemma Disagree(content: string, shown: string)
    requires OnePass(content).shown == shown && HasPair(shown)
    ensures !(Extract(content).text == OnePass(content).shown && Extract(content).reasoning == OnePass(content).thought)
  {
    assert "" + shown == shown;
    ExtractAgreesIff(content);
  }

  /** Without the condition they differ: a tag spelled by the splice swallows the visible text behind it. */
  lemma SpelledTagSwallows()
    ensures OnePass(SPELLED).closed
    ensures !(Extract(SPELLED).text == OnePass(SPELLED).shown && Extract(SPELLED).reasoning == OnePass(SPELLED).thought)
  {
    SpelledPass();
    SpelledPair();
    Disagree(SPELLED, "<thin" + SPELLED_REST);
  }
}
