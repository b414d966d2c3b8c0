/** Reassembly of streamed OpenAI tool-call deltas. */
module ToolCalls {
  import opened Basics

  /** A streamed delta; absent strings are empty, an absent index is 0. */
  datatype Delta = Delta(index: int, id: string, kind: string, name: string, arguments: string)

  datatype Call = Call(id: string, kind: string, name: string, arguments: string)

  datatype State = State(calls: seq<Call>, slot: map<int, nat>)

  const EMPTY := State([], map[])

  /** Every slot is a position in the list of calls. */
  ghost predicate Sound(st: State) {
    forall i :: i in st.slot ==> st.slot[i] < |st.calls|
  }

  /** A delta opens a new call on an unknown index, or when it renames the call its index stands for. */
  predicate Opens(st: State, d: Delta)
    requires Sound(st)
  {
    d.index !in st.slot || (d.id != "" && st.calls[st.slot[d.index]].id != "" && d.id != st.calls[st.slot[d.index]].id)
  }

  /** A call with one more delta merged into it. */
  function Merge(c: Call, d: Delta): Call {
    Call(
      if d.id != "" then d.id else c.id,
      c.kind,
      if d.name != "" then d.name else c.name,
      c.arguments + d.arguments)
  }

  function AddOne(st: State, d: Delta): (st': State)
    requires Sound(st)
    ensures Sound(st')
  {
    if Opens(st, d) then
      State(st.calls + [Merge(Call("", d.kind, "", ""), d)], st.slot[d.index := |st.calls|])
    else
      var pos := st.slot[d.index];
      State(st.calls[pos := Merge(st.calls[pos], d)], st.slot)
  }

  function AddAll(deltas: seq<Delta>): (st: State)
    ensures Sound(st)
  {
    if deltas == [] then EMPTY else AddOne(AddAll(Front(deltas)), Last(deltas))
  }

  class ToolCallAccumulator {
    var calls: seq<Call>
    var slot: map<int, nat>
    /** Every delta added so far. */
    ghost var added: seq<Delta>

    ghost predicate Valid()
      reads this
    {
      State(calls, slot) == AddAll(added)
    }

    constructor ()
      ensures Valid() && added == []
    {
      calls, slot, added := [], map[], [];
    }

    method Add(deltas: seq<Delta>)
      requires Valid()
      modifies this
      ensures Valid() && added == old(added) + deltas
    {
      assert added + [] == added;
      for i := 0 to |deltas|
        invariant Valid() && added == old(added) + deltas[..i]
      {
        assert deltas[..i + 1] == deltas[..i] + [deltas[i]];
        AddDelta(deltas[i]);
      }
      assert deltas[..|deltas|] == deltas;
    }

    /** The loop's body. */
    method AddDelta(d: Delta)
      requires Valid()
      modifies this
      ensures Valid() && added == old(added) + [d]
    {
      assert Front(added + [d]) == added;
      if d.index !in slot || (d.id != "" && calls[slot[d.index]].id != "" && d.id != calls[slot[d.index]].id) {
        calls := calls + [Call("", d.kind, "", "")];
        slot := slot[d.index := |calls| - 1];
      }
      var pos := slot[d.index];
      var c := calls[pos];
      if d.id != "" {
        c := c.(id := d.id);
      }
      if d.name != "" {
        c := c.(name := d.name);
      }
      c := c.(arguments := c.arguments + d.arguments);
      calls := calls[pos := c];
      added := added + [d];
    }

    /** The assembled calls in the order they were opened. */
    method Calls() returns (r: seq<Call>)
      requires Valid()
      ensures r == AddAll(added).calls
    {
      r := calls;
    }
  }

  // ---- Conservation ----

  function ArgumentLength(calls: seq<Call>): nat {
    if calls == [] then 0 else ArgumentLength(Front(calls)) + |Last(calls).arguments|
  }

  function FragmentLength(deltas: seq<Delta>): nat {
    if deltas == [] then 0 else FragmentLength(Front(deltas)) + |Last(deltas).arguments|
  }

  lemma {:induction false} ArgumentLengthUpdate(calls: seq<Call>, pos: nat, c: Call)
    requires pos < |calls|
    ensures ArgumentLength(calls[pos := c]) == ArgumentLength(calls) - |calls[pos].arguments| + |c.arguments|
    decreases |calls|
  {
    if pos == |calls| - 1 {
      assert Front(calls[pos := c]) == Front(calls);
    } else {
      assert Front(calls[pos := c]) == Front(calls)[pos := c];
      ArgumentLengthUpdate(Front(calls), pos, c);
    }
  }

  /** Nothing is dropped or doubled: on every input the assembled arguments are as long as all fragments together. */
  lemma {:induction false} ArgumentsConserved(deltas: seq<Delta>)
    ensures ArgumentLength(AddAll(deltas).calls) == FragmentLength(deltas)
  {
    if deltas != [] {
      ArgumentsConserved(Front(deltas));
      var st, d := AddAll(Front(deltas)), Last(deltas);
      if Opens(st, d) {
        assert Front(AddOne(st, d).calls) == st.calls;
      } else {
        ArgumentLengthUpdate(st.calls, st.slot[d.index], Merge(st.calls[st.slot[d.index]], d));
      }
    }
  }

  // ---- Reassembly ----

  /** The indices in the order in which they first occur. */
  function Order(deltas: seq<Delta>): (o: seq<int>)
    ensures forall d :: d in deltas ==> d.index in o
  {
    if deltas == [] then []
    else
      var before := Order(Front(deltas));
      assert forall d :: d in deltas ==> d in Front(deltas) || d == Last(deltas);
      if Last(deltas).index in before then before else before + [Last(deltas).index]
  }

  /** The fragments of one index, joined. */
  function Joined(deltas: seq<Delta>, index: int): string {
    if deltas == [] then ""
    else Joined(Front(deltas), index) + (if Last(deltas).index == index then Last(deltas).arguments else "")
  }

  /** The id an index has been given, the last one if several. */
  function IdOf(deltas: seq<Delta>, index: int): string {
    if deltas == [] then ""
    else if Last(deltas).index == index && Last(deltas).id != "" then Last(deltas).id
    else IdOf(Front(deltas), index)
  }

  function NameOf(deltas: seq<Delta>, index: int): string {
    if deltas == [] then ""
    else if Last(deltas).index == index && Last(deltas).name != "" then Last(deltas).name
    else NameOf(Front(deltas), index)
  }

  /** The kind an index was opened with. */
  function KindOf(deltas: seq<Delta>, index: int): string {
    if deltas == [] then ""
    else if index !in Order(Front(deltas)) && Last(deltas).index == index then Last(deltas).kind
    else KindOf(Front(deltas), index)
  }

  /** Each index stands for one call: it is never given a second id. */
  ghost predicate OneIdEach(deltas: seq<Delta>) {
    forall i, j ::
      (0 <= i < |deltas| && 0 <= j < |deltas| && deltas[i].index == deltas[j].index && deltas[i].id != "" && deltas[j].id != "")
      ==> deltas[i].id == deltas[j].id
  }

  /** The calls are one per index, in opening order, each with its own fragments. */
  ghost predicate Assembled(deltas: seq<Delta>, st: State) {
    var order := Order(deltas);
    && |st.calls| == |order|
    && (forall k :: 0 <= k < |order| ==> order[k] in st.slot && st.slot[order[k]] == k)
    && (forall i :: i in st.slot ==> i in order)
    && (forall k :: 0 <= k < |order| ==> AssembledCall(deltas, order[k], st.calls[k]))
  }

  ghost predicate AssembledCall(deltas: seq<Delta>, index: int, c: Call) {
    && c.arguments == Joined(deltas, index)
    && c.id == IdOf(deltas, index) && c.name == NameOf(deltas, index) && c.kind == KindOf(deltas, index)
  }

  lemma {:induction false} IdOfOccurs(deltas: seq<Delta>, index: int)
    ensures IdOf(deltas, index) != "" ==> exists i :: 0 <= i < |deltas| && deltas[i].index == index && deltas[i].id == IdOf(deltas, index)
  {
    if deltas != [] {
      IdOfOccurs(Front(deltas), index);
      if !(Last(deltas).index == index && Last(deltas).id != "") && IdOf(deltas, index) != "" {
        var i :| 0 <= i < |Front(deltas)| && Front(deltas)[i].index == index && Front(deltas)[i].id == IdOf(Front(deltas), index);
        assert deltas[i].index == index;
      }
    }
  }

  /** An index never mentioned has nothing. */
  lemma {:induction false} Unmentioned(deltas: seq<Delta>, index: int)
    requires index !in Order(deltas)
    ensures Joined(deltas, index) == "" && IdOf(deltas, index) == "" && NameOf(deltas, index) == ""
  {
    if deltas != [] {
      Unmentioned(Front(deltas), index);
    }
  }

  /**
   Reassembly: however the argument fragments of different indices are interleaved, as long as no index is
   given a second id, the calls come out in the order they were opened, each with its own fragments joined
   in order, its id and its name, and the kind it was opened with.
   */
  lemma {:induction false} Reassembles(deltas: seq<Delta>)
    requires OneIdEach(deltas)
    ensures Assembled(deltas, AddAll(deltas))
  {
    if deltas != [] {
      var front, d := Front(deltas), Last(deltas);
      var st := AddAll(front);
      Reassembles(front);
      var order := Order(front);
      assert forall k :: 0 <= k < |order| ==> AssembledCall(front, order[k], st.calls[k]);
      if d.index !in order {
        Unmentioned(front, d.index);
        assert "" + d.arguments == d.arguments;
        ReassemblesNew(deltas);
      } else {
        ReassemblesMore(deltas);
      }
    }
  }

  lemma ReassemblesNew(deltas: seq<Delta>)
    requires deltas != [] && Assembled(Front(deltas), AddAll(Front(deltas))) && Last(deltas).index !in Order(Front(deltas))
    ensures Assembled(deltas, AddAll(deltas))
  {
    var front, d := Front(deltas), Last(deltas);
    var st, order := AddAll(front), Order(front);
    Unmentioned(front, d.index);
    var newCall := Merge(Call("", d.kind, "", ""), d);
    assert AssembledCall(deltas, d.index, newCall);
    forall k | 0 <= k < |order|
      ensures AssembledCall(deltas, order[k], st.calls[k])
    {
      Unaffected(deltas, order[k], st.calls[k]);
    }
  }

  lemma Unaffected(deltas: seq<Delta>, index: int, c: Call)
    requires deltas != [] && Last(deltas).index != index && AssembledCall(Front(deltas), index, c)
    ensures AssembledCall(deltas, index, c)
  {
    assert Joined(Front(deltas), index) + "" == Joined(Front(deltas), index);
  }

  lemma ReassemblesMore(deltas: seq<Delta>)
    requires deltas != [] && OneIdEach(deltas)
    requires Assembled(Front(deltas), AddAll(Front(deltas))) && Last(deltas).index in Order(Front(deltas))
    ensures Assembled(deltas, AddAll(deltas))
  {
    var front, d := Front(deltas), Last(deltas);
    var st, order := AddAll(front), Order(front);
    var pos :| 0 <= pos < |order| && order[pos] == d.index;
    assert st.slot[d.index] == pos && AssembledCall(front, d.index, st.calls[pos]);
    IdOfOccurs(front, d.index);
    if d.id != "" && st.calls[pos].id != "" {
      var i :| 0 <= i < |front| && front[i].index == d.index && front[i].id == st.calls[pos].id;
      assert deltas[i] == front[i] && deltas[|deltas| - 1] == d;
    }
    assert !Opens(st, d);
    assert AssembledCall(deltas, d.index, Merge(st.calls[pos], d));
    forall k | 0 <= k < |order| && k != pos
      ensures AssembledCall(deltas, order[k], st.calls[k])
    {
      assert order[k] != d.index;
      Unaffected(deltas, order[k], st.calls[k]);
    }
  }

  /** Complete calls sent without an index, each with an id different from the one before. */
  ghost predicate CompleteCalls(deltas: seq<Delta>) {
    && (forall i :: 0 <= i < |deltas| ==> deltas[i].index == 0 && deltas[i].id != "")
    && (forall i :: 0 < i < |deltas| ==> deltas[i].id != deltas[i - 1].id)
  }

  /** Index-less complete calls stay separate: each comes out as it went in. */
  lemma {:induction false} CompleteCallsStaySeparate(deltas: seq<Delta>)
    requires CompleteCalls(deltas)
    ensures var st := AddAll(deltas);
            && |st.calls| == |deltas|
            && (deltas != [] ==> 0 in st.slot && st.slot[0] == |deltas| - 1)
            && forall i :: 0 <= i < |deltas| ==>
                 st.calls[i] == Call(deltas[i].id, deltas[i].kind, deltas[i].name, deltas[i].arguments)
  {
    if deltas != [] {
      var front, d := Front(deltas), Last(deltas);
      assert forall i :: 0 <= i < |front| ==> front[i] == deltas[i];
      CompleteCallsStaySeparate(front);
      assert Opens(AddAll(front), d);
      assert "" + d.arguments == d.arguments;
    } else {
      assert AddAll(deltas).calls == [];
    }
  }
}
