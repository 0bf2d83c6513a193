/**
 * Putting streamed tool calls together: each fragment names a slot by index, and a flush turns
 * the named slots into calls.
 */
module ToolAssembly {
  import opened Text
  import opened Json
  import opened StreamEvents

  datatype PartialToolCall = PartialToolCall(id: string, name: string, arguments: string)

  const EMPTY_SLOT := PartialToolCall("", "", "")

  /** One entry of a delta's `tool_calls` array. */
  datatype Fragment = Fragment(index: nat, id: Option<string>, name: Option<string>, arguments: string)

  /** The slots, and how many UUIDs have been drawn for calls that came without an id. */
  datatype Slots = Slots(tools: seq<PartialToolCall>, drawn: nat)

  function Pad(tools: seq<PartialToolCall>, index: nat): (r: seq<PartialToolCall>)
    ensures |r| == if index < |tools| then |tools| else index + 1
    ensures tools <= r
    ensures forall i :: |tools| <= i < |r| ==> r[i] == EMPTY_SLOT
    decreases index + 1 - |tools|
  {
    if |tools| <= index then Pad(tools + [EMPTY_SLOT], index) else tools
  }

  /** A slot with a fragment's fields written into it, before a missing id is made up. */
  function Written(slot: PartialToolCall, f: Fragment): PartialToolCall {
    PartialToolCall(
      if f.id.Some? then f.id.value else slot.id,
      if f.name.Some? then f.name.value else slot.name,
      slot.arguments + f.arguments)
  }

  predicate NeedsId(slot: PartialToolCall) {
    slot.id == "" && slot.name != ""
  }

  function FreshId(codec: Codec, n: nat): (id: string)
    ensures id != ""
  {
    "call_" + codec.uuid(n)
  }

  function Absorb(codec: Codec, slots: Slots, f: Fragment): (r: Slots)
    ensures |r.tools| == |Pad(slots.tools, f.index)|
  {
    var tools := Pad(slots.tools, f.index);
    var slot := Written(tools[f.index], f);
    if NeedsId(slot) then
      Slots(tools[f.index := slot.(id := FreshId(codec, slots.drawn))], slots.drawn + 1)
    else
      Slots(tools[f.index := slot], slots.drawn)
  }

  function AbsorbAll(codec: Codec, slots: Slots, fs: seq<Fragment>): Slots
    decreases |fs|
  {
    if fs == [] then slots else AbsorbAll(codec, Absorb(codec, slots, fs[0]), fs[1..])
  }

  function Call(codec: Codec, slot: PartialToolCall): ParsedToolCall {
    ParsedToolCall(slot.id, slot.name, codec.ParseOrNull(slot.arguments))
  }

  /** `flush_tools`: the slots that got a name, in slot order. */
  function Flush(codec: Codec, tools: seq<PartialToolCall>): seq<ParsedToolCall> {
    if tools == [] then []
    else (if tools[0].name != "" then [Call(codec, tools[0])] else []) + Flush(codec, tools[1..])
  }

  lemma {:induction false} FlushAppend(codec: Codec, a: seq<PartialToolCall>, b: seq<PartialToolCall>)
    ensures Flush(codec, a + b) == Flush(codec, a) + Flush(codec, b)
  {
    if a == [] {
      assert a + b == b;
    } else {
      assert (a + b)[1..] == a[1..] + b;
      FlushAppend(codec, a[1..], b);
    }
  }

  /** The indices of the named slots, lowest first. */
  function NamedIndices(tools: seq<PartialToolCall>): seq<nat> {
    if tools == [] then []
    else
      var last := |tools| - 1;
      NamedIndices(tools[..last]) + if tools[last].name != "" then [last] else []
  }

  /** They are exactly the named slots, each once, in strictly increasing order. */
  lemma {:induction false} NamedIndicesAre(tools: seq<PartialToolCall>)
    ensures var named := NamedIndices(tools);
            && (forall k :: 0 <= k < |named| ==> named[k] < |tools| && tools[named[k]].name != "")
            && (forall j, k :: 0 <= j < k < |named| ==> named[j] < named[k])
            && (forall i: nat :: i < |tools| && tools[i].name != "" ==> i in named)
  {
    if tools != [] {
      var last := |tools| - 1;
      var before, named := tools[..last], NamedIndices(tools);
      NamedIndicesAre(before);
      forall i: nat | i < |tools| && tools[i].name != ""
        ensures i in named
      {
        if i < last {
          assert before[i] == tools[i] && i in NamedIndices(before);
        } else {
          assert named[|named| - 1] == i;
        }
      }
    }
  }

  /** A flush gives one call for each named slot, no other, in slot order. */
  lemma {:induction false} FlushInIndexOrder(codec: Codec, tools: seq<PartialToolCall>)
    ensures var named := NamedIndices(tools);
            && |Flush(codec, tools)| == |named|
            && forall k :: 0 <= k < |named|
                 ==> named[k] < |tools| && Flush(codec, tools)[k] == Call(codec, tools[named[k]])
  {
    hide Flush, Call;
    FlushLast(codec, tools);
    if tools != [] {
      FlushInIndexOrder(codec, tools[..|tools| - 1]);
    }
  }

  lemma FlushLast(codec: Codec, tools: seq<PartialToolCall>)
    ensures tools == [] ==> Flush(codec, tools) == []
    ensures tools != [] ==>
              var last := |tools| - 1;
              Flush(codec, tools)
              == Flush(codec, tools[..last]) + if tools[last].name != "" then [Call(codec, tools[last])] else []
  {
    if tools != [] {
      var last := |tools| - 1;
      assert tools == tools[..last] + [tools[last]];
      FlushAppend(codec, tools[..last], [tools[last]]);
      assert [tools[last]][1..] == [];
    }
  }

  /** A slot that has a name always has an id too. */
  predicate Identified(tools: seq<PartialToolCall>) {
    forall i :: 0 <= i < |tools| ==> !NeedsId(tools[i])
  }

  lemma AbsorbIdentifies(codec: Codec, slots: Slots, f: Fragment)
    requires Identified(slots.tools)
    ensures Identified(Absorb(codec, slots, f).tools)
  {
  }

  lemma {:induction false} AbsorbAllIdentifies(codec: Codec, slots: Slots, fs: seq<Fragment>)
    requires Identified(slots.tools)
    ensures Identified(AbsorbAll(codec, slots, fs).tools)
    decreases |fs|
  {
    if fs != [] {
      AbsorbIdentifies(codec, slots, fs[0]);
      AbsorbAllIdentifies(codec, Absorb(codec, slots, fs[0]), fs[1..]);
    }
  }

  predicate Callable(call: ParsedToolCall) {
    call.id != "" && call.name != ""
  }

  lemma {:induction false} FlushedCallsAreCallable(codec: Codec, tools: seq<PartialToolCall>)
    requires Identified(tools)
    ensures forall i :: 0 <= i < |Flush(codec, tools)| ==> Callable(Flush(codec, tools)[i])
  {
    if tools != [] {
      forall i | 0 <= i < |tools[1..]|
        ensures !NeedsId(tools[1..][i])
      {
        assert tools[1..][i] == tools[i + 1];
      }
      FlushedCallsAreCallable(codec, tools[1..]);
    }
  }

  // ----- what a slot holds, said per index -----

  /** The argument text a stream of fragments carries for one index, in order. */
  function ArgumentsFor(fs: seq<Fragment>, index: nat): string {
    if fs == [] then ""
    else (if fs[0].index == index then fs[0].arguments else "") + ArgumentsFor(fs[1..], index)
  }

  /** The last name sent for one index. */
  function NameFor(fs: seq<Fragment>, index: nat): string {
    if fs == [] then ""
    else
      var f := fs[|fs| - 1];
      if f.index == index && f.name.Some? then f.name.value else NameFor(fs[..|fs| - 1], index)
  }

  /** The last id sent for one index. */
  function IdFor(fs: seq<Fragment>, index: nat): string {
    if fs == [] then ""
    else
      var f := fs[|fs| - 1];
      if f.index == index && f.id.Some? then f.id.value else IdFor(fs[..|fs| - 1], index)
  }

  function SlotCount(fs: seq<Fragment>): nat {
    if fs == [] then 0
    else
      var n := SlotCount(fs[..|fs| - 1]);
      if fs[|fs| - 1].index < n then n else fs[|fs| - 1].index + 1
  }

  lemma {:induction false} AbsorbAllLast(codec: Codec, slots: Slots, fs: seq<Fragment>, f: Fragment)
    ensures AbsorbAll(codec, slots, fs + [f]) == Absorb(codec, AbsorbAll(codec, slots, fs), f)
    decreases |fs|
  {
    if fs == [] {
      assert (fs + [f])[1..] == [];
    } else {
      assert (fs + [f])[1..] == fs[1..] + [f];
      AbsorbAllLast(codec, Absorb(codec, slots, fs[0]), fs[1..], f);
    }
  }

  lemma {:induction false} ArgumentsLast(fs: seq<Fragment>, f: Fragment, index: nat)
    ensures ArgumentsFor(fs + [f], index) == ArgumentsFor(fs, index) + (if f.index == index then f.arguments else "")
    decreases |fs|
  {
    if fs == [] {
      assert (fs + [f])[1..] == [];
    } else {
      assert (fs + [f])[1..] == fs[1..] + [f];
      ArgumentsLast(fs[1..], f, index);
    }
  }

  /** An id the accumulator made up, from a UUID drawn at or after the `drawn`-th. */
  ghost predicate MadeUp(codec: Codec, drawn: nat, id: string) {
    exists n: nat :: n >= drawn && id == FreshId(codec, n)
  }

  /** What the fragments since the last flush say about slot `i`. */
  ghost predicate SlotHolds(codec: Codec, drawn: nat, fs: seq<Fragment>, slot: PartialToolCall, i: nat) {
    && slot.arguments == ArgumentsFor(fs, i)
    && slot.name == NameFor(fs, i)
    && (IdFor(fs, i) != "" ==> slot.id == IdFor(fs, i))
    && (IdFor(fs, i) == "" ==> slot.id == "" || MadeUp(codec, drawn, slot.id))
    && !NeedsId(slot)
  }

  /**
   * Assembly: after any fragments, slot `i` holds exactly the in-order concatenation of the
   * argument pieces for index `i`, the last name sent for it, and the last id sent for it; when that
   * id is missing or empty, a slot with a name has a made-up one. There are no slots beyond the
   * highest index seen.
   */
  lemma {:induction false} Assembly(codec: Codec, drawn: nat, fs: seq<Fragment>)
    ensures var slots := AbsorbAll(codec, Slots([], drawn), fs);
            && |slots.tools| == SlotCount(fs)
            && slots.drawn >= drawn
            && forall i: nat :: i < |slots.tools| ==> SlotHolds(codec, drawn, fs, slots.tools[i], i)
    decreases |fs|
  {
    if fs != [] {
      var before, f := fs[..|fs| - 1], fs[|fs| - 1];
      assert fs == before + [f];
      Assembly(codec, drawn, before);
      var slots := AbsorbAll(codec, Slots([], drawn), before);
      AbsorbAllLast(codec, Slots([], drawn), before, f);
      var tools := Absorb(codec, slots, f).tools;
      forall i: nat | i < |tools|
        ensures SlotHolds(codec, drawn, fs, tools[i], i)
      {
        ArgumentsLast(before, f, i);
        if i >= |slots.tools| {
          NothingFor(before, i);
        }
        if i == f.index {
          FragmentLands(codec, drawn, before, Pad(slots.tools, i)[i], f, slots.drawn);
        }
      }
    }
  }

  /** One fragment on the slot it is for; a slot nothing was sent for is the empty one. */
  lemma FragmentLands(codec: Codec, drawn: nat, before: seq<Fragment>, slot: PartialToolCall,
      f: Fragment, next: nat)
    requires SlotHolds(codec, drawn, before, slot, f.index) && next >= drawn
    ensures var written := Written(slot, f);
            var landed := if NeedsId(written) then written.(id := FreshId(codec, next)) else written;
            SlotHolds(codec, drawn, before + [f], landed, f.index)
  {
    var fs := before + [f];
    assert fs[..|fs| - 1] == before;
    ArgumentsLast(before, f, f.index);
  }

  lemma {:induction false} NothingFor(fs: seq<Fragment>, i: nat)
    requires i >= SlotCount(fs)
    ensures ArgumentsFor(fs, i) == "" && NameFor(fs, i) == "" && IdFor(fs, i) == ""
    decreases |fs|
  {
    if fs != [] {
      var before, f := fs[..|fs| - 1], fs[|fs| - 1];
      assert fs == before + [f];
      ArgumentsLast(before, f, i);
      NothingFor(before, i);
    }
  }

  /** A named slot keeps the last id sent for it exactly when that id is not empty. */
  lemma SentIdKeptExactlyWhen(codec: Codec, drawn: nat, fs: seq<Fragment>, i: nat)
    requires i < SlotCount(fs) && NameFor(fs, i) != ""
    ensures var tools := AbsorbAll(codec, Slots([], drawn), fs).tools;
            && i < |tools|
            && (tools[i].id == IdFor(fs, i) <==> IdFor(fs, i) != "")
            && (IdFor(fs, i) == "" ==> MadeUp(codec, drawn, tools[i].id))
  {
    hide AbsorbAll;
    Assembly(codec, drawn, fs);
    assert SlotHolds(codec, drawn, fs, AbsorbAll(codec, Slots([], drawn), fs).tools[i], i);
  }

  /** The last id sent for one index that is not empty. */
  function LastRealId(fs: seq<Fragment>, index: nat): string {
    if fs == [] then ""
    else
      var f := fs[|fs| - 1];
      if f.index == index && f.id.Some? && f.id.value != "" then f.id.value else LastRealId(fs[..|fs| - 1], index)
  }

  lemma {:induction false} LastIdIsReal(fs: seq<Fragment>, index: nat)
    ensures IdFor(fs, index) != "" ==> IdFor(fs, index) == LastRealId(fs, index)
  {
    if fs != [] {
      LastIdIsReal(fs[..|fs| - 1], index);
    }
  }

  /**
   * When a real id is lost: a named slot for which one was sent, and which the code does not happen
   * to make up itself, keeps it exactly when no empty id was sent after it.
   */
  lemma RealIdKeptExactlyWhen(codec: Codec, drawn: nat, fs: seq<Fragment>, i: nat)
    requires i < SlotCount(fs) && NameFor(fs, i) != ""
    requires LastRealId(fs, i) != "" && !MadeUp(codec, drawn, LastRealId(fs, i))
    ensures var tools := AbsorbAll(codec, Slots([], drawn), fs).tools;
            i < |tools| && (tools[i].id == LastRealId(fs, i) <==> IdFor(fs, i) != "")
  {
    hide AbsorbAll;
    SentIdKeptExactlyWhen(codec, drawn, fs, i);
    LastIdIsReal(fs, i);
  }

  /** So a later empty id makes the accumulator replace the id that was sent by one it makes up. */
  lemma EmptyIdReplacesSentOne(codec: Codec, drawn: nat)
    ensures var fs := [Fragment(0, Some("a"), Some("f"), ""), Fragment(0, Some(""), None, "")];
            AbsorbAll(codec, Slots([], drawn), fs)
            == Slots([PartialToolCall(FreshId(codec, drawn), "f", "")], drawn + 1)
  {
    var f, g := Fragment(0, Some("a"), Some("f"), ""), Fragment(0, Some(""), None, "");
    var tools := Pad([], 0);
    assert tools == [EMPTY_SLOT] && |Pad([PartialToolCall("a", "f", "")], 0)| == 1;
    assert "" + "" == "";
    assert Absorb(codec, Slots([], drawn), f) == Slots([PartialToolCall("a", "f", "")], drawn);
    assert [f, g][1..] == [g] && [g][1..] == [];
  }

  predicate Draws(tools: seq<PartialToolCall>, f: Fragment) {
    NeedsId(Written(Pad(tools, f.index)[f.index], f))
  }

  /**
   * Fragments for different indices commute, exactly unless both make an id up: then the two
   * slots would swap the ids they drew.
   */
  lemma DistinctIndicesCommute(codec: Codec, slots: Slots, f: Fragment, g: Fragment)
    requires f.index != g.index
    ensures Absorb(codec, Absorb(codec, slots, f), g) == Absorb(codec, Absorb(codec, slots, g), f)
            <==> !(Draws(slots.tools, f) && Draws(slots.tools, g)
                   && codec.uuid(slots.drawn) != codec.uuid(slots.drawn + 1))
  {
    var fg := Absorb(codec, Absorb(codec, slots, f), g);
    var gf := Absorb(codec, Absorb(codec, slots, g), f);
    assert |fg.tools| == |gf.tools|;
    forall i: nat | i < |fg.tools| && i != f.index && i != g.index
      ensures fg.tools[i] == gf.tools[i]
    {
    }
    DrawsOwnSlot(codec, slots, f, g);
    DrawsOwnSlot(codec, slots, g, f);
    var m, n := slots.drawn, slots.drawn + 1;
    if Draws(slots.tools, f) && Draws(slots.tools, g) {
      assert fg.tools[f.index].id == FreshId(codec, m) && gf.tools[f.index].id == FreshId(codec, n);
      if codec.uuid(m) != codec.uuid(n) {
        FreshIdsDiffer(codec, m, n);
      } else {
        assert fg.tools == gf.tools;
      }
    } else {
      assert fg.tools == gf.tools;
    }
  }

  lemma FreshIdsDiffer(codec: Codec, m: nat, n: nat)
    requires codec.uuid(m) != codec.uuid(n)
    ensures FreshId(codec, m) != FreshId(codec, n)
  {
    assert FreshId(codec, m)[5..] == codec.uuid(m);
    assert FreshId(codec, n)[5..] == codec.uuid(n);
  }

  lemma DrawsOwnSlot(codec: Codec, slots: Slots, f: Fragment, g: Fragment)
    requires f.index != g.index
    ensures Draws(Absorb(codec, slots, f).tools, g) == Draws(slots.tools, g)
  {
  }

  // ----- exactly once -----

  /** What a stream tells the accumulator: a fragment, or a point at which the slots are flushed. */
  datatype Signal = Piece(fragment: Fragment) | FlushPoint

  datatype Assembled = Assembled(calls: seq<ParsedToolCall>, slots: Slots)

  function Assemble(codec: Codec, slots: Slots, signals: seq<Signal>): Assembled
    decreases |signals|
  {
    if signals == [] then Assembled([], slots)
    else match signals[0]
      case Piece(f) => Assemble(codec, Absorb(codec, slots, f), signals[1..])
      case FlushPoint =>
        var rest := Assemble(codec, Slots([], slots.drawn), signals[1..]);
        rest.(calls := Flush(codec, slots.tools) + rest.calls)
  }

  function Pieces(fs: seq<Fragment>): seq<Signal> {
    if fs == [] then [] else [Piece(fs[0])] + Pieces(fs[1..])
  }

  lemma {:induction false} AssemblePieces(codec: Codec, slots: Slots, fs: seq<Fragment>, later: seq<Signal>)
    ensures Assemble(codec, slots, Pieces(fs) + later) == Assemble(codec, AbsorbAll(codec, slots, fs), later)
    decreases |fs|
  {
    hide Absorb;
    if fs == [] {
      assert Pieces(fs) + later == later;
    } else {
      assert (Pieces(fs) + later)[1..] == Pieces(fs[1..]) + later;
      AssemblePieces(codec, Absorb(codec, slots, fs[0]), fs[1..], later);
    }
  }

  /**
   * Each fragment reaches one flush only: up to a flush point the calls are those of the
   * fragments since the last one, and the rest starts from empty slots. A second flush point
   * right behind the first adds nothing.
   */
  lemma FlushedOnce(codec: Codec, slots: Slots, fs: seq<Fragment>, later: seq<Signal>)
    ensures var gathered := AbsorbAll(codec, slots, fs);
            var rest := Assemble(codec, Slots([], gathered.drawn), later);
            && Assemble(codec, slots, Pieces(fs) + ([FlushPoint] + later))
               == Assembled(Flush(codec, gathered.tools) + rest.calls, rest.slots)
            && Assemble(codec, slots, Pieces(fs) + ([FlushPoint, FlushPoint] + later))
               == Assemble(codec, slots, Pieces(fs) + ([FlushPoint] + later))
  {
    hide AbsorbAll;
    AssemblePieces(codec, slots, fs, [FlushPoint] + later);
    AssemblePieces(codec, slots, fs, [FlushPoint, FlushPoint] + later);
    assert ([FlushPoint] + later)[1..] == later;
    assert ([FlushPoint, FlushPoint] + later)[1..] == [FlushPoint] + later;
  }

  // ----- from flush to flush -----

  /** The fragments each flush point finds since the one before; `open` came before `signals`. */
  function Batches(open: seq<Fragment>, signals: seq<Signal>): seq<seq<Fragment>>
    decreases |signals|
  {
    if signals == [] then []
    else match signals[0]
      case Piece(f) => Batches(open + [f], signals[1..])
      case FlushPoint => [open] + Batches([], signals[1..])
  }

  /** The indices that got a name, lowest first. */
  function NamedBelow(fs: seq<Fragment>, n: nat): seq<nat> {
    if n == 0 then [] else NamedBelow(fs, n - 1) + if NameFor(fs, n - 1) != "" then [n - 1] else []
  }

  /** The call a batch of fragments makes for index `i`. */
  ghost predicate IsCallFor(codec: Codec, fs: seq<Fragment>, i: nat, call: ParsedToolCall) {
    && call.name == NameFor(fs, i)
    && call.arguments == codec.ParseOrNull(ArgumentsFor(fs, i))
    && (if IdFor(fs, i) != "" then call.id == IdFor(fs, i) else MadeUp(codec, 0, call.id))
  }

  /** One call for each index that got a name, in index order. */
  ghost predicate BatchGives(codec: Codec, fs: seq<Fragment>, calls: seq<ParsedToolCall>) {
    var named := NamedBelow(fs, SlotCount(fs));
    && |calls| == |named|
    && forall k :: 0 <= k < |calls| ==> IsCallFor(codec, fs, named[k], calls[k])
  }

  lemma {:induction false} NamedAlike(fs: seq<Fragment>, tools: seq<PartialToolCall>)
    requires forall i: nat :: i < |tools| ==> tools[i].name == NameFor(fs, i)
    ensures NamedIndices(tools) == NamedBelow(fs, |tools|)
    decreases |tools|
  {
    if tools != [] {
      NamedAlike(fs, tools[..|tools| - 1]);
    }
  }

  lemma FlushGives(codec: Codec, drawn: nat, fs: seq<Fragment>)
    ensures BatchGives(codec, fs, Flush(codec, AbsorbAll(codec, Slots([], drawn), fs).tools))
  {
    hide AbsorbAll, Flush, NamedIndices, NamedBelow, SlotHolds;
    var tools := AbsorbAll(codec, Slots([], drawn), fs).tools;
    Assembly(codec, drawn, fs);
    FlushInIndexOrder(codec, tools);
    forall i: nat | i < |tools|
      ensures tools[i].name == NameFor(fs, i)
      ensures tools[i].name != "" ==> IsCallFor(codec, fs, i, Call(codec, tools[i]))
    {
      HeldIsCall(codec, drawn, fs, tools[i], i);
    }
    NamedAlike(fs, tools);
    NamedIndicesAre(tools);
  }

  lemma HeldIsCall(codec: Codec, drawn: nat, fs: seq<Fragment>, slot: PartialToolCall, i: nat)
    requires SlotHolds(codec, drawn, fs, slot, i)
    ensures slot.name == NameFor(fs, i)
    ensures slot.name != "" ==> IsCallFor(codec, fs, i, Call(codec, slot))
  {
  }

  function Flattened<T>(parts: seq<seq<T>>): seq<T> {
    if parts == [] then [] else parts[0] + Flattened(parts[1..])
  }

  /**
   * Whatever pieces and flush points come, each flush gives the calls of the fragments since the
   * flush before it: `parts` are those calls, flush by flush.
   */
  lemma {:induction false} AssembledByBatch(codec: Codec, drawn: nat, open: seq<Fragment>, signals: seq<Signal>)
    returns (parts: seq<seq<ParsedToolCall>>)
    ensures var batches := Batches(open, signals);
            && Assemble(codec, AbsorbAll(codec, Slots([], drawn), open), signals).calls == Flattened(parts)
            && |parts| == |batches|
            && forall b :: 0 <= b < |parts| ==> BatchGives(codec, batches[b], parts[b])
    decreases |signals|
  {
    hide Absorb, AbsorbAll, Flush, BatchGives;
    var slots := AbsorbAll(codec, Slots([], drawn), open);
    if signals == [] {
      parts := [];
    } else {
      match signals[0]
      case Piece(f) =>
        AbsorbAllLast(codec, Slots([], drawn), open, f);
        parts := AssembledByBatch(codec, drawn, open + [f], signals[1..]);
      case FlushPoint =>
        var rest := AssembledByBatch(codec, slots.drawn, [], signals[1..]);
        NothingAbsorbed(codec, Slots([], slots.drawn));
        parts := [Flush(codec, slots.tools)] + rest;
        assert parts[1..] == rest;
        FlushGives(codec, drawn, open);
    }
  }

  lemma NothingAbsorbed(codec: Codec, slots: Slots)
    ensures AbsorbAll(codec, slots, []) == slots
  {
  }
}
