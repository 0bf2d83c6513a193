/**
 * Cutting a growing buffer into blocks at blank lines, and handing each block to a handler.
 *
 * `Parse` is one call of a parser on its buffer: it stops early after a block for which `stops`
 * holds and leaves everything behind that block in the buffer. `FeedAll` is a stream read:
 * append a chunk, call the parser, and so on.
 */
module SseFraming {
  import opened Text
  import opened StreamEvents

  const DATA := "data: "

  datatype Turn<S> = Turn(state: S, events: seq<StreamEvent>, calls: seq<ParsedToolCall>)

  type Handler<!S> = (S, string) -> Turn<S>

  datatype Parsed<S> =
    Parsed(state: S, events: seq<StreamEvent>, calls: seq<ParsedToolCall>, rest: string)
  {
    function After(events: seq<StreamEvent>, calls: seq<ParsedToolCall>): Parsed<S> {
      Parsed(state, events + this.events, calls + this.calls, rest)
    }
  }

  function Parse<S>(h: Handler<S>, stops: string -> bool, s: S, buffer: string): Parsed<S>
    decreases |buffer|
  {
    match Find(buffer, "\n\n")
    case None => Parsed(s, [], [], buffer)
    case Some(pos) =>
      var turn := h(s, buffer[..pos]);
      var rest := buffer[pos + 2..];
      if stops(buffer[..pos]) then Parsed(turn.state, turn.events, turn.calls, rest)
      else Parse(h, stops, turn.state, rest).After(turn.events, turn.calls)
  }

  function FeedAll<S>(h: Handler<S>, stops: string -> bool, s: S, buffer: string, chunks: seq<string>): Parsed<S>
    decreases |chunks|
  {
    if chunks == [] then Parsed(s, [], [], buffer)
    else
      var first := Parse(h, stops, s, buffer + chunks[0]);
      FeedAll(h, stops, first.state, first.rest, chunks[1..]).After(first.events, first.calls)
  }

  lemma AfterTwice<S>(p: Parsed<S>, e: seq<StreamEvent>, c: seq<ParsedToolCall>,
        e': seq<StreamEvent>, c': seq<ParsedToolCall>)
    ensures p.After(e', c').After(e, c) == p.After(e + e', c + c')
  {
  }

  // ----- the blocks of a stream, said without a parser -----

  /** The complete blocks of a buffer, in order. */
  function Blocks(buffer: string): seq<string>
    decreases |buffer|
  {
    match Find(buffer, "\n\n")
    case None => []
    case Some(pos) => [buffer[..pos]] + Blocks(buffer[pos + 2..])
  }

  /** What follows the last complete block. */
  function Leftover(buffer: string): string
    decreases |buffer|
  {
    match Find(buffer, "\n\n")
    case None => buffer
    case Some(pos) => Leftover(buffer[pos + 2..])
  }

  lemma {:induction false} FirstBlockCut(buffer: string, pos: nat)
    requires Find(buffer, "\n\n") == Some(pos)
    ensures Blocks(buffer) == [buffer[..pos]] + Blocks(buffer[pos + 2..])
    ensures Blocks(buffer)[1..] == Blocks(buffer[pos + 2..])
    ensures Leftover(buffer) == Leftover(buffer[pos + 2..])
  {
  }

  function Terminated(blocks: seq<string>): string {
    if blocks == [] then "" else blocks[0] + "\n\n" + Terminated(blocks[1..])
  }

  /** The blocks and the leftover are the whole buffer, and the leftover has no complete block. */
  lemma {:induction false} BlocksAreTheBuffer(buffer: string)
    ensures Terminated(Blocks(buffer)) + Leftover(buffer) == buffer
    ensures Blocks(Leftover(buffer)) == []
    decreases |buffer|
  {
    match Find(buffer, "\n\n")
    case None =>
    case Some(pos) =>
      BlocksAreTheBuffer(buffer[pos + 2..]);
      FirstBlockTerminated(buffer, pos);
  }

  /** A block that a blank line behind it closes where it ends. */
  predicate Sealed(block: string) {
    Find(block, "\n\n").None? && (block != "" ==> block[|block| - 1] != '\n')
  }

  /** The other way round: sealed blocks, written one after another, are cut where they were joined. */
  lemma {:induction false} TerminatedIsCut(blocks: seq<string>)
    requires forall i :: 0 <= i < |blocks| ==> Sealed(blocks[i])
    ensures Blocks(Terminated(blocks)) == blocks && Leftover(Terminated(blocks)) == ""
  {
    hide Blocks, Leftover, Sealed;
    if blocks == [] {
      EmptyHasNoBlocks();
    } else {
      var block, rest := blocks[0], Terminated(blocks[1..]);
      SealedEnds(block, rest);
      TerminatedIsCut(blocks[1..]);
      FirstBlockCut(block + "\n\n" + rest, |block|);
      assert (block + "\n\n" + rest)[..|block|] == block && (block + "\n\n" + rest)[|block| + 2..] == rest;
    }
  }

  lemma SealedEnds(block: string, rest: string)
    requires Sealed(block)
    ensures Find(block + "\n\n" + rest, "\n\n") == Some(|block|)
  {
    var s := block + "\n\n" + rest;
    forall j | 0 <= j < |block|
      ensures !OccursAt(s, "\n\n", j)
    {
      if j + 2 <= |block| {
        assert !OccursAt(block, "\n\n", j);
        assert s[j..j + 2] == block[j..j + 2];
      } else {
        assert s[j..j + 2][0] == block[|block| - 1];
      }
    }
    assert s[|block|..|block| + 2] == "\n\n";
    FindIs(s, "\n\n", |block|);
  }

  lemma FirstBlockTerminated(buffer: string, pos: nat)
    requires Find(buffer, "\n\n") == Some(pos)
    requires var rest := buffer[pos + 2..]; Terminated(Blocks(rest)) + Leftover(rest) == rest
    ensures Terminated(Blocks(buffer)) + Leftover(buffer) == buffer
    ensures Leftover(buffer) == Leftover(buffer[pos + 2..])
  {
    hide Blocks, Leftover;
    FirstBlockCut(buffer, pos);
    var rest := buffer[pos + 2..];
    assert buffer == buffer[..pos] + "\n\n" + rest;
    assert Terminated(Blocks(buffer)) == buffer[..pos] + "\n\n" + Terminated(Blocks(rest));
  }

  /** Blocks found early are final: more text only adds blocks cut from the leftover. */
  lemma BlocksAppend(a: string, b: string)
    ensures Blocks(a + b) == Blocks(a) + Blocks(Leftover(a) + b)
    ensures Leftover(a + b) == Leftover(Leftover(a) + b)
    decreases |a|, 1
  {
    match Find(a, "\n\n")
    case None =>
    case Some(pos) =>
      FindStable(a, b, "\n\n");
      DropConcat(a, b, pos);
      DropConcat(a, b, pos + 2);
      BlocksAppendCut(a, b, pos);
  }

  lemma {:induction false} BlocksAppendCut(a: string, b: string, pos: nat)
    requires Find(a, "\n\n") == Some(pos) == Find(a + b, "\n\n")
    requires (a + b)[..pos] == a[..pos] && (a + b)[pos + 2..] == a[pos + 2..] + b
    ensures Blocks(a + b) == Blocks(a) + Blocks(Leftover(a) + b)
    ensures Leftover(a + b) == Leftover(Leftover(a) + b)
    decreases |a|, 0
  {
    hide Blocks, Leftover, Find;
    FirstBlockCut(a, pos);
    FirstBlockCut(a + b, pos);
    BlocksAppend(a[pos + 2..], b);
  }

  function HandleAll<S>(h: Handler<S>, s: S, blocks: seq<string>, rest: string): Parsed<S>
    decreases |blocks|
  {
    if blocks == [] then Parsed(s, [], [], rest)
    else
      var turn := h(s, blocks[0]);
      HandleAll(h, turn.state, blocks[1..], rest).After(turn.events, turn.calls)
  }

  lemma {:induction false} HandleAllAppend<S>(h: Handler<S>, s: S, a: seq<string>, b: seq<string>, mid: string,
        rest: string)
    ensures var first := HandleAll(h, s, a, mid);
            HandleAll(h, s, a + b, rest) == HandleAll(h, first.state, b, rest).After(first.events, first.calls)
    decreases |a|
  {
    if a == [] {
      assert a + b == b;
    } else {
      assert (a + b)[1..] == a[1..] + b;
      HandleAllAppend(h, h(s, a[0]).state, a[1..], b, mid, rest);
    }
  }

  /** No block that stops the parser comes before the last complete block. */
  ghost predicate StopsOnlyLast(stops: string -> bool, blocks: seq<string>) {
    forall k :: 0 <= k < |blocks| - 1 ==> !stops(blocks[k])
  }

  /** Then one call handles every complete block, in order, and keeps exactly the leftover. */
  lemma {:induction false} ParseHandlesAll<S>(h: Handler<S>, stops: string -> bool, s: S, buffer: string)
    requires StopsOnlyLast(stops, Blocks(buffer))
    ensures Parse(h, stops, s, buffer) == HandleAll(h, s, Blocks(buffer), Leftover(buffer))
    decreases |buffer|
  {
    match Find(buffer, "\n\n")
    case None =>
    case Some(pos) =>
      var rest := buffer[pos + 2..];
      var blocks := Blocks(buffer);
      assert blocks[1..] == Blocks(rest);
      if stops(blocks[0]) {
        assert |blocks| == 1;
        assert Find(rest, "\n\n") == None;
      } else {
        forall k | 0 <= k < |blocks[1..]| - 1
          ensures !stops(blocks[1..][k])
        {
          assert blocks[1..][k] == blocks[k + 1];
        }
        ParseHandlesAll(h, stops, h(s, blocks[0]).state, rest);
      }
  }

  lemma {:induction false} ChunksHandleAll<S>(h: Handler<S>, stops: string -> bool, s: S, buffer: string,
        chunks: seq<string>)
    requires Blocks(buffer) == []
    requires StopsOnlyLast(stops, Blocks(buffer + Concat(chunks)))
    ensures var stream := buffer + Concat(chunks);
            FeedAll(h, stops, s, buffer, chunks) == HandleAll(h, s, Blocks(stream), Leftover(stream))
    decreases |chunks|
  {
    hide Parse, Blocks, Leftover, HandleAll;
    if chunks == [] {
      NoBlocks(h, s, buffer);
      assert buffer + Concat(chunks) == buffer;
    } else {
      var head, later := buffer + chunks[0], Concat(chunks[1..]);
      var stream := head + later;
      assert buffer + Concat(chunks) == stream;
      BlocksAppend(head, later);
      var more := Blocks(Leftover(head) + later);
      StopsSplit(stops, Blocks(head), more);
      ParseHandlesAll(h, stops, s, head);
      BlocksAreTheBuffer(head);
      HandleAllRest(h, s, Blocks(head), Leftover(head));
      ChunksHandleAll(h, stops, HandleAll(h, s, Blocks(head), Leftover(head)).state, Leftover(head), chunks[1..]);
      HandleAllAppend(h, s, Blocks(head), more, Leftover(head), Leftover(stream));
    }
  }

  lemma NoBlocks<S>(h: Handler<S>, s: S, buffer: string)
    requires Blocks(buffer) == []
    ensures HandleAll(h, s, Blocks(buffer), Leftover(buffer)) == Parsed(s, [], [], buffer)
  {
  }

  lemma StopsSplit(stops: string -> bool, a: seq<string>, b: seq<string>)
    requires StopsOnlyLast(stops, a + b)
    ensures StopsOnlyLast(stops, a) && StopsOnlyLast(stops, b)
  {
    forall k | 0 <= k < |a| - 1
      ensures !stops(a[k])
    {
      assert (a + b)[k] == a[k];
    }
    forall k | 0 <= k < |b| - 1
      ensures !stops(b[k])
    {
      assert (a + b)[|a| + k] == b[k];
    }
  }

  lemma {:induction false} HandleAllRest<S>(h: Handler<S>, s: S, blocks: seq<string>, rest: string)
    ensures HandleAll(h, s, blocks, rest).rest == rest
    decreases |blocks|
  {
    if blocks != [] {
      HandleAllRest(h, h(s, blocks[0]).state, blocks[1..], rest);
    }
  }

  /** Every chunking of `stream` gives what one call on the whole stream gives. */
  ghost predicate ChunkInvariant<S(!new)>(h: Handler<S>, stops: string -> bool, s: S, stream: string) {
    forall chunks: seq<string> :: Concat(chunks) == stream
      ==> FeedAll(h, stops, s, "", chunks) == Parse(h, stops, s, stream)
  }

  /**
   * Chunk invariance holds of a stream exactly when no stopping block precedes its last complete
   * block: same events, same tool calls, same leftover buffer, same handler state.
   */
  lemma ChunkInvariance<S(!new)>(h: Handler<S>, stops: string -> bool, s: S, stream: string)
    ensures ChunkInvariant(h, stops, s, stream) <==> StopsOnlyLast(stops, Blocks(stream))
  {
    hide Parse, FeedAll, HandleAll, Leftover, Concat;
    if StopsOnlyLast(stops, Blocks(stream)) {
      ParseHandlesAll(h, stops, s, stream);
      forall chunks: seq<string> | Concat(chunks) == stream
        ensures FeedAll(h, stops, s, "", chunks) == Parse(h, stops, s, stream)
      {
        assert "" + Concat(chunks) == stream;
        ChunksHandleAll(h, stops, s, "", chunks);
      }
    } else {
      var a, b := CutAfterStop(h, stops, s, stream);
      ConcatTwo(a, b);
      TwoChunks(h, stops, s, a, b);
    }
  }

  lemma ConcatTwo(a: string, b: string)
    ensures Concat([a, b]) == a + b
  {
    assert [a, b][1..] == [b] && [b][1..] == [];
    assert Concat([b]) == b + "" == b;
    assert Concat([a, b]) == a + Concat([b]);
  }

  lemma TwoChunks<S>(h: Handler<S>, stops: string -> bool, s: S, a: string, b: string)
    ensures FeedAll(h, stops, s, "", [a, b]).rest
            == Parse(h, stops, Parse(h, stops, s, a).state, Parse(h, stops, s, a).rest + b).rest
  {
    assert [a, b][1..] == [b];
    assert "" + a == a;
    var first := Parse(h, stops, s, a);
    assert FeedAll(h, stops, first.state, first.rest, [b]).rest == Parse(h, stops, first.state, first.rest + b).rest;
  }

  lemma {:induction false} ParseConsumes<S>(h: Handler<S>, stops: string -> bool, s: S, buffer: string)
    ensures |Parse(h, stops, s, buffer).rest| <= |buffer|
    ensures Blocks(buffer) != [] ==> |Parse(h, stops, s, buffer).rest| < |buffer|
    decreases |buffer|
  {
    match Find(buffer, "\n\n")
    case None =>
    case Some(pos) => ParseConsumes(h, stops, h(s, buffer[..pos]).state, buffer[pos + 2..]);
  }

  /** Cutting right behind the stopping block lets the next call consume what one call left over. */
  lemma {:induction false} CutAfterStop<S>(h: Handler<S>, stops: string -> bool, s: S, stream: string)
    returns (a: string, b: string)
    requires !StopsOnlyLast(stops, Blocks(stream))
    ensures a + b == stream
    ensures Parse(h, stops, s, stream).rest == b
    ensures var first := Parse(h, stops, s, a);
            first.rest == "" && |Parse(h, stops, first.state, first.rest + b).rest| < |b|
    decreases |stream|
  {
    hide Parse, Blocks, Leftover, Find;
    var blocks := Blocks(stream);
    var k :| 0 <= k < |blocks| - 1 && stops(blocks[k]);
    var pos := HasBlock(stream);
    var head, rest := stream[..pos + 2], stream[pos + 2..];
    var turn := h(s, blocks[0]);
    assert stream == head + rest;
    FirstBlockCut(stream, pos);
    ParseFirst(h, stops, s, stream, pos);
    if stops(blocks[0]) {
      a, b := head, rest;
      FirstBlock(head, "", pos, stream);
      assert head + "" == head && "" + b == b;
      ParseFirst(h, stops, s, a, pos);
      ParseConsumes(h, stops, turn.state, b);
    } else {
      assert Blocks(rest)[k - 1] == blocks[k];
      var a', b' := CutAfterStop(h, stops, turn.state, rest);
      a, b := head + a', b';
      assert a + b == head + (a' + b') == stream;
      FirstBlock(head, a', pos, stream);
      DropConcat(head, a', pos + 2);
      assert head[pos + 2..] + a' == a';
      ParseFirst(h, stops, s, a, pos);
    }
  }

  lemma HasBlock(buffer: string) returns (pos: nat)
    requires Blocks(buffer) != []
    ensures Find(buffer, "\n\n") == Some(pos)
    ensures pos + 2 <= |buffer|
  {
    pos := Find(buffer, "\n\n").value;
  }

  lemma ParseFirst<S>(h: Handler<S>, stops: string -> bool, s: S, buffer: string, pos: nat)
    requires Find(buffer, "\n\n") == Some(pos)
    ensures var turn := h(s, buffer[..pos]);
            var rest := buffer[pos + 2..];
            Parse(h, stops, s, buffer) ==
            if stops(buffer[..pos]) then Parsed(turn.state, turn.events, turn.calls, rest)
            else Parse(h, stops, turn.state, rest).After(turn.events, turn.calls)
  {
  }

  lemma FirstBlock(head: string, more: string, pos: nat, stream: string)
    requires Find(stream, "\n\n") == Some(pos) && head == stream[..pos + 2]
    ensures Find(head + more, "\n\n") == Some(pos)
    ensures (head + more)[..pos] == stream[..pos]
  {
    assert stream == head + stream[pos + 2..];
    assert head[pos..pos + 2] == stream[pos..pos + 2];
    forall j | 0 <= j < pos
      ensures !OccursAt(head, "\n\n", j)
    {
      OccursInPrefix(head, stream[pos + 2..], "\n\n", j);
    }
    FindIs(head, "\n\n", pos);
    FindStable(head, more, "\n\n");
  }

  // ----- which blocks a read takes -----

  /** What is left of a buffer behind its first n complete blocks. */
  function DropBlocks(buffer: string, n: nat): string
    requires n <= |Blocks(buffer)|
    decreases n
  {
    if n == 0 then buffer else DropBlocks(buffer[Find(buffer, "\n\n").value + 2..], n - 1)
  }

  lemma DropFirst(buffer: string, n: nat, pos: nat)
    requires Find(buffer, "\n\n") == Some(pos) && n < |Blocks(buffer)|
    ensures n <= |Blocks(buffer[pos + 2..])|
    ensures DropBlocks(buffer, n + 1) == DropBlocks(buffer[pos + 2..], n)
    ensures Blocks(buffer)[..n + 1] == [buffer[..pos]] + Blocks(buffer[pos + 2..])[..n]
  {
    FirstBlockCut(buffer, pos);
  }

  lemma DropNone(buffer: string)
    ensures DropBlocks(buffer, 0) == buffer
    ensures Find(buffer, "\n\n") == None ==> Blocks(buffer) == [] && Leftover(buffer) == buffer
  {
  }

  lemma {:induction false} DroppedBlocks(buffer: string, n: nat)
    requires n <= |Blocks(buffer)|
    ensures Blocks(DropBlocks(buffer, n)) == Blocks(buffer)[n..]
    ensures n == |Blocks(buffer)| ==> DropBlocks(buffer, n) == Leftover(buffer)
    decreases n
  {
    hide Blocks, Leftover, DropBlocks, Find;
    DropNone(buffer);
    if n > 0 {
      var pos := HasBlock(buffer);
      DropFirst(buffer, n - 1, pos);
      FirstBlockCut(buffer, pos);
      DroppedBlocks(buffer[pos + 2..], n - 1);
    } else if Blocks(buffer) == [] {
      BlocksAreTheBuffer(buffer);
      assert Terminated([]) + Leftover(buffer) == Leftover(buffer);
    }
  }

  /** More text leaves the first blocks alone and goes behind what is left. */
  lemma {:induction false} DropAppend(a: string, b: string, n: nat)
    requires n <= |Blocks(a)|
    ensures n <= |Blocks(a + b)| && Blocks(a + b)[..n] == Blocks(a)[..n]
    ensures DropBlocks(a + b, n) == DropBlocks(a, n) + b
    decreases n
  {
    hide Blocks, Leftover, DropBlocks, Find;
    DropNone(a);
    DropNone(a + b);
    BlocksAppend(a, b);
    if n > 0 {
      var pos := HasBlock(a);
      FindStable(a, b, "\n\n");
      DropConcat(a, b, pos);
      DropConcat(a, b, pos + 2);
      DropFirst(a, n - 1, pos);
      DropFirst(a + b, n - 1, pos);
      DropAppend(a[pos + 2..], b, n - 1);
    }
  }

  lemma {:induction false} DropTwice(buffer: string, n: nat, m: nat)
    requires n <= |Blocks(buffer)| && m <= |Blocks(buffer)| - n
    ensures m <= |Blocks(DropBlocks(buffer, n))|
    ensures DropBlocks(buffer, n + m) == DropBlocks(DropBlocks(buffer, n), m)
    ensures Blocks(buffer)[..n + m] == Blocks(buffer)[..n] + Blocks(DropBlocks(buffer, n))[..m]
    decreases n
  {
    hide Blocks, DropBlocks, Find;
    DropNone(buffer);
    DroppedBlocks(buffer, n);
    if n > 0 {
      var pos := HasBlock(buffer);
      FirstBlockCut(buffer, pos);
      DropFirst(buffer, n - 1, pos);
      DropFirst(buffer, n + m - 1, pos);
      DropTwice(buffer[pos + 2..], n - 1, m);
    }
  }

  /** How many of these blocks one call handles: up to and including the first that stops it. */
  function UpToStop(stops: string -> bool, blocks: seq<string>): (n: nat)
    ensures n <= |blocks|
  {
    if blocks == [] then 0
    else if stops(blocks[0]) then 1
    else 1 + UpToStop(stops, blocks[1..])
  }

  lemma {:induction false} UpToStopIsAll(stops: string -> bool, blocks: seq<string>)
    ensures UpToStop(stops, blocks) == |blocks| <==> StopsOnlyLast(stops, blocks)
    decreases |blocks|
  {
    if blocks != [] {
      var rest := blocks[1..];
      UpToStopIsAll(stops, rest);
      assert forall k :: 0 <= k < |rest| ==> rest[k] == blocks[k + 1];
      if !stops(blocks[0]) && StopsOnlyLast(stops, rest) {
        forall k | 0 <= k < |blocks| - 1
          ensures !stops(blocks[k])
        {
          assert k > 0 ==> blocks[k] == rest[k - 1];
        }
      }
      if StopsOnlyLast(stops, blocks) {
        forall k | 0 <= k < |rest| - 1
          ensures !stops(rest[k])
        {
          assert rest[k] == blocks[k + 1];
        }
      }
    }
  }

  /** A call handles the complete blocks up to its first stop and leaves exactly what is behind them. */
  lemma {:induction false} ParseTakes<S>(h: Handler<S>, stops: string -> bool, s: S, buffer: string)
    ensures var n := UpToStop(stops, Blocks(buffer));
            Parse(h, stops, s, buffer) == HandleAll(h, s, Blocks(buffer)[..n], DropBlocks(buffer, n))
    decreases |buffer|
  {
    hide Parse, Blocks, DropBlocks, HandleAll;
    DropNone(buffer);
    match Find(buffer, "\n\n")
    case None =>
      ParseNothing(h, stops, s, buffer);
      HandleNothing(h, s, buffer);
      assert Blocks(buffer)[..0] == [];
    case Some(pos) =>
      var rest := buffer[pos + 2..];
      var turn := h(s, buffer[..pos]);
      var m := if stops(buffer[..pos]) then 0 else UpToStop(stops, Blocks(rest));
      FirstBlockCut(buffer, pos);
      ParseFirst(h, stops, s, buffer, pos);
      DropFirst(buffer, m, pos);
      HandleFirst(h, s, buffer[..pos], Blocks(rest)[..m], DropBlocks(rest, m));
      if stops(buffer[..pos]) {
        DropNone(rest);
        HandleNothing(h, turn.state, rest);
        assert Blocks(rest)[..0] == [];
      } else {
        ParseTakes(h, stops, turn.state, rest);
      }
  }

  lemma HandleFirst<S>(h: Handler<S>, s: S, block: string, later: seq<string>, rest: string)
    ensures var turn := h(s, block);
            HandleAll(h, s, [block] + later, rest) == HandleAll(h, turn.state, later, rest).After(turn.events, turn.calls)
  {
    assert ([block] + later)[1..] == later;
  }

  lemma ParseNothing<S>(h: Handler<S>, stops: string -> bool, s: S, buffer: string)
    requires Find(buffer, "\n\n") == None
    ensures Parse(h, stops, s, buffer) == Parsed(s, [], [], buffer)
  {
  }

  lemma {:induction false} ConcatLast(chunks: seq<string>, chunk: string)
    ensures Concat(chunks + [chunk]) == Concat(chunks) + chunk
    decreases |chunks|
  {
    if chunks == [] {
      assert (chunks + [chunk])[1..] == [];
    } else {
      assert (chunks + [chunk])[1..] == chunks[1..] + [chunk];
      ConcatLast(chunks[1..], chunk);
    }
  }

  /**
   * How many blocks of the stream a read of these chunks handles: with each chunk one call goes on
   * where the one before left off, up to its first stop among the blocks that are complete by then.
   */
  function Taken(stops: string -> bool, chunks: seq<string>): (n: nat)
    ensures n <= |Blocks(Concat(chunks))|
    decreases |chunks|
  {
    if chunks == [] then 0
    else
      var before, chunk := chunks[..|chunks| - 1], chunks[|chunks| - 1];
      var m := Taken(stops, before);
      assert chunks == before + [chunk];
      ConcatLast(before, chunk);
      BlocksAppend(Concat(before), chunk);
      m + UpToStop(stops, Blocks(Concat(chunks))[m..])
  }

  /** Everything is read exactly when the last call meets no early stop in what was left to it. */
  lemma AllTakenExactlyWhen(stops: string -> bool, before: seq<string>, chunk: string)
    ensures var chunks := before + [chunk];
            var blocks := Blocks(Concat(chunks));
            && Taken(stops, before) <= |blocks|
            && (Taken(stops, chunks) == |blocks| <==> StopsOnlyLast(stops, blocks[Taken(stops, before)..]))
  {
    hide Blocks;
    var chunks := before + [chunk];
    assert chunks[..|chunks| - 1] == before;
    ConcatLast(before, chunk);
    BlocksAppend(Concat(before), chunk);
    UpToStopIsAll(stops, Blocks(Concat(chunks))[Taken(stops, before)..]);
  }

  lemma {:induction false} FeedAllLast<S>(h: Handler<S>, stops: string -> bool, s: S, buffer: string, chunks: seq<string>, chunk: string)
    ensures var first := FeedAll(h, stops, s, buffer, chunks);
            FeedAll(h, stops, s, buffer, chunks + [chunk])
            == Parse(h, stops, first.state, first.rest + chunk).After(first.events, first.calls)
    decreases |chunks|
  {
    hide Parse;
    if chunks == [] {
      assert (chunks + [chunk])[1..] == [];
    } else {
      assert (chunks + [chunk])[1..] == chunks[1..] + [chunk];
      var head := Parse(h, stops, s, buffer + chunks[0]);
      FeedAllLast(h, stops, head.state, head.rest, chunks[1..], chunk);
      var tail := FeedAll(h, stops, head.state, head.rest, chunks[1..]);
      AfterTwice(Parse(h, stops, tail.state, tail.rest + chunk), head.events, head.calls, tail.events, tail.calls);
    }
  }

  /**
   * Whatever the chunks and wherever a call stops early, a stream read handles exactly the first
   * `Taken` blocks of the whole stream, each once and in order, and leaves exactly what is behind.
   */
  lemma {:induction false} FeedTakes<S>(h: Handler<S>, stops: string -> bool, s: S, chunks: seq<string>)
    ensures var stream, n := Concat(chunks), Taken(stops, chunks);
            FeedAll(h, stops, s, "", chunks) == HandleAll(h, s, Blocks(stream)[..n], DropBlocks(stream, n))
    decreases |chunks|
  {
    hide Blocks, DropBlocks, HandleAll, Parse;
    if chunks == [] {
      DropNone("");
      HandleNothing(h, s, "");
      EmptyHasNoBlocks();
    } else {
      var before, chunk := chunks[..|chunks| - 1], chunks[|chunks| - 1];
      var a, m := Concat(before), Taken(stops, before);
      assert chunks == before + [chunk];
      ConcatLast(before, chunk);
      FeedAllLast(h, stops, s, "", before, chunk);
      FeedTakes(h, stops, s, before);
      HandleAllRest(h, s, Blocks(a)[..m], DropBlocks(a, m));
      DropAppend(a, chunk, m);
      DroppedBlocks(a + chunk, m);
      TakeMore(h, stops, s, a + chunk, m, DropBlocks(a, m));
    }
  }

  /** One more call behind m handled blocks. */
  lemma TakeMore<S>(h: Handler<S>, stops: string -> bool, s: S, stream: string, m: nat, mid: string)
    requires m <= |Blocks(stream)|
    ensures var first, k := HandleAll(h, s, Blocks(stream)[..m], mid), UpToStop(stops, Blocks(stream)[m..]);
            Parse(h, stops, first.state, DropBlocks(stream, m)).After(first.events, first.calls)
            == HandleAll(h, s, Blocks(stream)[..m + k], DropBlocks(stream, m + k))
  {
    hide Blocks, DropBlocks, HandleAll, Parse, UpToStop;
    var first, k := HandleAll(h, s, Blocks(stream)[..m], mid), UpToStop(stops, Blocks(stream)[m..]);
    DroppedBlocks(stream, m);
    DropTwice(stream, m, k);
    ParseTakes(h, stops, first.state, DropBlocks(stream, m));
    HandleAllAppend(h, s, Blocks(stream)[..m], Blocks(DropBlocks(stream, m))[..k], mid, DropBlocks(stream, m + k));
  }

  /** Without an early stop the whole stream is read, whatever the chunks. */
  lemma {:induction false} AllTaken(stops: string -> bool, chunks: seq<string>)
    requires StopsOnlyLast(stops, Blocks(Concat(chunks)))
    ensures Taken(stops, chunks) == |Blocks(Concat(chunks))|
  {
    hide Blocks;
    if chunks == [] {
      EmptyHasNoBlocks();
    } else {
      var before, chunk := chunks[..|chunks| - 1], chunks[|chunks| - 1];
      assert chunks == before + [chunk];
      AllTakenExactlyWhen(stops, before, chunk);
      var blocks, m := Blocks(Concat(chunks)), Taken(stops, before);
      assert blocks == blocks[..m] + blocks[m..];
      StopsSplit(stops, blocks[..m], blocks[m..]);
    }
  }

  // ----- text behind the last blank line -----

  /** The block a closing blank line would complete: the leftover, without an LF that ends it. */
  function Unclosed(stream: string): string {
    var left := Leftover(stream);
    if left != "" && left[|left| - 1] == '\n' then left[..|left| - 1] else left
  }

  lemma {:induction false} LeftoverCloses(left: string)
    requires Blocks(left) == [] && Leftover(left) == left
    ensures Blocks(left + "\n\n") == [Unclosed(left)]
  {
    hide Find;
    NoneComplete(left);
    var block := Unclosed(left);
    var closed, pos := left + "\n\n", |block|;
    forall j | 0 <= j < pos
      ensures !OccursAt(closed, "\n\n", j)
    {
      if j + 2 <= |left| {
        assert closed[j..j + 2] == left[j..j + 2];
        assert !OccursAt(left, "\n\n", j);
      } else {
        assert closed[j..j + 2][0] == left[j] != '\n';
      }
    }
    assert closed[pos..pos + 2] == "\n\n";
    FindIs(closed, "\n\n", pos);
    FirstBlockCut(closed, pos);
    assert closed[..pos] == block;
    var rest := closed[pos + 2..];
    assert |rest| < 2;
    ShortHasNoBlocks(rest);
  }

  lemma NoneComplete(left: string)
    requires Blocks(left) == []
    ensures Absent(left, "\n\n")
  {
    assert Find(left, "\n\n") == None;
  }

  lemma ShortHasNoBlocks(s: string)
    requires |s| < 2
    ensures Blocks(s) == []
  {
  }

  /** Closing a stream with a blank line completes exactly one more block. */
  lemma ClosingCompletes(stream: string)
    ensures Blocks(stream + "\n\n") == Blocks(stream) + [Unclosed(stream)]
  {
    hide Blocks, Leftover;
    BlocksAppend(stream, "\n\n");
    BlocksAreTheBuffer(stream);
    LeftoverIsFixed(stream);
    LeftoverCloses(Leftover(stream));
  }

  lemma LeftoverIsFixed(stream: string)
    ensures Leftover(Leftover(stream)) == Leftover(stream)
  {
    hide Blocks, Leftover;
    BlocksAreTheBuffer(stream);
    BlocksAreTheBuffer(Leftover(stream));
    assert Terminated([]) + Leftover(Leftover(stream)) == Leftover(Leftover(stream));
  }

  /**
   * What a body that ends without a blank line loses. A closing blank line makes one more call, which
   * handles, up to its first stop, the blocks left unread and the unclosed last one.
   */
  lemma ClosingHandles<S>(h: Handler<S>, stops: string -> bool, s: S, chunks: seq<string>)
    ensures var stream, n := Concat(chunks), Taken(stops, chunks);
            var left := Blocks(stream)[n..] + [Unclosed(stream)];
            var fed, closed := FeedAll(h, stops, s, "", chunks), FeedAll(h, stops, s, "", chunks + ["\n\n"]);
            var more := HandleAll(h, fed.state, left[..UpToStop(stops, left)], closed.rest);
            closed == more.After(fed.events, fed.calls)
  {
    hide Blocks, Leftover, DropBlocks, HandleAll, Parse, FeedAll, UpToStop;
    var stream, n := Concat(chunks), Taken(stops, chunks);
    var fed := FeedAll(h, stops, s, "", chunks);
    FeedAllLast(h, stops, s, "", chunks, "\n\n");
    FeedTakes(h, stops, s, chunks);
    HandleAllRest(h, s, Blocks(stream)[..n], DropBlocks(stream, n));
    DropAppend(stream, "\n\n", n);
    ClosingCompletes(stream);
    DroppedBlocks(stream + "\n\n", n);
    var left := Blocks(stream)[n..] + [Unclosed(stream)];
    assert Blocks(fed.rest + "\n\n") == left;
    ParseTakes(h, stops, fed.state, fed.rest + "\n\n");
    HandleAllRest(h, fed.state, left[..UpToStop(stops, left)], DropBlocks(fed.rest + "\n\n", UpToStop(stops, left)));
  }

  /** After a read of all complete blocks, closing matters exactly when the unclosed block does. */
  lemma ClosingMattersExactlyWhen<S>(h: Handler<S>, stops: string -> bool, s: S, chunks: seq<string>)
    requires Taken(stops, chunks) == |Blocks(Concat(chunks))|
    ensures var fed, closed := FeedAll(h, stops, s, "", chunks), FeedAll(h, stops, s, "", chunks + ["\n\n"]);
            var turn := h(fed.state, Unclosed(Concat(chunks)));
            && closed.state == turn.state && closed.events == fed.events + turn.events && closed.calls == fed.calls + turn.calls
            && (closed.state == fed.state && closed.events == fed.events && closed.calls == fed.calls
                <==> turn == Turn(fed.state, [], []))
  {
    hide Blocks, Leftover, HandleAll, FeedAll;
    var block := Unclosed(Concat(chunks));
    var fed, closed := FeedAll(h, stops, s, "", chunks), FeedAll(h, stops, s, "", chunks + ["\n\n"]);
    ClosingHandles(h, stops, s, chunks);
    assert Blocks(Concat(chunks))[|Blocks(Concat(chunks))|..] + [block] == [block];
    assert [block][1..] == [] && [block][..1] == [block] && [block] + [] == [block];
    HandleFirst(h, fed.state, block, [], closed.rest);
    HandleNothing(h, h(fed.state, block).state, closed.rest);
  }

  lemma EmptyHasNoBlocks()
    ensures Blocks("") == [] && Leftover("") == ""
  {
  }

  lemma HandleNothing<S>(h: Handler<S>, s: S, rest: string)
    ensures HandleAll(h, s, [], rest) == Parsed(s, [], [], rest)
  {
  }

  /** What every block handler keeps, every parse keeps. */
  lemma {:induction false} ParseKeeps<S(!new)>(h: Handler<S>, stops: string -> bool, s: S, buffer: string,
                                         inv: S -> bool, goodCall: ParsedToolCall -> bool)
    requires inv(s)
    requires forall st: S, block: string :: inv(st) ==> inv(h(st, block).state)
    requires forall st: S, block: string :: inv(st) ==> AllDeltas(h(st, block).events)
    requires forall st: S, block: string :: inv(st) ==> forall c :: c in h(st, block).calls ==> goodCall(c)
    ensures inv(Parse(h, stops, s, buffer).state)
    ensures AllDeltas(Parse(h, stops, s, buffer).events)
    ensures forall c :: c in Parse(h, stops, s, buffer).calls ==> goodCall(c)
    decreases |buffer|
  {
    match Find(buffer, "\n\n")
    case None =>
    case Some(pos) =>
      ParseFirst(h, stops, s, buffer, pos);
      ParseKeeps(h, stops, h(s, buffer[..pos]).state, buffer[pos + 2..], inv, goodCall);
  }

  /** And so does every stream read. */
  lemma {:induction false} FeedAllKeeps<S(!new)>(h: Handler<S>, stops: string -> bool, s: S, buffer: string,
        chunks: seq<string>,
                                           inv: S -> bool, goodCall: ParsedToolCall -> bool)
    requires inv(s)
    requires forall st: S, block: string :: inv(st) ==> inv(h(st, block).state)
    requires forall st: S, block: string :: inv(st) ==> AllDeltas(h(st, block).events)
    requires forall st: S, block: string :: inv(st) ==> forall c :: c in h(st, block).calls ==> goodCall(c)
    ensures AllDeltas(FeedAll(h, stops, s, buffer, chunks).events)
    ensures forall c :: c in FeedAll(h, stops, s, buffer, chunks).calls ==> goodCall(c)
    decreases |chunks|
  {
    if chunks != [] {
      ParseKeeps(h, stops, s, buffer + chunks[0], inv, goodCall);
      var first := Parse(h, stops, s, buffer + chunks[0]);
      FeedAllKeeps(h, stops, first.state, first.rest, chunks[1..], inv, goodCall);
    }
  }

  lemma FeedFirst<S>(h: Handler<S>, stops: string -> bool, s: S, buffer: string, chunk: string,
        later: seq<string>)
    ensures var first := Parse(h, stops, s, buffer + chunk);
            FeedAll(h, stops, s, buffer, [chunk] + later)
            == FeedAll(h, stops, first.state, first.rest, later).After(first.events, first.calls)
  {
    assert ([chunk] + later)[1..] == later;
  }

}
