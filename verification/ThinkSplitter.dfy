/**
 * Separating `<think>…</think>` from visible text, when a marker may straddle chunks.
 *
 * `Split` is what one call of the splitter computes on the held-back tail plus the new chunk.
 * `Reading` says, without searching, what the whole input means: segments joined by the exact
 * markers, then a held-back tail. The two agree on every input, and so does every chunking.
 */
module ThinkSplitter {
  import opened Text
  import opened StreamEvents

  function Marker(thinking: bool): (m: string)
    ensures |m| == if thinking then 8 else 7
    ensures m[0] == '<' && forall i :: 0 < i < |m| ==> m[i] != '<'
  {
    if thinking then "</think>" else "<think>"
  }

  /** The last `n` characters of `buf` could be the start of a marker. */
  predicate Border(buf: string, marker: string, n: nat) {
    n < |marker| && n <= |buf| && buf[|buf| - n..] == marker[..n]
  }

  /** The longest tail that could still grow into a marker. */
  function Hold(buf: string, marker: string): (h: nat)
    requires |marker| > 0
    ensures Border(buf, marker, h)
    ensures forall n: nat :: n > h ==> !Border(buf, marker, n)
  {
    HoldFrom(buf, marker, |marker| - 1)
  }

  function HoldFrom(buf: string, marker: string, n: nat): (h: nat)
    requires n < |marker|
    requires forall k: nat :: k > n ==> !Border(buf, marker, k)
    ensures Border(buf, marker, h)
    ensures forall k: nat :: k > h ==> !Border(buf, marker, k)
  {
    if n == 0 || Border(buf, marker, n) then n else HoldFrom(buf, marker, n - 1)
  }

  lemma HoldIs(buf: string, marker: string, h: nat)
    requires |marker| > 0
    requires Border(buf, marker, h) && forall n: nat :: n > h ==> !Border(buf, marker, n)
    ensures Hold(buf, marker) == h
  {
    var k := Hold(buf, marker);
    assert Border(buf, marker, k) && !(k > h) && !(h > k);
  }

  datatype State = State(thinking: bool, pending: string)

  datatype Fed = Fed(events: seq<StreamEvent>, state: State)

  function Split(thinking: bool, buf: string): (r: Fed)
    ensures AllDeltas(r.events)
    decreases |buf|
  {
    var m := Marker(thinking);
    match Find(buf, m)
    case Some(i) =>
      var rest := Split(!thinking, buf[i + |m|..]);
      Fed(Emit(thinking, buf[..i]) + rest.events, rest.state)
    case None =>
      var cut := |buf| - Hold(buf, m);
      Fed(Emit(thinking, buf[..cut]), State(thinking, buf[cut..]))
  }

  lemma SplitAtMarker(thinking: bool, buf: string, i: nat)
    requires Find(buf, Marker(thinking)) == Some(i)
    ensures var rest := Split(!thinking, buf[i + |Marker(thinking)|..]);
            Split(thinking, buf) == Fed(Emit(thinking, buf[..i]) + rest.events, rest.state)
  {
  }

  lemma SplitWithoutMarker(thinking: bool, buf: string)
    requires Absent(buf, Marker(thinking))
    ensures var cut := |buf| - Hold(buf, Marker(thinking));
            Split(thinking, buf) == Fed(Emit(thinking, buf[..cut]), State(thinking, buf[cut..]))
  {
  }

  function Feed(st: State, chunk: string): Fed {
    Split(st.thinking, st.pending + chunk)
  }

  function FeedAll(st: State, chunks: seq<string>): Fed
    decreases |chunks|
  {
    if chunks == [] then Fed([], st)
    else
      var first := Feed(st, chunks[0]);
      var rest := FeedAll(first.state, chunks[1..]);
      Fed(first.events + rest.events, rest.state)
  }

  /** The flush on `finish_reason`: the held-back tail goes out under the current mode. */
  function Flush(st: State): seq<StreamEvent> {
    Emit(st.thinking, st.pending)
  }

  /** Between calls the held-back tail is a proper prefix of the marker that is being awaited. */
  predicate Resting(st: State) {
    |st.pending| < |Marker(st.thinking)| && st.pending == Marker(st.thinking)[..|st.pending|]
  }

  // ----- what the deltas say, character by character -----

  function Tag(thinking: bool, text: string): (cs: seq<(bool, char)>)
    ensures |cs| == |text|
    ensures forall i :: 0 <= i < |cs| ==> cs[i] == (thinking, text[i])
  {
    seq(|text|, i requires 0 <= i < |text| => (thinking, text[i]))
  }

  lemma TagConcat(thinking: bool, a: string, b: string)
    ensures Tag(thinking, a + b) == Tag(thinking, a) + Tag(thinking, b)
  {
  }

  function Chars(events: seq<StreamEvent>): seq<(bool, char)>
    requires AllDeltas(events)
  {
    if events == [] then []
    else Tag(events[0].ThinkingDelta?, events[0].text) + Chars(events[1..])
  }

  lemma {:induction false} CharsConcat(a: seq<StreamEvent>, b: seq<StreamEvent>)
    requires AllDeltas(a) && AllDeltas(b)
    ensures Chars(a + b) == Chars(a) + Chars(b)
  {
    if a == [] {
      assert a + b == b;
    } else {
      assert (a + b)[1..] == a[1..] + b;
      CharsConcat(a[1..], b);
    }
  }

  lemma CharsEmit(thinking: bool, text: string)
    ensures Chars(Emit(thinking, text)) == Tag(thinking, text)
  {
  }

  /** A delta put in front of others, merged with the next one if that has the same mode. */
  function Prepend(thinking: bool, text: string, rest: seq<StreamEvent>): (r: seq<StreamEvent>)
    requires AllDeltas(rest) && text != ""
    ensures AllDeltas(r)
  {
    if rest != [] && rest[0].ThinkingDelta? == thinking
    then [Delta(thinking, text + rest[0].text)] + rest[1..]
    else [Delta(thinking, text)] + rest
  }

  /** Merge adjacent deltas of one kind, which is all a reader of the stream can observe. */
  function Coalesce(events: seq<StreamEvent>): (r: seq<StreamEvent>)
    requires AllDeltas(events)
    ensures AllDeltas(r)
  {
    if events == [] then []
    else Prepend(events[0].ThinkingDelta?, events[0].text, Coalesce(events[1..]))
  }

  /** Rebuild the fewest deltas that carry the given characters. */
  function Group(cs: seq<(bool, char)>): (r: seq<StreamEvent>)
    ensures AllDeltas(r)
  {
    if cs == [] then [] else Prepend(cs[0].0, [cs[0].1], Group(cs[1..]))
  }

  lemma TagFirst(thinking: bool, text: string, cs: seq<(bool, char)>)
    requires text != ""
    ensures Tag(thinking, text) + cs == [(thinking, text[0])] + (Tag(thinking, text[1..]) + cs)
    ensures Tag(thinking, "") + cs == cs
  {
  }

  lemma GroupFirst(thinking: bool, c: char, cs: seq<(bool, char)>)
    ensures Group([(thinking, c)] + cs) == Prepend(thinking, [c], Group(cs))
  {
    assert ([(thinking, c)] + cs)[1..] == cs;
  }

  lemma {:induction false} GroupTag(thinking: bool, text: string, cs: seq<(bool, char)>)
    requires text != ""
    ensures Group(Tag(thinking, text) + cs) == Prepend(thinking, text, Group(cs))
    decreases |text|
  {
    hide Group, Tag;
    var more := text[1..];
    TagFirst(thinking, text, cs);
    GroupFirst(thinking, text[0], Tag(thinking, more) + cs);
    assert text == [text[0]] + more;
    if more == "" {
      assert text == [text[0]];
      assert Tag(thinking, "") + cs == cs;
    } else {
      GroupTag(thinking, more, cs);
      var rest := Group(cs);
      if rest != [] {
        assert [text[0]] + (more + rest[0].text) == text + rest[0].text;
      }
    }
  }

  lemma GroupNothing()
    ensures Group([]) == []
  {
  }

  /** Merged deltas depend on the tagged characters alone, not on how they were cut up. */
  lemma {:induction false} CoalesceIsGroup(events: seq<StreamEvent>)
    requires AllDeltas(events)
    ensures Coalesce(events) == Group(Chars(events))
  {
    hide Group, Tag;
    if events == [] {
      GroupNothing();
    } else {
      CoalesceIsGroup(events[1..]);
      GroupTag(events[0].ThinkingDelta?, events[0].text, Chars(events[1..]));
    }
  }

  // ----- chunk invariance -----

  /** With no marker in `a`, none can start before its held-back tail, whatever comes after. */
  lemma NothingStartsBeforeTail(a: string, b: string, marker: string, j: nat)
    requires |marker| > 0 && Absent(a, marker)
    requires j < |a| - Hold(a, marker)
    ensures !OccursAt(a + b, marker, j)
    ensures |a| - j < |marker| ==> a[j..] != marker[..|a| - j]
  {
    if j + |marker| <= |a| {
      OccursInPrefix(a, b, marker, j);
    } else {
      var n := |a| - j;
      assert !Border(a, marker, n);
      assert a[|a| - n..] == a[j..];
      if j + |marker| <= |a + b| {
        assert (a + b)[j..j + |marker|][..n] == a[j..];
      }
    }
  }

  /** Dropping the settled head of `a` changes neither the next match nor the next tail. */
  lemma SettledHead(a: string, b: string, marker: string)
    requires |marker| > 0 && Absent(a, marker)
    ensures var cut := |a| - Hold(a, marker);
            match Find(a[cut..] + b, marker)
            case Some(i) => Find(a + b, marker) == Some(cut + i)
            case None => Find(a + b, marker) == None
                         && Hold(a + b, marker) == Hold(a[cut..] + b, marker)
  {
    hide Hold, Find;
    var cut := |a| - Hold(a, marker);
    var head, tail := a[..cut], a[cut..];
    assert a + b == head + (tail + b);
    forall j: nat | j < cut
      ensures !OccursAt(a + b, marker, j)
    {
      NothingStartsBeforeTail(a, b, marker, j);
    }
    match Find(tail + b, marker)
    case Some(i) =>
      OccursInSuffix(head, tail + b, marker, i);
      forall j | 0 <= j < cut + i
        ensures !OccursAt(a + b, marker, j)
      {
        if j >= cut {
          OccursInSuffix(head, tail + b, marker, j - cut);
        }
      }
      FindIs(a + b, marker, cut + i);
    case None =>
      forall j: nat
        ensures !OccursAt(a + b, marker, j)
      {
        if j >= cut {
          OccursInSuffix(head, tail + b, marker, j - cut);
        }
      }
      SettledHold(a, b, marker);
  }

  lemma SettledHold(a: string, b: string, marker: string)
    requires |marker| > 0 && Absent(a, marker)
    ensures Hold(a + b, marker) == Hold(a[|a| - Hold(a, marker)..] + b, marker)
  {
    var cut := |a| - Hold(a, marker);
    var tail := a[cut..];
    forall n: nat
      ensures Border(a + b, marker, n) <==> Border(tail + b, marker, n)
    {
      if n <= |tail + b| {
        assert (a + b)[|a + b| - n..] == (tail + b)[|tail + b| - n..];
      } else if n <= |a + b| && n < |marker| {
        var j := |a + b| - n;
        NothingStartsBeforeTail(a, b, marker, j);
        assert (a + b)[j..][..|a| - j] == a[j..];
        assert marker[..n][..|a| - j] == marker[..|a| - j];
      }
    }
  }

  /** Splitting `a + b` at once is splitting `a`, then resuming with `b` on the held-back tail. */
  lemma {:induction false} SplitResumes(thinking: bool, a: string, b: string)
    ensures var first := Split(thinking, a);
            var second := Feed(first.state, b);
            Split(thinking, a + b).state == second.state
            && Chars(Split(thinking, a + b).events) == Chars(first.events) + Chars(second.events)
    decreases |a|
  {
    hide Split, Hold, Find, Marker, Emit, Chars;
    var m := Marker(thinking);
    match Find(a, m)
    case Some(i) =>
      var rest := a[i + |m|..];
      FindStable(a, b, m);
      SplitAtMarker(thinking, a, i);
      SplitAtMarker(thinking, a + b, i);
      DropConcat(a, b, i);
      DropConcat(a, b, i + |m|);
      SplitResumes(!thinking, rest, b);
      EmitFirst(thinking, a[..i], Split(!thinking, rest).events);
      EmitFirst(thinking, a[..i], Split(!thinking, rest + b).events);
    case None =>
      SplitWithoutMarker(thinking, a);
      SplitResumesInSegment(thinking, a, b);
  }

  lemma SplitResumesInSegment(thinking: bool, a: string, b: string)
    requires Absent(a, Marker(thinking))
    ensures var cut := |a| - Hold(a, Marker(thinking));
            var second := Split(thinking, a[cut..] + b);
            && Split(thinking, a + b).state == second.state
            && Chars(Split(thinking, a + b).events) == Chars(Emit(thinking, a[..cut])) + Chars(second.events)
  {
    hide Split, Hold, Find, Marker, Emit, Chars;
    var m := Marker(thinking);
    var cut := |a| - Hold(a, m);
    var head, rest := a[..cut], a[cut..] + b;
    assert a + b == head + rest;
    SettledHead(a, b, m);
    match Find(rest, m)
    case Some(i) =>
      SplitAtMarker(thinking, rest, i);
      SplitAtMarker(thinking, a + b, cut + i);
      assert (a + b)[cut + i + |m|..] == rest[i + |m|..];
      assert (a + b)[..cut + i] == (head + rest)[..|head| + i];
      EmitLonger(thinking, head, rest, i, Split(!thinking, rest[i + |m|..]).events);
    case None =>
      var k := |rest| - Hold(rest, m);
      SplitWithoutMarker(thinking, rest);
      SplitWithoutMarker(thinking, a + b);
      assert (a + b)[cut + k..] == rest[k..];
      assert (a + b)[..cut + k] == (head + rest)[..|head| + k];
      EmitWhole(thinking, head, rest, k);
  }

  lemma EmitFirst(thinking: bool, text: string, events: seq<StreamEvent>)
    requires AllDeltas(events)
    ensures Chars(Emit(thinking, text) + events) == Chars(Emit(thinking, text)) + Chars(events)
  {
    CharsConcat(Emit(thinking, text), events);
  }

  lemma EmitWhole(thinking: bool, head: string, rest: string, k: nat)
    requires k <= |rest|
    ensures Chars(Emit(thinking, (head + rest)[..|head| + k]))
            == Chars(Emit(thinking, head)) + Chars(Emit(thinking, rest[..k]))
  {
    hide Chars, Emit, Tag;
    assert (head + rest)[..|head| + k] == head + rest[..k];
    TagConcat(thinking, head, rest[..k]);
    CharsEmit(thinking, head + rest[..k]);
    CharsEmit(thinking, head);
    CharsEmit(thinking, rest[..k]);
  }

  lemma EmitLonger(thinking: bool, head: string, rest: string, k: nat, events: seq<StreamEvent>)
    requires k <= |rest| && AllDeltas(events)
    ensures Chars(Emit(thinking, (head + rest)[..|head| + k]) + events)
            == Chars(Emit(thinking, head)) + Chars(Emit(thinking, rest[..k]) + events)
  {
    hide Chars, Emit;
    EmitWhole(thinking, head, rest, k);
    EmitFirst(thinking, (head + rest)[..|head| + k], events);
    EmitFirst(thinking, rest[..k], events);
  }

  lemma {:induction false} SplitRests(thinking: bool, buf: string)
    ensures Resting(Split(thinking, buf).state)
    decreases |buf|
  {
    var m := Marker(thinking);
    match Find(buf, m)
    case Some(i) => SplitRests(!thinking, buf[i + |m|..]);
    case None =>
  }

  /** A state between calls holds no finished marker and nothing that could already be sent. */
  lemma RestingIsFixed(st: State)
    requires Resting(st)
    ensures Feed(st, "") == Fed([], st)
  {
    var m := Marker(st.thinking);
    assert st.pending + "" == st.pending;
    assert Border(st.pending, m, |st.pending|);
  }

  /**
   * Chunk invariance: any cutting of a text into chunks ends in the same state and, once adjacent
   * deltas of one kind are merged, sends the same deltas as the text in one piece.
   */
  lemma ChunkInvariance(st: State, chunks: seq<string>)
    requires Resting(st)
    ensures FeedAll(st, chunks).state == Feed(st, Concat(chunks)).state
    ensures AllDeltas(FeedAll(st, chunks).events)
    ensures Coalesce(FeedAll(st, chunks).events) == Coalesce(Feed(st, Concat(chunks)).events)
  {
    ChunkInvarianceChars(st, chunks);
    CoalesceIsGroup(FeedAll(st, chunks).events);
    CoalesceIsGroup(Feed(st, Concat(chunks)).events);
  }

  lemma {:induction false} ChunkInvarianceChars(st: State, chunks: seq<string>)
    requires Resting(st)
    ensures FeedAll(st, chunks).state == Feed(st, Concat(chunks)).state
    ensures AllDeltas(FeedAll(st, chunks).events)
    ensures Chars(FeedAll(st, chunks).events) == Chars(Feed(st, Concat(chunks)).events)
    decreases |chunks|
  {
    hide Split;
    if chunks == [] {
      RestingIsFixed(st);
    } else {
      var first := Feed(st, chunks[0]);
      SplitRests(st.thinking, st.pending + chunks[0]);
      ChunkInvarianceChars(first.state, chunks[1..]);
      CharsConcat(first.events, FeedAll(first.state, chunks[1..]).events);
      assert st.pending + Concat(chunks) == (st.pending + chunks[0]) + Concat(chunks[1..]);
      SplitResumes(st.thinking, st.pending + chunks[0], Concat(chunks[1..]));
    }
  }

  /** Whatever arrives next, characters already sent stay sent, under the mode they were sent in. */
  lemma SentTextIsFinal(st: State, chunk: string, more: string)
    ensures Chars(Feed(st, chunk).events) <= Chars(Feed(st, chunk + more).events)
  {
    hide Split, Chars;
    assert st.pending + (chunk + more) == (st.pending + chunk) + more;
    SplitResumes(st.thinking, st.pending + chunk, more);
  }

  /**
   * Nothing held back could have been sent: the text that completes the marker makes the whole
   * held-back tail vanish from the output and flips the mode.
   */
  lemma HeldTextIsNeeded(st: State)
    requires Resting(st)
    ensures Feed(st, Marker(st.thinking)[|st.pending|..]) == Fed([], State(!st.thinking, ""))
  {
    hide Split;
    var m := Marker(st.thinking);
    assert st.pending + m[|st.pending|..] == m;
    assert m[0..0 + |m|] == m;
    FindIs(m, m, 0);
    SplitAtMarker(st.thinking, m, 0);
    assert m[|m|..] == "" == "" + "";
    RestingIsFixed(State(!st.thinking, ""));
  }

  // ----- what an input means: segments, markers, tail -----

  function Joined(thinking: bool, segments: seq<string>): string
    requires segments != []
    decreases |segments|
  {
    if |segments| == 1 then segments[0]
    else segments[0] + Marker(thinking) + Joined(!thinking, segments[1..])
  }

  predicate ModeAt(thinking: bool, k: nat) {
    if k % 2 == 0 then thinking else !thinking
  }

  /**
   * `input` is the segments joined by alternating markers, then `pending`; no segment holds the
   * marker of its own mode, and `pending` is the longest tail that could become one.
   */
  ghost predicate Reading(thinking: bool, input: string, segments: seq<string>, pending: string) {
    && segments != []
    && input == Joined(thinking, segments) + pending
    && Clean(thinking, segments)
    && Tail(ModeAt(thinking, |segments| - 1), segments[|segments| - 1] + pending, |pending|)
  }

  ghost predicate Clean(thinking: bool, segments: seq<string>) {
    forall k: nat :: k < |segments| - 1 ==> Absent(segments[k], Marker(ModeAt(thinking, k)))
  }

  /** `text` holds no marker, and its last `hold` characters are its longest possible start of one. */
  ghost predicate Tail(thinking: bool, text: string, hold: nat) {
    && Absent(text, Marker(thinking))
    && Border(text, Marker(thinking), hold)
    && forall n: nat :: n > hold ==> !Border(text, Marker(thinking), n)
  }

  function Deltas(thinking: bool, segments: seq<string>): (r: seq<StreamEvent>)
    ensures AllDeltas(r)
    decreases |segments|
  {
    if segments == [] then [] else Emit(thinking, segments[0]) + Deltas(!thinking, segments[1..])
  }

  /** A marker has no border, so it first shows exactly where a marker-free segment ends. */
  lemma MarkerEndsSegment(thinking: bool, seg: string, rest: string)
    requires Absent(seg, Marker(thinking))
    ensures Find(seg + Marker(thinking) + rest, Marker(thinking)) == Some(|seg|)
  {
    var m := Marker(thinking);
    var s := seg + m + rest;
    assert s[|seg|..|seg| + |m|] == m;
    forall j | 0 <= j < |seg|
      ensures !OccursAt(s, m, j)
    {
      if j + |m| <= |seg| {
        assert s[j..j + |m|] == seg[j..j + |m|];
        assert !OccursAt(seg, m, j);
      } else if j + |m| <= |s| {
        assert s[j..j + |m|][|seg| - j] == s[|seg|] == m[0];
      }
    }
    FindIs(s, m, |seg|);
  }

  lemma ReadingTail(thinking: bool, input: string, segments: seq<string>, pending: string)
    requires Reading(thinking, input, segments, pending) && |segments| > 1
    ensures var m := Marker(thinking);
            && Find(input, m) == Some(|segments[0]|)
            && input[..|segments[0]|] == segments[0]
            && Reading(!thinking, input[|segments[0]| + |m|..], segments[1..], pending)
  {
    hide Find, Marker, Absent, Tail, Joined;
    var m, seg, rest := Marker(thinking), segments[0], segments[1..];
    var after := Joined(!thinking, rest) + pending;
    JoinedFirst(thinking, segments, pending);
    CleanTail(thinking, segments);
    MarkerEndsSegment(thinking, seg, after);
    assert ModeAt(!thinking, |rest| - 1) == ModeAt(thinking, |segments| - 1);
  }

  lemma JoinedFirst(thinking: bool, segments: seq<string>, pending: string)
    requires |segments| > 1
    ensures var m, seg := Marker(thinking), segments[0];
            var input := Joined(thinking, segments) + pending;
            var after := Joined(!thinking, segments[1..]) + pending;
            && input == seg + m + after
            && input[..|seg|] == seg
            && input[|seg| + |m|..] == after
  {
    hide Marker;
    var m, seg := Marker(thinking), segments[0];
    var after := Joined(!thinking, segments[1..]) + pending;
    assert Joined(thinking, segments) + pending == seg + m + after == seg + (m + after);
    DropConcat(seg + m, after, |seg| + |m|);
    DropConcat(seg, m + after, |seg|);
  }

  lemma CleanTail(thinking: bool, segments: seq<string>)
    requires |segments| > 1
    ensures Clean(thinking, segments)
            <==> Absent(segments[0], Marker(thinking)) && Clean(!thinking, segments[1..])
  {
    hide Marker, Absent;
    var rest := segments[1..];
    assert ModeAt(thinking, 0) == thinking;
    forall k: nat | k < |rest|
      ensures rest[k] == segments[k + 1] && ModeAt(!thinking, k) == ModeAt(thinking, k + 1)
    {
    }
    if Absent(segments[0], Marker(thinking)) && Clean(!thinking, rest) {
      forall k: nat | k < |segments| - 1
        ensures Absent(segments[k], Marker(ModeAt(thinking, k)))
      {
        if k > 0 {
          assert segments[k] == rest[k - 1] && ModeAt(thinking, k) == ModeAt(!thinking, k - 1);
        }
      }
    }
  }

  /** Every reading of an input gives the state and the deltas that the splitter computes. */
  lemma {:induction false} ReadingDeterminesSplit(thinking: bool, input: string, segments: seq<string>, pending: string)
    requires Reading(thinking, input, segments, pending)
    ensures Split(thinking, input)
            == Fed(Deltas(thinking, segments), State(ModeAt(thinking, |segments| - 1), pending))
    decreases |segments|
  {
    hide Split, Hold, Find, Marker;
    var m := Marker(thinking);
    if |segments| == 1 {
      SplitWithoutMarker(thinking, input);
      assert Hold(input, m) == |pending|;
      assert input[..|input| - |pending|] == segments[0];
      assert segments[1..] == [];
      assert Deltas(thinking, segments) == Emit(thinking, segments[0]) + [];
    } else {
      ReadingTail(thinking, input, segments, pending);
      SplitAtMarker(thinking, input, |segments[0]|);
      ReadingDeterminesSplit(!thinking, input[|segments[0]| + |m|..], segments[1..], pending);
      assert ModeAt(!thinking, |segments[1..]| - 1) == ModeAt(thinking, |segments| - 1);
    }
  }

  /** Text without a bracket goes out at once. */
  lemma PlainTextIsSent(thinking: bool, text: string)
    requires '<' !in text
    ensures Split(thinking, text) == Fed(Emit(thinking, text), State(thinking, ""))
  {
    var m := Marker(thinking);
    forall i
      ensures !OccursAt(text, m, i)
    {
      if 0 <= i && i + |m| <= |text| {
        assert text[i..i + |m|][0] == text[i];
      }
    }
    forall n: nat | n > 0
      ensures !Border(text, m, n)
    {
      if n < |m| && n <= |text| {
        assert text[|text| - n..][0] == text[|text| - n] && m[..n][0] == m[0];
      }
    }
    HoldIs(text, m, 0);
    SplitWithoutMarker(thinking, text);
    assert text[..|text|] == text && text[|text|..] == "";
  }

  /** A thought between its two markers, with text before and behind it. */
  lemma ThoughtIsSeparated(before: string, thought: string, behind: string)
    requires Absent(before, "<think>") && Absent(thought, "</think>") && '<' !in behind
    ensures Feed(State(false, ""), before + "<think>" + (thought + "</think>" + behind))
            == Fed(Emit(false, before) + (Emit(true, thought) + Emit(false, behind)), State(false, ""))
  {
    hide Split, Find;
    var inner := thought + "</think>" + behind;
    var input := before + "<think>" + inner;
    MarkerEndsSegment(false, before, inner);
    MarkerEndsSegment(true, thought, behind);
    SplitAtMarker(false, input, |before|);
    SplitAtMarker(true, inner, |thought|);
    assert input[..|before|] == before && input[|before| + 7..] == inner;
    assert inner[..|thought|] == thought && inner[|thought| + 8..] == behind;
    PlainTextIsSent(false, behind);
    assert "" + input == input;
  }

  /** The segments of an input. */
  function Segments(thinking: bool, input: string): (s: seq<string>)
    ensures s != []
    decreases |input|
  {
    var m := Marker(thinking);
    match Find(input, m)
    case Some(i) => [input[..i]] + Segments(!thinking, input[i + |m|..])
    case None => [input[..|input| - Hold(input, m)]]
  }

  /** Conservation: the segments, the markers and the held-back tail are the whole input. */
  lemma {:induction false} EveryInputHasReading(thinking: bool, input: string)
    ensures Reading(thinking, input, Segments(thinking, input), Split(thinking, input).state.pending)
    decreases |input|
  {
    hide Split, Hold, Find, Marker, Reading, Segments;
    var m := Marker(thinking);
    match Find(input, m)
    case Some(i) =>
      var rest := input[i + |m|..];
      SplitAtMarker(thinking, input, i);
      SegmentsAtMarker(thinking, input, i);
      EveryInputHasReading(!thinking, rest);
      FirstSegmentClean(input, m, i);
      assert input == input[..i] + m + rest;
      ReadingGrows(thinking, input[..i], rest, Segments(!thinking, rest), Split(thinking, input).state.pending);
    case None =>
      SplitWithoutMarker(thinking, input);
      SegmentsWithoutMarker(thinking, input);
      LastReading(thinking, input);
  }

  lemma SegmentsAtMarker(thinking: bool, input: string, i: nat)
    requires Find(input, Marker(thinking)) == Some(i)
    ensures Segments(thinking, input) == [input[..i]] + Segments(!thinking, input[i + |Marker(thinking)|..])
  {
  }

  lemma SegmentsWithoutMarker(thinking: bool, input: string)
    requires Absent(input, Marker(thinking))
    ensures Segments(thinking, input) == [input[..|input| - Hold(input, Marker(thinking))]]
  {
  }

  lemma ReadingGrows(thinking: bool, seg: string, rest: string, segments: seq<string>,
        pending: string)
    requires Absent(seg, Marker(thinking))
    requires Reading(!thinking, rest, segments, pending)
    ensures Reading(thinking, seg + Marker(thinking) + rest, [seg] + segments, pending)
  {
    hide Marker, Absent, Tail;
    var all := [seg] + segments;
    assert all[1..] == segments;
    assert Joined(thinking, all) + pending == seg + Marker(thinking) + (Joined(!thinking, segments) + pending);
    CleanTail(thinking, all);
    assert ModeAt(!thinking, |segments| - 1) == ModeAt(thinking, |all| - 1);
  }

  lemma LastReading(thinking: bool, input: string)
    requires Absent(input, Marker(thinking))
    ensures var cut := |input| - Hold(input, Marker(thinking));
            Reading(thinking, input, [input[..cut]], input[cut..])
  {
    hide Hold, Find, Marker, Absent;
    var cut := |input| - Hold(input, Marker(thinking));
    assert input[..cut] + input[cut..] == input;
  }

  lemma FirstSegmentClean(input: string, m: string, i: nat)
    requires Find(input, m) == Some(i)
    requires |m| > 0
    ensures Absent(input[..i], m)
  {
    forall j
      ensures !OccursAt(input[..i], m, j)
    {
      if OccursAt(input[..i], m, j) {
        assert input == input[..i] + input[i..];
        OccursInPrefix(input[..i], input[i..], m, j);
        assert false;
      }
    }
  }

  /** An input has one reading only. */
  lemma {:induction false} ReadingUnique(thinking: bool, input: string, segments: seq<string>, pending: string)
    requires Reading(thinking, input, segments, pending)
    ensures segments == Segments(thinking, input) && pending == Split(thinking, input).state.pending
    decreases |segments|
  {
    hide Split, Hold, Find, Segments, Marker, Deltas;
    ReadingDeterminesSplit(thinking, input, segments, pending);
    var m := Marker(thinking);
    if |segments| > 1 {
      var rest := input[|segments[0]| + |m|..];
      ReadingTail(thinking, input, segments, pending);
      SegmentsAtMarker(thinking, input, |segments[0]|);
      ReadingUnique(!thinking, rest, segments[1..], pending);
    } else {
      SegmentsWithoutMarker(thinking, input);
      SplitWithoutMarker(thinking, input);
      assert input[..|input| - |pending|] == segments[0];
    }
  }

  /** The held-back tail of the one reading an input has. */
  function TailOf(thinking: bool, input: string): string {
    Split(thinking, input).state.pending
  }

  /** The segments of an input, its tail joined to the last. */
  function Whole(thinking: bool, input: string): seq<string> {
    var segments := Segments(thinking, input);
    segments[..|segments| - 1] + [segments[|segments| - 1] + TailOf(thinking, input)]
  }

  /** The mode an input ends in. */
  function EndMode(thinking: bool, input: string): bool {
    ModeAt(thinking, |Segments(thinking, input)| - 1)
  }

  lemma SpanMeans(thinking: bool, input: string)
    ensures var fed := Split(thinking, input);
            && fed.state == State(EndMode(thinking, input), TailOf(thinking, input))
            && Chars(fed.events) + Tag(fed.state.thinking, fed.state.pending)
               == Chars(Deltas(thinking, Whole(thinking, input)))
  {
    hide Split, Segments, Chars, Tag, Deltas, Reading;
    EveryInputHasReading(thinking, input);
    ReadingDeterminesSplit(thinking, input, Segments(thinking, input), TailOf(thinking, input));
    DeltasFlushed(thinking, Segments(thinking, input), TailOf(thinking, input));
  }

  lemma NoTailInNothing(thinking: bool)
    ensures TailOf(thinking, "") == ""
  {
    hide Split;
    RestingIsFixed(State(thinking, ""));
    assert "" + "" == "";
  }

  /**
   * The whole run: however the input arrives, the merged deltas are the segments of the input and
   * the finish flush sends the tail, so input and output differ by the markers alone.
   */
  lemma RunMeansReading(chunks: seq<string>, segments: seq<string>, pending: string)
    requires Reading(false, Concat(chunks), segments, pending)
    ensures var run := FeedAll(State(false, ""), chunks);
            var last := |segments| - 1;
            && AllDeltas(run.events)
            && run.state == State(ModeAt(false, last), pending)
            && Coalesce(run.events) == Coalesce(Deltas(false, segments))
            && Coalesce(run.events + Flush(run.state))
               == Coalesce(Deltas(false, segments[..last] + [segments[last] + pending]))
  {
    hide Coalesce, Group, Chars, Emit, Deltas, Reading, FeedAll;
    RunChars(chunks, segments, pending);
    var run := FeedAll(State(false, ""), chunks);
    var flushed := segments[..|segments| - 1] + [segments[|segments| - 1] + pending];
    DeltasFlushed(false, segments, pending);
    CharsConcat(run.events, Flush(run.state));
    CharsEmit(run.state.thinking, pending);
    CoalesceIsGroup(run.events);
    CoalesceIsGroup(Deltas(false, segments));
    CoalesceIsGroup(run.events + Flush(run.state));
    CoalesceIsGroup(Deltas(false, flushed));
  }

  lemma RunChars(chunks: seq<string>, segments: seq<string>, pending: string)
    requires Reading(false, Concat(chunks), segments, pending)
    ensures segments != []
    ensures var run := FeedAll(State(false, ""), chunks);
            && AllDeltas(run.events)
            && run.state == State(ModeAt(false, |segments| - 1), pending)
            && Chars(run.events) == Chars(Deltas(false, segments))
  {
    hide Split, Chars, Deltas, FeedAll;
    ChunkInvarianceChars(State(false, ""), chunks);
    assert "" + Concat(chunks) == Concat(chunks);
    ReadingDeterminesSplit(false, Concat(chunks), segments, pending);
  }

  lemma DeltasCons(thinking: bool, seg: string, rest: seq<string>)
    ensures Chars(Deltas(thinking, [seg] + rest)) == Tag(thinking, seg) + Chars(Deltas(!thinking, rest))
    ensures Chars(Deltas(thinking, [])) == []
  {
    hide Tag, Emit;
    assert ([seg] + rest)[1..] == rest;
    CharsEmit(thinking, seg);
    CharsConcat(Emit(thinking, seg), Deltas(!thinking, rest));
  }

  lemma {:induction false} DeltasFlushed(thinking: bool, segments: seq<string>, pending: string)
    requires segments != []
    ensures Chars(Deltas(thinking, segments[..|segments| - 1] + [segments[|segments| - 1] + pending]))
            == Chars(Deltas(thinking, segments)) + Tag(ModeAt(thinking, |segments| - 1), pending)
    decreases |segments|
  {
    hide Tag, Chars, Deltas;
    var seg, rest := segments[0], segments[1..];
    assert segments == [seg] + rest;
    DeltasCons(thinking, seg, rest);
    if rest == [] {
      TagConcat(thinking, seg, pending);
      DeltasCons(thinking, seg + pending, []);
      DeltasCons(!thinking, "", []);
      assert segments[..0] + [seg + pending] == [seg + pending] + [];
    } else {
      var last := |rest| - 1;
      var flushed := rest[..last] + [rest[last] + pending];
      assert segments[..|segments| - 1] + [segments[|segments| - 1] + pending] == [seg] + flushed;
      DeltasFlushed(!thinking, rest, pending);
      DeltasCons(thinking, seg, flushed);
      assert ModeAt(!thinking, last) == ModeAt(thinking, last + 1);
    }
  }
}
