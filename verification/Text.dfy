/** Strings as the stream parser uses them: leftmost search, line splitting and trimming. */
module Text {

  datatype Option<+T> = None | Some(value: T)

  datatype Result<+T, +E> = Ok(value: T) | Err(error: E)

  predicate OccursAt(s: string, pat: string, i: int) {
    0 <= i && i + |pat| <= |s| && s[i..i + |pat|] == pat
  }

  ghost predicate Absent(s: string, pat: string) {
    forall i :: !OccursAt(s, pat, i)
  }

  /** The leftmost occurrence of `pat`, as `str::find` reports it. */
  function Find(s: string, pat: string): (r: Option<nat>)
    ensures r.Some? ==> OccursAt(s, pat, r.value)
    ensures r.Some? ==> forall j :: j < r.value ==> !OccursAt(s, pat, j)
    ensures r.None? ==> Absent(s, pat)
  {
    FindFrom(s, pat, 0)
  }

  function FindFrom(s: string, pat: string, from: nat): (r: Option<nat>)
    requires forall j :: j < from ==> !OccursAt(s, pat, j)
    ensures r.Some? ==> OccursAt(s, pat, r.value)
    ensures r.Some? ==> forall j :: j < r.value ==> !OccursAt(s, pat, j)
    ensures r.None? ==> Absent(s, pat)
    decreases |s| - from
  {
    if OccursAt(s, pat, from) then Some(from)
    else if from >= |s| then None
    else FindFrom(s, pat, from + 1)
  }

  predicate Contains(s: string, pat: string) {
    Find(s, pat).Some?
  }

  /** A position is the leftmost occurrence exactly when `Find` returns it. */
  lemma FindIs(s: string, pat: string, i: nat)
    requires OccursAt(s, pat, i)
    requires forall j :: j < i ==> !OccursAt(s, pat, j)
    ensures Find(s, pat) == Some(i)
  {
    var r := Find(s, pat);
    assert r.Some?;
    assert !(r.value < i) && !(i < r.value);
  }

  /** Text appended on the right cannot disturb an occurrence, nor create one to its left. */
  lemma OccursInPrefix(a: string, b: string, pat: string, i: nat)
    requires i + |pat| <= |a|
    ensures OccursAt(a + b, pat, i) <==> OccursAt(a, pat, i)
  {
    assert (a + b)[i..i + |pat|] == a[i..i + |pat|];
  }

  lemma OccursInSuffix(a: string, b: string, pat: string, i: nat)
    ensures OccursAt(a + b, pat, |a| + i) <==> OccursAt(b, pat, i)
  {
    if i + |pat| <= |b| {
      assert (a + b)[|a| + i..|a| + i + |pat|] == b[i..i + |pat|];
    }
  }

  /** A leftmost match already found is still the leftmost match after more text arrives. */
  lemma FindStable(a: string, b: string, pat: string)
    requires Find(a, pat).Some?
    ensures Find(a + b, pat) == Find(a, pat)
  {
    var i := Find(a, pat).value;
    OccursInPrefix(a, b, pat, i);
    forall j | 0 <= j < i
      ensures !OccursAt(a + b, pat, j)
    {
      OccursInPrefix(a, b, pat, j);
    }
    FindIs(a + b, pat, i);
  }

  lemma ContainsMonotone(a: string, s: string, b: string, pat: string)
    requires Contains(s, pat)
    ensures Contains(a + s + b, pat)
  {
    var i := Find(s, pat).value;
    OccursInSuffix(a, s, pat, i);
    OccursInPrefix(a + s, b, pat, |a| + i);
    assert OccursAt(a + s + b, pat, |a| + i);
  }

  /** A text contains a pattern exactly when it is the pattern with something before and behind it. */
  lemma ContainsExactlyWhen(s: string, pat: string)
    ensures Contains(s, pat) <==> exists a: string, b: string :: s == a + pat + b
  {
    if Contains(s, pat) {
      var i := Find(s, pat).value;
      assert s == s[..i] + pat + s[i + |pat|..];
    }
    if a: string, b: string :| s == a + pat + b {
      assert s[|a|..|a| + |pat|] == pat;
      assert OccursAt(s, pat, |a|);
    }
  }

  lemma DropConcat(a: string, b: string, n: nat)
    requires n <= |a|
    ensures (a + b)[..n] == a[..n]
    ensures (a + b)[n..] == a[n..] + b
  {
  }

  function Concat(chunks: seq<string>): string {
    if chunks == [] then "" else chunks[0] + Concat(chunks[1..])
  }

  /** Rust's `char::is_whitespace`: the Unicode White_Space property. */
  predicate IsWhitespace(c: char) {
    var u := c as int;
    || 0x09 <= u <= 0x0D || u == 0x20 || u == 0x85 || u == 0xA0 || u == 0x1680
    || 0x2000 <= u <= 0x200A || u == 0x2028 || u == 0x2029 || u == 0x202F || u == 0x205F
    || u == 0x3000
  }

  function TrimStart(s: string): string {
    if s != "" && IsWhitespace(s[0]) then TrimStart(s[1..]) else s
  }

  function TrimEnd(s: string): string {
    if s != "" && IsWhitespace(s[|s| - 1]) then TrimEnd(s[..|s| - 1]) else s
  }

  function Trim(s: string): string {
    TrimEnd(TrimStart(s))
  }

  predicate Blank(s: string) {
    forall i :: 0 <= i < |s| ==> IsWhitespace(s[i])
  }

  /** Of the ASCII characters, white space are the space and the six controls from tab to carriage return. */
  lemma AsciiWhitespace(c: char)
    requires c as int < 128
    ensures IsWhitespace(c) <==> c == ' ' || '\t' <= c <= '\r'
  {
  }

  lemma {:induction false} TrimStartPadded(a: string, s: string)
    requires Blank(a)
    ensures TrimStart(a + s) == TrimStart(s)
  {
    if a == "" {
      assert a + s == s;
    } else {
      assert (a + s)[1..] == a[1..] + s;
      TrimStartPadded(a[1..], s);
    }
  }

  lemma {:induction false} TrimEndPadded(s: string, b: string)
    requires Blank(b)
    ensures TrimEnd(s + b) == TrimEnd(s)
    decreases |b|
  {
    if b == "" {
      assert s + b == s;
    } else {
      var last := |b| - 1;
      assert (s + b)[..|s + b| - 1] == s + b[..last];
      TrimEndPadded(s, b[..last]);
    }
  }

  /** Leading white space is cut before what is behind it, unless there is nothing else. */
  lemma {:induction false} TrimStartBefore(s: string, b: string)
    ensures TrimStart(s) != "" ==> TrimStart(s + b) == TrimStart(s) + b
    ensures TrimStart(s) == "" ==> TrimStart(s + b) == TrimStart(b)
  {
    if s == "" {
      assert s + b == b;
    } else if IsWhitespace(s[0]) {
      assert (s + b)[1..] == s[1..] + b;
      TrimStartBefore(s[1..], b);
    }
  }

  /** White space around a text makes no difference once it is trimmed. */
  lemma TrimPadded(a: string, s: string, b: string)
    requires Blank(a) && Blank(b)
    ensures Trim(a + s + b) == Trim(s)
  {
    hide TrimStart, TrimEnd;
    assert a + s + b == a + (s + b);
    TrimStartPadded(a, s + b);
    TrimStartBefore(s, b);
    TrimEndPadded(TrimStart(s), b);
    if TrimStart(s) == "" {
      TrimStartPadded(b, "");
      assert b + "" == b;
      assert TrimStart("") == "" by {
        TrimmedNothing();
      }
    }
  }

  lemma TrimmedNothing()
    ensures TrimStart("") == ""
  {
  }

  /** `str::lines`: split after every LF, drop that LF and one CR before it. */
  function Lines(s: string): seq<string>
    decreases |s|
  {
    if s == "" then []
    else match Find(s, "\n")
      case None => [s]
      case Some(i) =>
        var line := s[..i];
        [if i > 0 && line[i - 1] == '\r' then line[..i - 1] else line] + Lines(s[i + 1..])
  }

  /** Text that is a line as it stands: no line feed in it, no white space around it. */
  predicate OneLine(s: string) {
    s != "" && '\n' !in s && !IsWhitespace(s[0]) && !IsWhitespace(s[|s| - 1])
  }

  lemma NoLineFeed(s: string)
    requires '\n' !in s
    ensures Absent(s, "\n") && Absent(s, "\n\n") && Find(s, "\n") == None
    ensures s != "" ==> Lines(s) == [s]
  {
    forall i, pat: string | pat == "\n" || pat == "\n\n"
      ensures !OccursAt(s, pat, i)
    {
      if 0 <= i && i + |pat| <= |s| {
        assert s[i..i + |pat|][0] == s[i];
      }
    }
  }

  /** Two lines, each without a line feed, are read back as they are. */
  lemma TwoLines(a: string, b: string)
    requires OneLine(a) && OneLine(b)
    ensures Lines(a + "\n" + b) == [a, b]
  {
    var s := a + "\n" + b;
    NoLineFeed(a);
    NoLineFeed(b);
    forall j | 0 <= j < |a|
      ensures !OccursAt(s, "\n", j)
    {
      assert s[j..j + 1][0] == a[j];
    }
    assert s[|a|..|a| + 1] == "\n";
    FindIs(s, "\n", |a|);
    assert s[..|a|] == a && s[|a| + 1..] == b;
  }

  predicate StartsWith(s: string, prefix: string) {
    |prefix| <= |s| && s[..|prefix|] == prefix
  }
}
