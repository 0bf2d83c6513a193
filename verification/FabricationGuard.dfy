/** The detector for replies that claim a policy change no tool call made. */
module FabricationGuard {
  import opened Text
  import opened Transcript

  function WriteTools(): set<string> {
    {"commit_policy", "pause_policy", "resume_policy"}
  }

  function FabricationPhrases(): seq<string> {
    [ "policy committed", "policy is live", "policy is now active", "policy is now live",
      "policy is active", "your policy is now", "your balanced policy is",
      "your conservative policy is", "your growth policy is", "i've committed",
      "i have committed", "i've set up", "i have set up", "i've configured",
      "i have configured", "i've updated", "i have updated", "i've changed",
      "i have changed", "has been committed", "now committed",
      "policy committed \U{2705}", "\U{2705} \U{2014} balanced", "\U{2705} \U{2014} conservative",
      "\U{2705} \U{2014} growth", "updating your policy now", "i'm committing", "i am committing" ]
  }

  /** The text a reply is retracted with; only its first words are kept here. */
  function Retraction(): string {
    "\U{26A0} Internal guard"
  }

  /** `to_ascii_lowercase` */
  function Lower(s: string): (r: string)
    ensures |r| == |s|
    ensures forall i :: 0 <= i < |s| ==> r[i] == LowerChar(s[i])
  {
    seq(|s|, i requires 0 <= i < |s| => LowerChar(s[i]))
  }

  function LowerChar(c: char): char {
    if 'A' <= c <= 'Z' then ((c as int) + 32) as char else c
  }

  lemma LowerConcat(a: string, b: string)
    ensures Lower(a + b) == Lower(a) + Lower(b)
  {
  }

  predicate AnyWriteCalled(trace: seq<ToolTrace>) {
    exists i :: 0 <= i < |trace| && trace[i].name in WriteTools()
  }

  predicate CommitCalled(trace: seq<ToolTrace>) {
    exists i :: 0 <= i < |trace| && trace[i].name == "commit_policy"
  }

  predicate OtherWriteCalled(trace: seq<ToolTrace>) {
    exists i :: 0 <= i < |trace| && (trace[i].name == "pause_policy" || trace[i].name == "resume_policy")
  }

  predicate ClaimsWrite(text: string) {
    exists i :: 0 <= i < |FabricationPhrases()| && Contains(Lower(text), FabricationPhrases()[i])
  }

  /** `detect_fabricated_action` */
  function DetectFabricatedAction(text: string, trace: seq<ToolTrace>): Option<string> {
    if !AnyWriteCalled(trace) && ClaimsWrite(text) then Some(Retraction()) else None
  }

  predicate Fabricated(text: string, trace: seq<ToolTrace>) {
    DetectFabricatedAction(text, trace).Some?
  }

  lemma WritesAreCommitsAndOthers(trace: seq<ToolTrace>)
    ensures AnyWriteCalled(trace) <==> CommitCalled(trace) || OtherWriteCalled(trace)
  {
    if CommitCalled(trace) {
      var i :| 0 <= i < |trace| && trace[i].name == "commit_policy";
      assert trace[i].name in WriteTools();
    }
    if OtherWriteCalled(trace) {
      var i :| 0 <= i < |trace| && (trace[i].name == "pause_policy" || trace[i].name == "resume_policy");
      assert trace[i].name in WriteTools();
    }
  }

  // ----- what a claim is, said without changing any text -----

  const CAPITALS := "ABCDEFGHIJKLMNOPQRSTUVWXYZ"
  const SMALLS := "abcdefghijklmnopqrstuvwxyz"

  /** `a` is the capital of the small letter `b`. */
  predicate CapitalOf(a: char, b: char) {
    exists n :: 0 <= n < 26 && CAPITALS[n] == a && SMALLS[n] == b
  }

  predicate SameLetter(a: char, b: char) {
    a == b || CapitalOf(a, b) || CapitalOf(b, a)
  }

  /** The texts differ in capitals at most. */
  ghost predicate SameButCase(a: string, b: string) {
    |a| == |b| && forall i :: 0 <= i < |a| ==> SameLetter(a[i], b[i])
  }

  /** `phrase` stands at `p` in some capitals. */
  ghost predicate StandsAt(text: string, phrase: string, p: nat) {
    p + |phrase| <= |text| && SameButCase(text[p..p + |phrase|], phrase)
  }

  lemma LettersInOrder(n: nat)
    requires n < 26
    ensures CAPITALS[n] as int == 'A' as int + n && SMALLS[n] as int == 'a' as int + n
  {
  }

  /** Letters are the same exactly when their small letters are equal. */
  lemma SameLetterExactlyWhen(a: char, b: char)
    ensures SameLetter(a, b) <==> LowerChar(a) == LowerChar(b)
  {
    hide CapitalOf;
    CapitalExactlyWhen(a, b);
    CapitalExactlyWhen(b, a);
  }

  lemma CapitalExactlyWhen(a: char, b: char)
    ensures CapitalOf(a, b) <==> 'A' <= a <= 'Z' && b as int == a as int + 32
  {
    if CapitalOf(a, b) {
      var n :| 0 <= n < 26 && CAPITALS[n] == a && SMALLS[n] == b;
      LettersInOrder(n);
    }
    if 'A' <= a <= 'Z' && b as int == a as int + 32 {
      var n := a as int - 'A' as int;
      LettersInOrder(n);
      assert CAPITALS[n] == a && SMALLS[n] == b;
    }
  }

  lemma SameButCaseExactlyWhen(a: string, b: string)
    ensures SameButCase(a, b) <==> Lower(a) == Lower(b)
  {
    hide SameLetter, LowerChar;
    forall i | 0 <= i < |a| && |a| == |b|
      ensures SameLetter(a[i], b[i]) <==> Lower(a)[i] == Lower(b)[i]
    {
      SameLetterExactlyWhen(a[i], b[i]);
    }
  }

  predicate NoCapital(s: string) {
    forall k :: 0 <= k < |s| ==> !('A' <= s[k] <= 'Z')
  }

  lemma SmallPhrases0(i: nat)
    requires 0 <= i < 7
    ensures NoCapital(FabricationPhrases()[i])
  {
  }

  lemma SmallPhrases1(i: nat)
    requires 7 <= i < 14
    ensures NoCapital(FabricationPhrases()[i])
  {
  }

  lemma SmallPhrases2(i: nat)
    requires 14 <= i < 21
    ensures NoCapital(FabricationPhrases()[i])
  {
  }

  lemma SmallPhrases3(i: nat)
    requires 21 <= i < 28
    ensures NoCapital(FabricationPhrases()[i])
  {
  }

  lemma PhrasesAreSmall(i: nat)
    requires i < |FabricationPhrases()|
    ensures Lower(FabricationPhrases()[i]) == FabricationPhrases()[i]
  {
    assert |FabricationPhrases()| == 28;
    hide FabricationPhrases;
    if i < 7 {
      SmallPhrases0(i);
    } else if i < 14 {
      SmallPhrases1(i);
    } else if i < 21 {
      SmallPhrases2(i);
    } else {
      SmallPhrases3(i);
    }
  }

  lemma StandsExactlyWhen(text: string, phrase: string, p: nat)
    requires Lower(phrase) == phrase
    ensures StandsAt(text, phrase, p) <==> OccursAt(Lower(text), phrase, p)
  {
    hide LowerChar, SameButCase;
    if p + |phrase| <= |text| {
      var part := text[p..p + |phrase|];
      SameButCaseExactlyWhen(part, phrase);
      assert Lower(part) == Lower(text)[p..p + |phrase|];
    }
  }

  lemma StandingPhraseClaims(text: string)
    ensures ClaimsWrite(text) <==>
            exists i: nat, p: nat :: i < |FabricationPhrases()| && StandsAt(text, FabricationPhrases()[i], p)
  {
    hide FabricationPhrases, StandsAt, Lower;
    forall i: nat, p: nat | i < |FabricationPhrases()|
      ensures StandsAt(text, FabricationPhrases()[i], p) <==> OccursAt(Lower(text), FabricationPhrases()[i], p)
    {
      PhrasesAreSmall(i);
      StandsExactlyWhen(text, FabricationPhrases()[i], p);
    }
    if ClaimsWrite(text) {
      var i :| 0 <= i < |FabricationPhrases()| && Contains(Lower(text), FabricationPhrases()[i]);
      var p := Find(Lower(text), FabricationPhrases()[i]).value;
      assert StandsAt(text, FabricationPhrases()[i], p);
    }
    if i: nat, p: nat :| i < |FabricationPhrases()| && StandsAt(text, FabricationPhrases()[i], p) {
      assert OccursAt(Lower(text), FabricationPhrases()[i], p);
      assert Contains(Lower(text), FabricationPhrases()[i]);
    }
  }

  /** Capitals never decide whether a text claims a write. */
  lemma CapitalsNeverMatter(a: string, b: string)
    requires SameButCase(a, b)
    ensures ClaimsWrite(a) <==> ClaimsWrite(b)
  {
    hide LowerChar, SameButCase, FabricationPhrases;
    SameButCaseExactlyWhen(a, b);
  }

  // ----- which phrases count -----

  const SUBJECTS := ["i've ", "i have "]
  const VERBS := ["committed", "set up", "configured", "updated", "changed"]
  const LABELS := ["balanced", "conservative", "growth"]
  const STATES := ["live", "now active", "now live", "active"]

  /** What counts as a claim: the agent has done something, a policy of some label is in place, or one
      of seven other turns of phrase. */
  ghost predicate IsClaim(phrase: string) {
    || (exists s, v :: 0 <= s < 2 && 0 <= v < 5 && phrase == SUBJECTS[s] + VERBS[v])
    || (exists k :: 0 <= k < 3 && phrase == "your " + LABELS[k] + " policy is")
    || (exists k :: 0 <= k < 3 && phrase == "\U{2705} \U{2014} " + LABELS[k])
    || (exists k :: 0 <= k < 4 && phrase == "policy is " + STATES[k])
    || phrase == "policy committed" || phrase == "has been committed" || phrase == "now committed"
    || phrase == "your policy is now" || phrase == "updating your policy now"
    || phrase == "i'm committing" || phrase == "i am committing"
  }

  lemma ContractedPhrases(v: nat)
    requires v < 5
    ensures FabricationPhrases()[9 + 2 * v] == SUBJECTS[0] + VERBS[v]
  {
  }

  lemma SpelledPhrases(v: nat)
    requires v < 5
    ensures FabricationPhrases()[10 + 2 * v] == SUBJECTS[1] + VERBS[v]
  {
  }

  lemma LabelPhrases(k: nat)
    requires k < 3
    ensures FabricationPhrases()[6 + k] == "your " + LABELS[k] + " policy is"
  {
  }

  lemma TickedPhrases(k: nat)
    requires k < 3
    ensures FabricationPhrases()[22 + k] == "\U{2705} \U{2014} " + LABELS[k]
  {
  }

  lemma StatePhrases(k: nat)
    requires k < 4
    ensures FabricationPhrases()[1 + k] == "policy is " + STATES[k]
  {
  }

  lemma OtherPhrases()
    ensures var p := FabricationPhrases();
            && p[0] == "policy committed" && p[5] == "your policy is now" && p[19] == "has been committed"
            && p[20] == "now committed" && p[25] == "updating your policy now"
            && p[26] == "i'm committing" && p[27] == "i am committing"
            && p[0] <= p[21]
  {
  }
  lemma DonePhraseIsClaim(i: nat)
    requires 9 <= i < 19
    ensures i < |FabricationPhrases()| && IsClaim(FabricationPhrases()[i])
  {
    assert |FabricationPhrases()| == 28;
    hide FabricationPhrases;
    var v, s := (i - 9) / 2, (i - 9) % 2;
    ContractedPhrases(v);
    SpelledPhrases(v);
    assert FabricationPhrases()[i] == SUBJECTS[s] + VERBS[v];
  }

  lemma NamedPhraseIsClaim(i: nat)
    requires 1 <= i < 5 || 6 <= i < 9 || 22 <= i < 25
    ensures i < |FabricationPhrases()| && IsClaim(FabricationPhrases()[i])
  {
    assert |FabricationPhrases()| == 28;
    hide FabricationPhrases;
    if i < 5 {
      StatePhrases(i - 1);
    } else if i < 9 {
      LabelPhrases(i - 6);
    } else {
      TickedPhrases(i - 22);
    }
  }

  /** Every phrase of the list is a claim, or begins with one. */
  lemma PhraseIsClaim(i: nat) returns (phrase: string)
    requires i < |FabricationPhrases()|
    ensures IsClaim(phrase) && phrase <= FabricationPhrases()[i]
  {
    assert |FabricationPhrases()| == 28;
    hide FabricationPhrases, IsClaim;
    OtherPhrases();
    OthersAreClaims();
    phrase := FabricationPhrases()[if i == 21 then 0 else i];
    if 9 <= i < 19 {
      DonePhraseIsClaim(i);
    } else if 1 <= i < 5 || 6 <= i < 9 || 22 <= i < 25 {
      NamedPhraseIsClaim(i);
    }
  }

  lemma OthersAreClaims()
    ensures IsClaim("policy committed") && IsClaim("has been committed") && IsClaim("now committed")
    ensures IsClaim("your policy is now") && IsClaim("updating your policy now")
    ensures IsClaim("i'm committing") && IsClaim("i am committing")
  {
  }

  /** Every claim is a phrase of the list. */
  lemma ClaimIsPhrase(phrase: string) returns (i: nat)
    requires IsClaim(phrase)
    ensures i < |FabricationPhrases()| && FabricationPhrases()[i] == phrase
  {
    assert |FabricationPhrases()| == 28;
    hide FabricationPhrases;
    OtherPhrases();
    if s, v :| 0 <= s < 2 && 0 <= v < 5 && phrase == SUBJECTS[s] + VERBS[v] {
      ContractedPhrases(v);
      SpelledPhrases(v);
      i := 9 + 2 * v + s;
    } else if k :| 0 <= k < 3 && phrase == "your " + LABELS[k] + " policy is" {
      LabelPhrases(k);
      i := 6 + k;
    } else if k :| 0 <= k < 3 && phrase == "\U{2705} \U{2014} " + LABELS[k] {
      TickedPhrases(k);
      i := 22 + k;
    } else if k :| 0 <= k < 4 && phrase == "policy is " + STATES[k] {
      StatePhrases(k);
      i := 1 + k;
    } else {
      i :| i in {0, 5, 19, 20, 25, 26, 27} && FabricationPhrases()[i] == phrase;
    }
  }

  /**
   * A text claims a write exactly when a claim stands somewhere in it, in any capitals. So one of the
   * code's 28 phrases never decides anything: it begins with another one.
   */
  lemma ClaimsExactlyWhen(text: string)
    ensures ClaimsWrite(text) <==> exists phrase: string, p: nat :: IsClaim(phrase) && StandsAt(text, phrase, p)
  {
    hide FabricationPhrases, StandsAt, Lower, IsClaim;
    StandingPhraseClaims(text);
    if ClaimsWrite(text) {
      var i: nat, p: nat :| i < |FabricationPhrases()| && StandsAt(text, FabricationPhrases()[i], p);
      var phrase := PhraseIsClaim(i);
      BeginningStands(text, phrase, FabricationPhrases()[i], p);
    }
    if phrase: string, p: nat :| IsClaim(phrase) && StandsAt(text, phrase, p) {
      var i := ClaimIsPhrase(phrase);
      assert StandsAt(text, FabricationPhrases()[i], p);
    }
  }

  lemma BeginningStands(text: string, phrase: string, longer: string, p: nat)
    requires phrase <= longer && StandsAt(text, longer, p)
    ensures StandsAt(text, phrase, p)
  {
    hide SameLetter;
    var part := text[p..p + |longer|];
    forall k | 0 <= k < |phrase|
      ensures SameLetter(text[p..p + |phrase|][k], phrase[k])
    {
      assert SameLetter(part[k], longer[k]);
    }
  }

  /** A claim stays a claim whatever stands before and after it. */
  lemma ClaimsMonotone(a: string, text: string, b: string)
    requires ClaimsWrite(text)
    ensures ClaimsWrite(a + text + b)
  {
    hide FabricationPhrases;
    var i :| 0 <= i < |FabricationPhrases()| && Contains(Lower(text), FabricationPhrases()[i]);
    LowerConcat(a, text);
    LowerConcat(a + text, b);
    ContainsMonotone(Lower(a), Lower(text), Lower(b), FabricationPhrases()[i]);
  }

  /** Tool calls only ever acquit: a longer trace flags no more than a shorter one. */
  lemma TraceOnlyAcquits(text: string, trace: seq<ToolTrace>, more: seq<ToolTrace>)
    requires Fabricated(text, trace + more)
    ensures Fabricated(text, trace)
  {
    hide ClaimsWrite, Retraction;
    forall i | 0 <= i < |trace|
      ensures (trace + more)[i] == trace[i]
    {
    }
  }

  lemma ShortTextClaimsNothing(text: string)
    requires |text| < 10
    ensures !ClaimsWrite(text)
  {
    forall i | 0 <= i < |FabricationPhrases()|
      ensures |FabricationPhrases()[i]| >= 10
    {
    }
  }

  lemma PhraseClaims(phrase: string)
    requires phrase == FabricationPhrases()[0]
    ensures ClaimsWrite(phrase)
  {
    assert Lower(phrase) == phrase;
    assert OccursAt(phrase, phrase, 0);
    assert Contains(Lower(phrase), FabricationPhrases()[0]);
  }
}
