/** The sentence splitter and the overlapping sentence windows. Texts are sequences
    of code points. */
module Chunker {
  import opened Sequences

  // consecutive sentences per chunk, and the step between window starts
  const CHUNK_SIZE := 3
  const STRIDE := CHUNK_SIZE - 1
  const SPACE := " "

  predicate IsTerminator(c: char) {
    c == '.' || c == '!' || c == '?'
  }

  /** White space as Unicode defines it. */
  predicate IsSpace(c: char) {
    var n := c as int;
    9 <= n <= 13 || n == 32 || n == 0x85 || n == 0xA0 || n == 0x1680 || 0x2000 <= n <= 0x200A ||
    n == 0x2028 || n == 0x2029 || n == 0x202F || n == 0x205F || n == 0x3000
  }

  /** The code points with the property White_Space. */
  const WHITE_SPACE: seq<int> := [
    0x9, 0xA, 0xB, 0xC, 0xD, 0x20, 0x85, 0xA0, 0x1680, 0x2000, 0x2001, 0x2002, 0x2003, 0x2004, 0x2005, 0x2006,
    0x2007, 0x2008, 0x2009, 0x200A, 0x2028, 0x2029, 0x202F, 0x205F, 0x3000]

  lemma TerminatorsAndSpaces(c: char)
    ensures IsTerminator(c) <==> c in ".!?"
    ensures IsSpace(c) <==> c as int in WHITE_SPACE
  {
    var n := c as int;
    assert 0x2000 <= n <= 0x200A ==> WHITE_SPACE[9 + (n - 0x2000)] == n;
    assert 9 <= n <= 13 ==> WHITE_SPACE[n - 9] == n;
    assert WHITE_SPACE[5] == 32 && WHITE_SPACE[6] == 0x85 && WHITE_SPACE[7] == 0xA0 && WHITE_SPACE[8] == 0x1680;
    assert WHITE_SPACE[20] == 0x2028 && WHITE_SPACE[21] == 0x2029 && WHITE_SPACE[22] == 0x202F;
    assert WHITE_SPACE[23] == 0x205F && WHITE_SPACE[24] == 0x3000;
  }

  function TrimLeft(s: string): (r: string)
    ensures |r| <= |s|
  {
    if s != [] && IsSpace(s[0]) then TrimLeft(s[1..]) else s
  }

  function TrimRight(s: string): (r: string)
    ensures |r| <= |s|
  {
    if s != [] && IsSpace(s[|s| - 1]) then TrimRight(s[..|s| - 1]) else s
  }

  function TrimSpace(s: string): string {
    TrimRight(TrimLeft(s))
  }

  /** Where the first terminator stands; the length of the text if there is none. */
  function FirstTerminator(s: string): (k: nat)
    ensures k <= |s| && (k < |s| ==> IsTerminator(s[k]))
  {
    if s == [] || IsTerminator(s[0]) then 0 else 1 + FirstTerminator(s[1..])
  }

  /** How many terminators the text begins with. */
  function RunLength(s: string): (k: nat)
    ensures k <= |s| && (k < |s| ==> !IsTerminator(s[k]))
  {
    if s == [] || !IsTerminator(s[0]) then 0 else 1 + RunLength(s[1..])
  }

  /** Just past the first maximal run of terminators. */
  function FirstEnd(s: string): (e: nat)
    requires FirstTerminator(s) < |s|
    ensures FirstTerminator(s) < e <= |s|
  {
    var k := FirstTerminator(s);
    k + RunLength(s[k..])
  }

  /** All matches of `[.!?]+` from `at` on, as start and end positions. */
  function Runs(text: string, at: nat): seq<(nat, nat)>
    requires at <= |text|
    decreases |text| - at
  {
    var rest := text[at..];
    if FirstTerminator(rest) == |rest| then []
    else [(at + FirstTerminator(rest), at + FirstEnd(rest))] + Runs(text, at + FirstEnd(rest))
  }

  function Kept(s: string): seq<string> {
    if s == "" then [] else [s]
  }

  /** The sentences of a text. */
  function Sentences(text: string): seq<string>
    decreases |text|
  {
    if FirstTerminator(text) == |text| then Kept(TrimSpace(text))
    else Kept(TrimSpace(text[..FirstEnd(text)])) + Sentences(text[FirstEnd(text)..])
  }

  lemma RunsStep(text: string, at: nat)
    requires at <= |text|
    ensures var rest := text[at..];
            if FirstTerminator(rest) == |rest| then Runs(text, at) == []
            else
              && at < at + FirstEnd(rest) <= |text|
              && Runs(text, at) ==
                 [(at + FirstTerminator(rest), at + FirstEnd(rest))] + Runs(text, at + FirstEnd(rest))
  {
    hide FirstTerminator, FirstEnd;
  }

  lemma SentencesStep(text: string)
    ensures if FirstTerminator(text) == |text| then Sentences(text) == Kept(TrimSpace(text))
            else Sentences(text) == Kept(TrimSpace(text[..FirstEnd(text)])) + Sentences(text[FirstEnd(text)..])
  {
    hide Kept, TrimSpace, FirstEnd, FirstTerminator;
  }

  /** One match splits one sentence off. */
  lemma SplitStep(text: string, start: nat, done: seq<string>)
    requires start <= |text|
    ensures Runs(text, start) == [] ==> Sentences(text[start..]) == Kept(TrimSpace(text[start..]))
    ensures Runs(text, start) != [] ==>
              var end := Runs(text, start)[0].1;
              && start < end <= |text| && Runs(text, start)[1..] == Runs(text, end)
              && (done + Kept(TrimSpace(text[start..end]))) + Sentences(text[end..])
                 == done + Sentences(text[start..])
  {
    hide Sentences, Runs, Kept, TrimSpace, FirstEnd, FirstTerminator;
    var rest := text[start..];
    RunsStep(text, start);
    SentencesStep(rest);
    if FirstTerminator(rest) < |rest| {
      var end := start + FirstEnd(rest);
      Reslice(text, start, 0, FirstEnd(rest));
      Reslice(text, start, FirstEnd(rest), |rest|);
      assert rest[..FirstEnd(rest)] == text[start..end] && rest[FirstEnd(rest)..] == text[end..];
      Associate(done, Kept(TrimSpace(text[start..end])), Sentences(text[end..]));
    }
  }

  method SplitSentences(text: string) returns (sentences: seq<string>)
    ensures sentences == Sentences(text)
  {
    sentences := [];
    var start := 0;
    var matches := Runs(text, 0);
    ghost var all := Sentences(text);
    assert text[0..] == text;
    for m := 0 to |matches|
      invariant start <= |text|
      invariant matches[m..] == Runs(text, start)
      invariant sentences + Sentences(text[start..]) == all
    {
      SplitStep(text, start, sentences);
      var end := matches[m].1;
      assert matches[m..][0] == matches[m] && matches[m..][1..] == matches[m + 1..];
      sentences := KeepSentence(sentences, TrimSpace(text[start..end]));
      start := end;
    }
    SplitStep(text, start, sentences);
    sentences := KeepSentence(sentences, TrimSpace(text[start..]));
  }

  method KeepSentence(sentences: seq<string>, s: string) returns (kept: seq<string>)
    ensures kept == sentences + Kept(s)
  {
    kept := if s != "" then sentences + [s] else sentences;
  }

  /** Overlapping windows of sentences. */
  function Windows(ss: seq<string>): seq<seq<string>>
    decreases |ss|
  {
    if ss == [] then []
    else if |ss| <= CHUNK_SIZE then [ss]
    else [ss[..CHUNK_SIZE]] + Windows(ss[STRIDE..])
  }

  function JoinAll(lists: seq<seq<string>>): (r: seq<string>)
    ensures |r| == |lists|
  {
    seq(|lists|, i requires 0 <= i < |lists| => Join(lists[i], SPACE))
  }

  /** The chunk texts of a document. */
  function Sections(text: string): seq<string> {
    JoinAll(Windows(Sentences(text)))
  }

  lemma WindowStep(ss: seq<string>, start: nat)
    requires start < |ss|
    ensures Windows(ss[start..]) ==
              if start + CHUNK_SIZE >= |ss| then [ss[start..]]
              else [ss[start..start + CHUNK_SIZE]] + Windows(ss[start + STRIDE..])
  {
    if start + CHUNK_SIZE < |ss| {
      assert ss[start..][..CHUNK_SIZE] == ss[start..start + CHUNK_SIZE];
      assert ss[start..][STRIDE..] == ss[start + STRIDE..];
    }
  }

  lemma JoinStep(lists: seq<seq<string>>)
    requires lists != []
    ensures JoinAll(lists) == [Join(lists[0], SPACE)] + JoinAll(lists[1..])
  {
    hide Join;
  }

  lemma ChunkStep(chunks: seq<string>, ss: seq<string>, start: nat)
    requires start < |ss|
    ensures start + CHUNK_SIZE >= |ss| ==>
              chunks + JoinAll(Windows(ss[start..])) == chunks + [Join(ss[start..], SPACE)]
    ensures start + CHUNK_SIZE < |ss| ==>
              chunks + JoinAll(Windows(ss[start..])) ==
              (chunks + [Join(ss[start..start + CHUNK_SIZE], SPACE)]) + JoinAll(Windows(ss[start + STRIDE..]))
  {
    WindowStep(ss, start);
    var ws := Windows(ss[start..]);
    hide Windows, Join, JoinAll;
    JoinStep(ws);
    if start + CHUNK_SIZE >= |ss| {
      assert ws[1..] == [] && JoinAll([]) == [];
    } else {
      assert ws[1..] == Windows(ss[start + STRIDE..]);
      Associate(chunks, [Join(ws[0], SPACE)], JoinAll(ws[1..]));
    }
  }

  method Chunk(text: string) returns (chunks: seq<string>)
    ensures chunks == Sections(text)
  {
    var sentences := SplitSentences(text);
    if |sentences| == 0 {
      return [];
    }
    chunks := [];
    var start := 0;
    assert sentences[0..] == sentences && [] + Sections(text) == Sections(text);
    hide Windows, Join, JoinAll, Sentences;
    while start < |sentences|
      invariant start < |sentences|
      invariant chunks + JoinAll(Windows(sentences[start..])) == Sections(text)
    {
      ChunkStep(chunks, sentences, start);
      var end := start + CHUNK_SIZE;
      if end > |sentences| {
        end := |sentences|;
      }
      assert end == |sentences| ==> sentences[start..end] == sentences[start..];
      chunks := chunks + [Join(sentences[start..end], SPACE)];
      if end == |sentences| {
        break;
      }
      start := start + STRIDE;
    }
  }

  // ---- what the matches are

  predicate InMatch(ms: seq<(nat, nat)>, i: int) {
    exists m :: 0 <= m < |ms| && ms[m].0 <= i < ms[m].1
  }

  /** From `at` on every terminator lies in a match, matches hold nothing else, and two
      matches never touch, so each is as long as it can be. */
  predicate MaximalRuns(text: string, at: nat, ms: seq<(nat, nat)>) {
    && (forall m | 0 <= m < |ms| :: at <= ms[m].0 < ms[m].1 <= |text|)
    && (forall m, n | 0 <= m < n < |ms| :: ms[m].1 < ms[n].0)
    && (forall i | at <= i < |text| :: IsTerminator(text[i]) <==> InMatch(ms, i))
  }

  lemma ExtendRuns(text: string, at: nat, k: nat, e: nat, later: seq<(nat, nat)>)
    requires at <= k < e <= |text| && MaximalRuns(text, e, later)
    requires forall i | at <= i < k :: !IsTerminator(text[i])
    requires forall i | k <= i < e :: IsTerminator(text[i])
    requires e < |text| ==> !IsTerminator(text[e])
    ensures MaximalRuns(text, at, [(k, e)] + later)
  {
    var ms := [(k, e)] + later;
    forall m | 0 <= m < |later| ensures e < later[m].0 {
      assert later[m].0 == e ==> InMatch(later, e);
    }
    forall i | at <= i < |text| ensures IsTerminator(text[i]) <==> InMatch(ms, i) {
      if k <= i < e {
        assert ms[0].0 <= i < ms[0].1;
      } else if e <= i && InMatch(later, i) {
        var m :| 0 <= m < |later| && later[m].0 <= i < later[m].1;
        assert ms[m + 1] == later[m];
      }
    }
  }

  lemma NoRun(text: string, at: nat)
    requires at <= |text| && FirstTerminator(text[at..]) == |text[at..]|
    ensures forall i | at <= i < |text| :: !IsTerminator(text[i])
  {
    FirstTerminatorFacts(text[at..]);
    hide FirstTerminator, IsTerminator;
    forall i | at <= i < |text| ensures !IsTerminator(text[i]) {
      assert text[at..][i - at] == text[i];
    }
  }

  lemma FirstRun(text: string, at: nat)
    requires at <= |text| && FirstTerminator(text[at..]) < |text[at..]|
    ensures var k, e := at + FirstTerminator(text[at..]), at + FirstEnd(text[at..]);
            && at <= k < e <= |text|
            && (forall i | at <= i < k :: !IsTerminator(text[i]))
            && (forall i | k <= i < e :: IsTerminator(text[i]))
            && (e < |text| ==> !IsTerminator(text[e]))
  {
    var rest := text[at..];
    FirstEndFacts(rest);
    var k, e := at + FirstTerminator(rest), at + FirstEnd(rest);
    hide FirstTerminator, FirstEnd, IsTerminator;
    forall i | at <= i < k ensures !IsTerminator(text[i]) {
      assert rest[i - at] == text[i];
    }
    forall i | k <= i < e ensures IsTerminator(text[i]) {
      assert rest[i - at] == text[i];
    }
    assert e < |text| ==> rest[e - at] == text[e];
  }

  lemma NextRun(text: string, at: nat)
    requires at <= |text|
    ensures Runs(text, at) == [] ==> forall i | at <= i < |text| :: !IsTerminator(text[i])
    ensures Runs(text, at) != [] ==>
              var (k, e) := Runs(text, at)[0];
              && at <= k < e <= |text| && Runs(text, at) == [(k, e)] + Runs(text, e)
              && (forall i | at <= i < k :: !IsTerminator(text[i]))
              && (forall i | k <= i < e :: IsTerminator(text[i]))
              && (e < |text| ==> !IsTerminator(text[e]))
  {
    hide FirstTerminator, FirstEnd, IsTerminator, Runs;
    RunsStep(text, at);
    if FirstTerminator(text[at..]) < |text[at..]| {
      FirstRun(text, at);
      assert Runs(text, at)[0] == (at + FirstTerminator(text[at..]), at + FirstEnd(text[at..]));
    } else {
      NoRun(text, at);
    }
  }

  lemma {:induction false} RunsAreTheMaximalRuns(text: string, at: nat)
    requires at <= |text|
    ensures MaximalRuns(text, at, Runs(text, at))
    decreases |text| - at
  {
    NextRun(text, at);
    var ms := Runs(text, at);
    if ms != [] {
      RunsAreTheMaximalRuns(text, ms[0].1);
      ExtendRuns(text, at, ms[0].0, ms[0].1, Runs(text, ms[0].1));
    }
  }

  // ---- the shape of sentences

  lemma {:induction false} FirstTerminatorFacts(s: string)
    ensures forall i | 0 <= i < FirstTerminator(s) :: !IsTerminator(s[i])
  {
    if s != [] && !IsTerminator(s[0]) {
      FirstTerminatorFacts(s[1..]);
      assert forall i | 1 <= i < FirstTerminator(s) :: s[i] == s[1..][i - 1];
    }
  }

  lemma {:induction false} RunLengthFacts(s: string)
    ensures forall i | 0 <= i < RunLength(s) :: IsTerminator(s[i])
  {
    if s != [] && IsTerminator(s[0]) {
      RunLengthFacts(s[1..]);
      assert forall i | 1 <= i < RunLength(s) :: s[i] == s[1..][i - 1];
    }
  }

  /** A run of terminators within the rest of a text, seen from the whole text. */
  lemma RunWithin(s: string, k: nat, n: nat)
    requires k + n <= |s| && forall i | 0 <= i < n :: IsTerminator(s[k..][i])
    requires n < |s[k..]| ==> !IsTerminator(s[k..][n])
    ensures forall i | k <= i < k + n :: IsTerminator(s[i])
    ensures k + n < |s| ==> !IsTerminator(s[k + n])
  {
    hide IsTerminator;
    forall i | k <= i < k + n ensures IsTerminator(s[i]) {
      assert s[i] == s[k..][i - k];
    }
  }

  lemma FirstEndFacts(s: string)
    requires FirstTerminator(s) < |s|
    ensures forall i | 0 <= i < FirstTerminator(s) :: !IsTerminator(s[i])
    ensures forall i | FirstTerminator(s) <= i < FirstEnd(s) :: IsTerminator(s[i])
    ensures FirstEnd(s) < |s| ==> !IsTerminator(s[FirstEnd(s)])
  {
    hide FirstTerminator, RunLength, IsTerminator;
    var k := FirstTerminator(s);
    FirstTerminatorFacts(s);
    RunLengthFacts(s[k..]);
    RunWithin(s, k, RunLength(s[k..]));
  }

  /** Trimming cuts off white space and stops at the first other character. */
  lemma {:induction false} TrimLeftFacts(s: string)
    ensures var r := TrimLeft(s);
            && (r == [] || !IsSpace(r[0])) && r == s[|s| - |r|..]
            && forall i | 0 <= i < |s| - |r| :: IsSpace(s[i])
  {
    if s != [] && IsSpace(s[0]) {
      TrimLeftFacts(s[1..]);
      assert forall i | 1 <= i < |s| :: s[i] == s[1..][i - 1];
    }
  }

  lemma {:induction false} TrimRightFacts(s: string)
    ensures var r := TrimRight(s);
            && (r == [] || !IsSpace(r[|r| - 1])) && r == s[..|r|]
            && forall i | |r| <= i < |s| :: IsSpace(s[i])
  {
    if s != [] && IsSpace(s[|s| - 1]) {
      TrimRightFacts(s[..|s| - 1]);
    }
  }

  /** Some non-terminators, then at least one terminator, then nothing; no space first. */
  predicate Closed(s: string) {
    s != [] && !IsSpace(s[0]) && FirstTerminator(s) < |s| && FirstEnd(s) == |s|
  }

  /** No terminator, and no space at either end. */
  predicate Unfinished(s: string) {
    s != [] && !IsSpace(s[0]) && !IsSpace(s[|s| - 1]) && FirstTerminator(s) == |s|
  }

  /** What a splitter may return: closed sentences, the last one perhaps unfinished. */
  predicate WellFormed(ss: seq<string>) {
    forall i | 0 <= i < |ss| :: Closed(ss[i]) || (i == |ss| - 1 && Unfinished(ss[i]))
  }

  lemma {:induction false} FirstTerminatorIs(s: string, k: nat)
    requires k <= |s| && forall i | 0 <= i < k :: !IsTerminator(s[i])
    requires k < |s| ==> IsTerminator(s[k])
    ensures FirstTerminator(s) == k
  {
    if k > 0 {
      FirstTerminatorIs(s[1..], k - 1);
    }
  }

  lemma {:induction false} RunLengthIs(s: string, n: nat)
    requires n <= |s| && forall i | 0 <= i < n :: IsTerminator(s[i])
    requires n < |s| ==> !IsTerminator(s[n])
    ensures RunLength(s) == n
  {
    if n > 0 {
      RunLengthIs(s[1..], n - 1);
    }
  }

  lemma FirstEndIs(s: string, k: nat, e: nat)
    requires k < e <= |s| && forall i | 0 <= i < k :: !IsTerminator(s[i])
    requires forall i | k <= i < e :: IsTerminator(s[i])
    requires e < |s| ==> !IsTerminator(s[e])
    ensures FirstTerminator(s) == k && FirstEnd(s) == e
  {
    FirstTerminatorIs(s, k);
    RunLengthIs(s[k..], e - k);
  }

  lemma TerminatorIsNoSpace(c: char)
    ensures IsTerminator(c) ==> !IsSpace(c)
  {
  }

  lemma TrimRightIdle(t: string)
    requires t != [] && !IsSpace(t[|t| - 1])
    ensures TrimRight(t) == t
  {
  }

  lemma EndsInTerminator(s: string)
    requires FirstTerminator(s) < |s| && FirstEnd(s) == |s|
    ensures IsTerminator(s[|s| - 1]) && !IsSpace(s[|s| - 1])
  {
    FirstEndFacts(s);
    TerminatorIsNoSpace(s[|s| - 1]);
  }

  lemma {:induction false} ClosedFromRaw(s: string)
    requires FirstTerminator(s) < |s| && FirstEnd(s) == |s|
    ensures Closed(TrimSpace(s))
    decreases |s|
  {
    if IsSpace(s[0]) {
      TerminatorIsNoSpace(s[0]);
      Reslice(s, 1, FirstTerminator(s) - 1, |s| - 1);
      ClosedFromRaw(s[1..]);
    } else {
      EndsInTerminator(s);
      TrimRightIdle(s);
    }
  }

  lemma SuffixOf(s: string, t: string)
    requires |t| <= |s| && t == s[|s| - |t|..]
    ensures forall i | 0 <= i < |t| :: t[i] == s[|s| - |t| + i]
  {
  }

  lemma UnfinishedFromRaw(s: string)
    requires FirstTerminator(s) == |s| && TrimSpace(s) != ""
    ensures Unfinished(TrimSpace(s))
  {
    var l, t := TrimLeft(s), TrimSpace(s);
    TrimLeftFacts(s);
    TrimRightFacts(l);
    FirstTerminatorFacts(s);
    hide TrimLeft, TrimRight, FirstTerminator, IsTerminator, IsSpace;
    SuffixOf(s, l);
    assert forall i | 0 <= i < |t| :: t[i] == l[i];
    FirstTerminatorIs(t, |t|);
  }

  lemma HeadOfPrefix(s: string)
    requires FirstTerminator(s) < |s|
    ensures var h := s[..FirstEnd(s)]; FirstTerminator(h) < |h| && FirstEnd(h) == |h|
  {
    FirstEndFacts(s);
    FirstEndIs(s[..FirstEnd(s)], FirstTerminator(s), FirstEnd(s));
  }

  lemma {:induction false} SentencesAreWellFormed(text: string)
    ensures WellFormed(Sentences(text))
    decreases |text|
  {
    if FirstTerminator(text) == |text| {
      if TrimSpace(text) != "" {
        UnfinishedFromRaw(text);
      }
    } else {
      HeadOfPrefix(text);
      ClosedFromRaw(text[..FirstEnd(text)]);
      SentencesAreWellFormed(text[FirstEnd(text)..]);
    }
  }

  // ---- joining undoes splitting

  lemma LeadingSpace(t: string)
    ensures Sentences(" " + t) == Sentences(t)
  {
    var s := " " + t;
    assert s[1..] == t;
    assert forall i | 1 <= i < |s| :: s[i] == t[i - 1];
    assert FirstTerminator(s) == 1 + FirstTerminator(t);
    if FirstTerminator(t) == |t| {
      assert TrimLeft(s) == TrimLeft(t);
    } else {
      FirstEndFacts(t);
      FirstEndIs(s, 1 + FirstTerminator(t), 1 + FirstEnd(t));
      var h := s[..FirstEnd(s)];
      assert h[0] == ' ' && h[1..] == t[..FirstEnd(t)];
      assert TrimLeft(h) == TrimLeft(h[1..]);
      assert s[FirstEnd(s)..] == t[FirstEnd(t)..];
    }
  }

  lemma TrimIsIdle(s: string)
    requires Closed(s) || Unfinished(s)
    ensures TrimSpace(s) == s
  {
    if Closed(s) {
      FirstEndFacts(s);
      assert IsTerminator(s[|s| - 1]);
    }
    assert TrimLeft(s) == s;
  }

  /** A closed sentence is split off what follows it. */
  lemma SentenceFirst(s: string, rest: string)
    requires Closed(s)
    ensures Sentences(s + (" " + rest)) == [s] + Sentences(" " + rest)
  {
    var t := s + (" " + rest);
    FirstEndFacts(s);
    FirstEndIs(t, FirstTerminator(s), |s|);
    TrimIsIdle(s);
    SentencesStep(t);
    hide Sentences, FirstTerminator, FirstEnd, TrimSpace, Closed;
    assert t[..|s|] == s && t[|s|..] == " " + rest;
  }

  lemma OneSentence(s: string)
    requires Closed(s) || Unfinished(s)
    ensures Sentences(s) == [s]
  {
    TrimIsIdle(s);
    if Closed(s) {
      assert s[..|s|] == s && s[|s|..] == "";
      assert Sentences("") == [];
    }
    hide TrimSpace;
  }

  lemma RestIsWellFormed(ss: seq<string>)
    requires WellFormed(ss) && |ss| > 1
    ensures Closed(ss[0]) && WellFormed(ss[1..])
  {
    hide Closed, Unfinished;
  }

  /** Splitting a joined list of sentences gives the list back. */
  lemma {:induction false} SplitUndoesJoin(ss: seq<string>)
    requires WellFormed(ss)
    ensures Sentences(Join(ss, SPACE)) == ss
    decreases |ss|
  {
    if |ss| == 0 {
      assert Sentences("") == [];
    } else if |ss| == 1 {
      hide Sentences, Closed, Unfinished;
      OneSentence(ss[0]);
    } else {
      hide Sentences, Closed, WellFormed;
      RestIsWellFormed(ss);
      var s, rest := ss[0], Join(ss[1..], SPACE);
      SentenceFirst(s, rest);
      LeadingSpace(rest);
      SplitUndoesJoin(ss[1..]);
      assert Join(ss, SPACE) == s + SPACE + rest;
      hide Join;
      Associate(s, SPACE, rest);
      assert ss == [s] + ss[1..];
    }
  }

  // ---- windows

  /** Where window k ends. */
  function WindowEnd(n: nat, k: nat): nat {
    if k == (if n < 4 then 1 else n / 2) - 1 then n else STRIDE * k + CHUNK_SIZE
  }

  /** Where each window lies, and how many there are. */
  lemma {:induction false} WindowShape(ss: seq<string>)
    requires ss != []
    ensures |Windows(ss)| == if |ss| < 4 then 1 else |ss| / 2
    ensures forall k: nat | k < |Windows(ss)| ::
              STRIDE * k < WindowEnd(|ss|, k) <= |ss| && Windows(ss)[k] == ss[STRIDE * k..WindowEnd(|ss|, k)]
    ensures forall k: nat | k < |Windows(ss)| - 1 :: WindowEnd(|ss|, k) == STRIDE * k + CHUNK_SIZE
    decreases |ss|
  {
    if |ss| > CHUNK_SIZE {
      var rest := ss[STRIDE..];
      WindowShape(rest);
      assert Windows(ss) == [ss[..CHUNK_SIZE]] + Windows(rest);
      hide Windows;
      forall k: nat | k < |Windows(ss)|
        ensures STRIDE * k < WindowEnd(|ss|, k) <= |ss| && Windows(ss)[k] == ss[STRIDE * k..WindowEnd(|ss|, k)]
      {
        if k > 0 {
          assert Windows(ss)[k] == Windows(rest)[k - 1];
          Reslice(ss, STRIDE, STRIDE * (k - 1), WindowEnd(|rest|, k - 1));
        }
      }
    }
  }

  lemma Reslice<T>(s: seq<T>, drop: nat, from: nat, to: nat)
    requires drop <= |s| && from <= to <= |s| - drop
    ensures s[drop..][from..to] == s[drop + from..drop + to]
    ensures to == |s| - drop ==> s[drop..][from..] == s[drop + from..]
  {
  }

  /** Each list without its first element, one after the other. */
  function DropFirsts(lists: seq<seq<string>>): seq<string> {
    if lists == [] then []
    else (if lists[0] == [] then [] else lists[0][1..]) + DropFirsts(lists[1..])
  }

  lemma DropFirstsStep(first: seq<string>, rest: seq<seq<string>>)
    requires first != []
    ensures DropFirsts([first] + rest) == first[1..] + DropFirsts(rest)
  {
    assert ([first] + rest)[1..] == rest;
  }

  lemma {:induction false} WindowsCover(ss: seq<string>)
    requires ss != []
    ensures DropFirsts(Windows(ss)) == ss[1..]
    decreases |ss|
  {
    if |ss| > CHUNK_SIZE {
      var first, rest := ss[..CHUNK_SIZE], ss[STRIDE..];
      WindowsCover(rest);
      assert Windows(ss) == [first] + Windows(rest);
      hide Windows, DropFirsts;
      DropFirstsStep(first, Windows(rest));
      Reslice(ss, STRIDE, 1, |rest|);
      assert rest[1..] == ss[CHUNK_SIZE..] && first[1..] == ss[1..CHUNK_SIZE];
      assert ss[1..CHUNK_SIZE] + ss[CHUNK_SIZE..] == ss[1..];
    } else {
      assert Windows(ss)[1..] == [];
    }
  }

  function SplitAll(chunks: seq<string>): (r: seq<seq<string>>)
    ensures |r| == |chunks|
  {
    seq(|chunks|, i requires 0 <= i < |chunks| => Sentences(chunks[i]))
  }

  lemma SliceIsWellFormed(ss: seq<string>, from: nat, to: nat)
    requires WellFormed(ss) && from <= to <= |ss|
    ensures WellFormed(ss[from..to])
  {
    hide Closed, Unfinished;
    forall i | 0 <= i < to - from
      ensures Closed(ss[from..to][i]) || (i == to - from - 1 && Unfinished(ss[from..to][i]))
    {
      assert ss[from..to][i] == ss[from + i];
    }
  }

  /** Splitting each chunk again gives its window; so the windows can be read off the
      chunks. */
  lemma ChunksSplitBack(text: string)
    ensures SplitAll(Sections(text)) == Windows(Sentences(text))
  {
    var ss := Sentences(text);
    var ws := Windows(ss);
    SentencesAreWellFormed(text);
    if ss != [] {
      WindowShape(ss);
    }
    hide Sentences, Windows, Join, WellFormed, WindowEnd;
    forall k: nat | k < |ws| ensures SplitAll(Sections(text))[k] == ws[k] {
      SliceIsWellFormed(ss, STRIDE * k, WindowEnd(|ss|, k));
      SplitUndoesJoin(ws[k]);
    }
  }

  /** The first chunk's sentences, then those of every later chunk but its first, are
      the sentences of the text. */
  lemma ChunksRebuildSentences(text: string)
    requires Sentences(text) != []
    ensures var parts := SplitAll(Sections(text));
            && parts != []
            && parts[0] + DropFirsts(parts[1..]) == Sentences(text)
  {
    ChunksSplitBack(text);
    var ss := Sentences(text);
    var ws := Windows(ss);
    WindowsCover(ss);
    if |ss| > CHUNK_SIZE {
      WindowsCover(ss[STRIDE..]);
      assert ws[1..] == Windows(ss[STRIDE..]);
      assert ss[..CHUNK_SIZE] + ss[STRIDE..][1..] == ss;
    }
  }

  /** A text of n sentences has max(1, n/2) chunks; all but the last split into three. */
  lemma ChunkCount(text: string)
    ensures var n := |Sentences(text)|;
            |Sections(text)| == if n == 0 then 0 else if n < 2 then 1 else n / 2
    ensures forall k | 0 <= k < |Sections(text)| - 1 :: |Sentences(Sections(text)[k])| == CHUNK_SIZE
  {
    ChunksSplitBack(text);
    if Sentences(text) != [] {
      WindowShape(Sentences(text));
      forall k | 0 <= k < |Sections(text)| - 1 ensures |Sentences(Sections(text)[k])| == CHUNK_SIZE {
        assert SplitAll(Sections(text))[k] == Windows(Sentences(text))[k];
      }
    }
  }

  // ---- nothing but white space is lost

  function NonSpace(s: string): string {
    if s == [] then [] else if IsSpace(s[0]) then NonSpace(s[1..]) else [s[0]] + NonSpace(s[1..])
  }

  function Flat(ss: seq<string>): string {
    if ss == [] then "" else ss[0] + Flat(ss[1..])
  }

  lemma {:induction false} NonSpaceOfSum(a: string, b: string)
    ensures NonSpace(a + b) == NonSpace(a) + NonSpace(b)
  {
    if a == [] {
      assert a + b == b;
    } else {
      NonSpaceOfSum(a[1..], b);
      assert (a + b)[1..] == a[1..] + b && (a + b)[0] == a[0];
      if !IsSpace(a[0]) {
        var x, y := NonSpace(a[1..]), NonSpace(b);
        assert NonSpace(a + b) == [a[0]] + (x + y) == ([a[0]] + x) + y;
      }
    }
  }

  lemma {:induction false} TrimRightKeeps(s: string)
    ensures NonSpace(TrimRight(s)) == NonSpace(s)
  {
    if s != [] && IsSpace(s[|s| - 1]) {
      TrimRightKeeps(s[..|s| - 1]);
      assert s == s[..|s| - 1] + [s[|s| - 1]];
      NonSpaceOfSum(s[..|s| - 1], [s[|s| - 1]]);
    }
  }

  lemma TrimKeeps(s: string)
    ensures NonSpace(TrimSpace(s)) == NonSpace(s)
  {
    var a := |s| - |TrimLeft(s)|;
    TrimLeftFacts(s);
    assert s == s[..a] + s[a..];
    NonSpaceOfSum(s[..a], s[a..]);
    OnlySpace(s[..a]);
    TrimRightKeeps(s[a..]);
  }

  lemma {:induction false} OnlySpace(s: string)
    requires forall i | 0 <= i < |s| :: IsSpace(s[i])
    ensures NonSpace(s) == []
  {
    if s != [] {
      OnlySpace(s[1..]);
    }
  }

  /** The characters of the text that are not white space are those of its sentences,
      in order. */
  lemma {:induction false} SentencesConserveText(text: string)
    ensures NonSpace(Flat(Sentences(text))) == NonSpace(text)
    decreases |text|
  {
    if FirstTerminator(text) == |text| {
      TrimKeeps(text);
      assert Flat([TrimSpace(text)]) == TrimSpace(text) + "" == TrimSpace(text);
    } else {
      var h, t := text[..FirstEnd(text)], text[FirstEnd(text)..];
      HeadOfPrefix(text);
      ClosedFromRaw(h);
      SentencesConserveText(t);
      TrimKeeps(h);
      assert text == h + t;
      NonSpaceOfSum(h, t);
      NonSpaceOfSum(TrimSpace(h), Flat(Sentences(t)));
      assert Sentences(text)[1..] == Sentences(t);
    }
  }

  // ---- an example

  lemma ExampleSentences()
    ensures Closed("One.") && Closed("Two?!") && Closed("Three.") && Unfinished("Four")
  {
    FirstTerminatorIs("One.", 3);
    FirstEndIs("One.", 3, 4);
    FirstTerminatorIs("Two?!", 3);
    FirstEndIs("Two?!", 3, 5);
    FirstTerminatorIs("Three.", 5);
    FirstEndIs("Three.", 5, 6);
    FirstTerminatorIs("Four", 4);
  }

  /** Three sentences to a chunk, the last one again in the next, with one space between
      them whatever stood there before. */
  lemma ExampleChunks()
    ensures Sections("One. Two?! Three. Four") == ["One. Two?! Three.", "Three. Four"]
  {
    ExampleSentences();
    hide Closed, Unfinished, Sentences;
    var ss := ["One.", "Two?!", "Three.", "Four"];
    SplitUndoesJoin(ss);
    assert ss[..3] == ["One.", "Two?!", "Three."] && ss[2..] == ["Three.", "Four"];
    JoinThree("One.", "Two?!", "Three.");
    JoinTwo("Three.", "Four");
    JoinFour("One.", "Two?!", "Three.", "Four");
    assert Windows(ss) == [ss[..3], ss[2..]];
    assert "One. Two?! Three. Four" == "One." + " " + ("Two?!" + " " + ("Three." + " " + "Four"));
    assert "One. Two?! Three." == "One." + " " + ("Two?!" + " " + "Three.");
    assert "Three. Four" == "Three." + " " + "Four";
    hide Windows, Join;
    assert JoinAll([ss[..3], ss[2..]]) == [Join(ss[..3], SPACE), Join(ss[2..], SPACE)];
  }

  lemma JoinTwo(a: string, b: string)
    ensures Join([a, b], SPACE) == a + " " + b
  {
    assert [a, b][1..] == [b];
  }

  lemma JoinThree(a: string, b: string, c: string)
    ensures Join([a, b, c], SPACE) == a + " " + (b + " " + c)
  {
    assert [a, b, c][1..] == [b, c];
    JoinTwo(b, c);
  }

  lemma JoinFour(a: string, b: string, c: string, d: string)
    ensures Join([a, b, c, d], SPACE) == a + " " + (b + " " + (c + " " + d))
  {
    assert [a, b, c, d][1..] == [b, c, d];
    JoinThree(b, c, d);
  }
}
