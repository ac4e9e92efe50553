/** Summaries: one call for a short text, and for a long one a call for each section and
    one more on what came back. Texts are bytes, as the code measures and cuts them. */
module Summarizer {
  import opened Wrappers
  import opened Sequences
  import opened Arithmetic

  newtype byte = x: int | 0 <= x < 256
  type Text = seq<byte>

  const DEFAULT_MAX_TOKENS := 12000
  const OPEN_TAG: Text := [60, 100, 111, 99, 117, 109, 101, 110, 116, 62]
  const CLOSE_TAG: Text := [60, 47, 100, 111, 99, 117, 109, 101, 110, 116, 62]
  const SEPARATOR: Text := [10, 10]

  /** The machine integers the code counts with. */
  const TWO_63 := 0x8000_0000_0000_0000
  type Int64 = x: int | -TWO_63 <= x < TWO_63

  function Wrap(x: int): Int64 {
    (x + TWO_63) % (2 * TWO_63) - TWO_63
  }

  function EstimateTokens(text: Text): nat {
    |text| / 4
  }

  function WrapDocument(raw: Text): Text {
    OPEN_TAG + raw + CLOSE_TAG
  }

  /** The bytes of a text in ASCII. */
  function Bytes(s: string): Text
    requires forall c | c in s :: c as int < 128
  {
    seq(|s|, i requires 0 <= i < |s| => assert s[i] in s; s[i] as int as byte)
  }

  /** The tags are those of a document, and the answers are joined by an empty line. */
  lemma PromptsAreDocuments(raw: Text)
    ensures WrapDocument(raw) == Bytes("<document>") + raw + Bytes("</document>")
    ensures SEPARATOR == Bytes("\n\n")
  {
    assert OPEN_TAG == Bytes("<document>") && CLOSE_TAG == Bytes("</document>");
  }

  /** The length of a section; a product that wraps around falls back to the default. */
  function SectionChars(maxTokens: Int64): (r: Int64) {
    var chars := Wrap(maxTokens * 2);
    if chars <= 0 then DEFAULT_MAX_TOKENS * 2 else chars
  }

  lemma SectionCharsIsTwice(maxTokens: Int64)
    requires maxTokens > 0
    ensures SectionChars(maxTokens) == if maxTokens < TWO_63 / 2 then 2 * maxTokens else 24000
  {
  }

  // ---- where a text may be cut

  /** A terminator ends here and a space follows. */
  predicate Boundary(text: Text, i: int) {
    0 < i < |text| && (text[i - 1] == 46 || text[i - 1] == 33 || text[i - 1] == 63) && text[i] == 32
  }

  lemma BoundariesEndSentences(text: Text, i: int)
    ensures Boundary(text, i) <==> 0 < i < |text| && text[i - 1] in Bytes(".!?") && [text[i]] == Bytes(" ")
  {
    assert Bytes(".!?") == [46, 33, 63] && Bytes(" ") == [32];
  }

  /** The last boundary in the window, or the limit if the window has none. */
  predicate WellCut(text: Text, limit: int, cut: int) {
    && 0 < cut <= limit && (Boundary(text, cut) || cut == limit)
    && forall i | 0 < i <= limit && Boundary(text, i) :: i <= cut
  }

  method CutAtSentenceBoundary(text: Text, maxChars: int) returns (cut: int)
    requires 0 < maxChars && text != []
    ensures WellCut(text, if maxChars > |text| then |text| else maxChars, cut)
  {
    var limit := maxChars;
    if limit > |text| {
      limit := |text|;
    }
    var i := limit;
    while i > 0
      invariant 0 <= i <= limit && forall k | i < k <= limit :: !Boundary(text, k)
    {
      var c := text[i - 1];
      if c == 46 || c == 33 || c == 63 {
        if i < |text| && text[i] == 32 {
          return i;
        }
      }
      i := i - 1;
    }
    cut := limit;
  }

  // ---- how a text is split

  /** The pieces the text is split into: each but the last is cut as above from what was
      left, and the last one fits. */
  ghost predicate Split(text: Text, limit: int, pieces: seq<Text>)
    decreases |pieces|
  {
    if |text| <= limit then pieces == if text == [] then [] else [text]
    else
      && pieces != [] && WellCut(text, limit, |pieces[0]|)
      && pieces[0] == text[..|pieces[0]|] && Split(text[|pieces[0]|..], limit, pieces[1..])
  }

  /** They are a partition of the text into pieces that are not empty and not too long. */
  lemma SplitIsAPartition(text: Text, limit: int, pieces: seq<Text>)
    requires limit > 0 && Split(text, limit, pieces)
    ensures Flatten(pieces) == text && forall k | 0 <= k < |pieces| :: 0 < |pieces[k]| <= limit
  {
    PiecesRebuild(text, limit, pieces);
    PieceLengths(text, limit, pieces);
  }

  lemma {:induction false} PiecesRebuild(text: Text, limit: int, pieces: seq<Text>)
    requires limit > 0 && Split(text, limit, pieces)
    ensures Flatten(pieces) == text
    decreases |pieces|
  {
    if |text| > limit {
      var first, rest := pieces[0], pieces[1..];
      PiecesRebuild(text[|first|..], limit, rest);
      hide Split, WellCut, Flatten;
      FlattenFirst(pieces);
      Cut(text, 0, |first|);
    } else if text != [] {
      FlattenOne(text);
    }
  }

  lemma {:induction false} PieceLengths(text: Text, limit: int, pieces: seq<Text>)
    requires limit > 0 && Split(text, limit, pieces)
    ensures forall k | 0 <= k < |pieces| :: 0 < |pieces[k]| <= limit
    decreases |pieces|
  {
    if |text| > limit {
      PieceLengths(text[|pieces[0]|..], limit, pieces[1..]);
      forall k | 0 <= k < |pieces| ensures 0 < |pieces[k]| <= limit {
        if k > 0 {
          assert pieces[k] == pieces[1..][k - 1];
        }
      }
    }
  }

  /** No two neighbours would fit into one section. */
  lemma {:induction false} NeighboursExceed(text: Text, limit: int, pieces: seq<Text>, k: nat)
    requires limit > 0 && Split(text, limit, pieces) && k + 1 < |pieces|
    ensures |pieces[k]| + |pieces[k + 1]| > limit
    decreases |pieces|
  {
    var rest := text[|pieces[0]|..];
    if k > 0 {
      NeighboursExceed(rest, limit, pieces[1..], k - 1);
    } else if |rest| > limit {
      var a, b := |pieces[0]|, |pieces[1]|;
      assert pieces[1..][0] == pieces[1] && WellCut(rest, limit, b);
      if a + b <= limit && Boundary(rest, b) {
        assert Boundary(text, a + b);
      }
    } else {
      assert pieces[1..] == [rest];
    }
  }

  /** Each two pieces use up more than a section's length. */
  lemma {:induction false} TwoPiecesEach(text: Text, limit: int, pieces: seq<Text>)
    requires limit > 0 && Split(text, limit, pieces)
    ensures |pieces| <= 2 * Quotient(|text|, limit + 1) + 1
    decreases |pieces|
  {
    hide Quotient, Split, WellCut;
    if |pieces| >= 2 {
      NeighboursExceed(text, limit, pieces, 0);
      Lengths(text, limit, pieces);
      var used := |pieces[0]| + |pieces[1]|;
      if |pieces| == 2 {
        OneMore(|text|, 0, limit + 1);
      } else {
        TwoPiecesEach(text[used..], limit, pieces[2..]);
        OneMore(|text|, |text| - used, limit + 1);
      }
    }
  }

  /** So there are not many more of them than twice the sections that fill the text. */
  lemma FewPieces(text: Text, limit: int, pieces: seq<Text>)
    requires limit > 0 && Split(text, limit, pieces)
    ensures |pieces| <= 2 * (|text| / (limit + 1)) + 1
  {
    hide Split;
    TwoPiecesEach(text, limit, pieces);
  }

  lemma Lengths(text: Text, limit: int, pieces: seq<Text>)
    requires limit > 0 && Split(text, limit, pieces) && |pieces| >= 2
    ensures |pieces[0]| + |pieces[1]| <= |text|
    ensures |pieces| > 2 ==> Split(text[|pieces[0]| + |pieces[1]|..], limit, pieces[2..])
  {
    var rest := text[|pieces[0]|..];
    assert pieces[1..][0] == pieces[1] && pieces[1..][1..] == pieces[2..];
    if |pieces| > 2 {
      assert rest[|pieces[1]|..] == text[|pieces[0]| + |pieces[1]|..];
    }
  }

  /** The text is no longer than its pieces could be. */
  lemma {:induction false} PiecesCover(text: Text, limit: int, pieces: seq<Text>)
    requires limit > 0 && Split(text, limit, pieces)
    ensures |text| <= |pieces| * limit
    decreases |pieces|
  {
    if |text| > limit {
      PiecesCover(text[|pieces[0]|..], limit, pieces[1..]);
      assert |pieces| * limit == (|pieces| - 1) * limit + limit;
    } else {
      Multiply(|pieces|, |pieces|, limit);
    }
  }

  /** A text too long for one call is split into three pieces at least. */
  lemma LongTextHasThree(text: Text, maxTokens: Int64, pieces: seq<Text>)
    requires maxTokens > 0 && 4 * (maxTokens + 1) <= |text| < TWO_63
    requires Split(text, SectionChars(maxTokens), pieces)
    ensures |pieces| >= 3
  {
    SectionCharsIsTwice(maxTokens);
    PiecesCover(text, SectionChars(maxTokens), pieces);
    if |pieces| <= 2 {
      Multiply(|pieces|, 2, SectionChars(maxTokens));
    }
  }

  lemma FirstPieceIsShorter(text: Text, limit: int, pieces: seq<Text>)
    requires limit > 0 && Split(text, limit, pieces) && |pieces| >= 2
    ensures |pieces[0]| < |text|
  {
    SplitIsAPartition(text, limit, pieces);
  }

  // ---- the calls

  /** What the model answers to its n-th prompt, or an error. */
  type Model = (nat, Text) -> Option<Text>

  class LLM {
    const model: Model
    var prompts: seq<Text>

    constructor (model: Model)
      ensures this.model == model && prompts == []
    {
      this.model, prompts := model, [];
    }

    method Summarize(prompt: Text) returns (out: Option<Text>)
      modifies this
      ensures prompts == old(prompts) + [prompt] && out == model(|old(prompts)|, prompt)
    {
      out := model(|prompts|, prompt);
      prompts := prompts + [prompt];
    }
  }

  /** The prompts of a long text do not begin with the whole text. */
  lemma AsksForPieces(before: seq<Text>, text: Text, limit: int, pieces: seq<Text>, more: seq<Text>)
    requires limit > 0 && Split(text, limit, pieces) && |pieces| >= 2
    requires more != [] && more[0] == WrapDocument(pieces[0])
    ensures before + more != before + [WrapDocument(text)]
  {
    FirstPieceIsShorter(text, limit, pieces);
    assert (before + more)[|before|] == more[0] && (before + [WrapDocument(text)])[|before|] == WrapDocument(text);
    assert |WrapDocument(pieces[0])| < |WrapDocument(text)|;
  }

  function Wrapped(pieces: seq<Text>): (prompts: seq<Text>)
    ensures |prompts| == |pieces|
  {
    seq(|pieces|, k requires 0 <= k < |pieces| => WrapDocument(pieces[k]))
  }

  /** The prompts number n onwards were answered so. */
  predicate Answered(model: Model, n: nat, prompts: seq<Text>, outs: seq<Text>) {
    |outs| == |prompts| && forall k | 0 <= k < |prompts| :: model(n + k, prompts[k]) == Some(outs[k])
  }

  lemma WrapOneMore(pieces: seq<Text>, k: nat)
    requires k < |pieces|
    ensures Wrapped(pieces[..k + 1]) == Wrapped(pieces[..k]) + [WrapDocument(pieces[k])]
    ensures Wrapped(pieces[..k + 1])[0] == WrapDocument(pieces[0]) == Wrapped(pieces)[0]
  {
  }

  lemma OneMoreAnswer(model: Model, n: nat, prompts: seq<Text>, outs: seq<Text>, prompt: Text, out: Text)
    requires Answered(model, n, prompts, outs) && model(n + |prompts|, prompt) == Some(out)
    ensures Answered(model, n, prompts + [prompt], outs + [out])
  {
  }

  class Summarizer {
    const maxTokens: Int64

    constructor (maxTokens: Int64)
      ensures this.maxTokens == (if maxTokens <= 0 then 12000 else maxTokens) && this.maxTokens > 0
    {
      this.maxTokens := if maxTokens <= 0 then DEFAULT_MAX_TOKENS else maxTokens;
    }

    method Direct(llm: LLM, raw: Text) returns (out: Option<Text>)
      modifies llm
      ensures llm.prompts == old(llm.prompts) + [WrapDocument(raw)]
      ensures out == llm.model(|old(llm.prompts)|, WrapDocument(raw))
    {
      out := llm.Summarize(WrapDocument(raw));
    }

    method SplitSections(text: Text) returns (sections: seq<Text>)
      requires maxTokens > 0
      ensures Split(text, SectionChars(maxTokens), sections)
    {
      var sectionChars := SectionChars(maxTokens);
      sections := [];
      var rest := text;
      assert forall tail: seq<Text> :: sections + tail == tail;
      while |rest| > 0
        invariant forall tail :: Split(rest, sectionChars, tail) ==> Split(text, sectionChars, sections + tail)
        decreases |rest|
      {
        if |rest| <= sectionChars {
          assert Split(rest, sectionChars, [rest]);
          sections := sections + [rest];
          return;
        }
        var cut := CutAtSentenceBoundary(rest, sectionChars);
        forall tail | Split(rest[cut..], sectionChars, tail)
          ensures Split(text, sectionChars, sections + [rest[..cut]] + tail)
        {
          var whole := [rest[..cut]] + tail;
          assert whole[1..] == tail;
          assert Split(rest, sectionChars, whole);
          Associate(sections, [rest[..cut]], tail);
        }
        sections := sections + [rest[..cut]];
        rest := rest[cut..];
      }
      assert Split(rest, sectionChars, []);
      assert sections + [] == sections;
    }

    /** A prompt for each section, up to the first error, and one on the joined answers. */
    method SummarizeAll(sections: seq<Text>, llm: LLM) returns (out: Option<Text>, ghost outs: seq<Text>)
      modifies llm
      ensures |outs| == |sections| ==>
                && Answered(llm.model, |old(llm.prompts)|, Wrapped(sections), outs)
                && llm.prompts == old(llm.prompts) + Wrapped(sections) + [WrapDocument(Join(outs, SEPARATOR))]
                && out == llm.model(|old(llm.prompts)| + |sections|, WrapDocument(Join(outs, SEPARATOR)))
      ensures |outs| != |sections| ==>
                && |outs| < |sections| && out == None
                && Answered(llm.model, |old(llm.prompts)|, Wrapped(sections[..|outs|]), outs)
                && llm.prompts == old(llm.prompts) + Wrapped(sections[..|outs| + 1])
                && llm.model(|old(llm.prompts)| + |outs|, WrapDocument(sections[|outs|])).None?
    {
      assert Answered(llm.model, |old(llm.prompts)|, [], []);
      hide WrapDocument, Wrapped, Answered;
      assert Wrapped(sections[..0]) == [];
      var combined: seq<Text> := [];
      for k := 0 to |sections|
        invariant |combined| == k && llm.prompts == old(llm.prompts) + Wrapped(sections[..k])
        invariant Answered(llm.model, |old(llm.prompts)|, Wrapped(sections[..k]), combined)
      {
        out := Direct(llm, sections[k]);
        WrapOneMore(sections, k);
        if out.None? {
          return None, combined;
        }
        OneMoreAnswer(llm.model, |old(llm.prompts)|, Wrapped(sections[..k]), combined, WrapDocument(sections[k]),
                      out.value);
        combined := combined + [out.value];
      }
      outs := combined;
      assert sections[..|sections|] == sections;
      var joined := JoinTexts(combined);
      out := Direct(llm, joined);
      Associate(old(llm.prompts), Wrapped(sections), [WrapDocument(joined)]);
    }

    /** A text of fewer than 4 * (maxTokens + 1) bytes takes one call, which asks for the
        whole text; no other does. A longer text takes one call for each of its sections,
        three at least, in order, and a last one on the joined answers; an error ends it at
        once. */
    method Summarize(text: Text, llm: LLM)
      returns (out: Option<Text>, ghost sections: seq<Text>, ghost outs: seq<Text>)
      requires maxTokens > 0 && |text| < TWO_63
      modifies llm
      ensures llm.prompts == old(llm.prompts) + [WrapDocument(text)] <==> |text| < 4 * (maxTokens + 1)
      ensures |text| < 4 * (maxTokens + 1) ==> out == llm.model(|old(llm.prompts)|, WrapDocument(text))
      ensures |text| >= 4 * (maxTokens + 1) ==> Split(text, SectionChars(maxTokens), sections) && |sections| >= 3
      ensures |text| >= 4 * (maxTokens + 1) && |outs| == |sections| ==>
                && Answered(llm.model, |old(llm.prompts)|, Wrapped(sections), outs)
                && llm.prompts == old(llm.prompts) + Wrapped(sections) + [WrapDocument(Join(outs, SEPARATOR))]
                && out == llm.model(|old(llm.prompts)| + |sections|, WrapDocument(Join(outs, SEPARATOR)))
      ensures |text| >= 4 * (maxTokens + 1) && |outs| != |sections| ==>
                && |outs| < |sections| && out == None
                && Answered(llm.model, |old(llm.prompts)|, Wrapped(sections[..|outs|]), outs)
                && llm.prompts == old(llm.prompts) + Wrapped(sections[..|outs| + 1])
                && llm.model(|old(llm.prompts)| + |outs|, WrapDocument(sections[|outs|])).None?
    {
      sections, outs := [], [];
      if EstimateTokens(text) <= maxTokens {
        out := Direct(llm, text);
        return;
      }
      var pieces := SplitSections(text);
      LongTextHasThree(text, maxTokens, pieces);
      hide Split, SectionChars, WrapDocument, Wrapped, Answered;
      sections := pieces;
      out, outs := SummarizeAll(pieces, llm);
      var more := llm.prompts[|old(llm.prompts)|..];
      assert llm.prompts == old(llm.prompts) + more;
      WrapOneMore(pieces, if |outs| < |pieces| then |outs| else 0);
      AsksForPieces(old(llm.prompts), text, SectionChars(maxTokens), pieces, more);
    }
  }

  method JoinTexts(texts: seq<Text>) returns (joined: Text)
    ensures joined == Join(texts, SEPARATOR)
  {
    joined := [];
    for k := 0 to |texts|
      invariant joined == Join(texts[..k], SEPARATOR)
    {
      assert texts[..k + 1] == texts[..k] + [texts[k]];
      if k > 0 {
        JoinLast(texts[..k], SEPARATOR, texts[k]);
      }
      joined := if k == 0 then texts[k] else joined + SEPARATOR + texts[k];
    }
    assert texts[..|texts|] == texts;
  }
}
