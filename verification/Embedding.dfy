/** Embedding in two layers of batches: the worker cuts the sections into batches, the
    client cuts each of those into requests. Together they are one pointwise map. */
module Embedding {
  import opened Wrappers
  import opened Sequences
  import opened Tables
  import Pipeline

  const DEFAULT_BATCH := 16

  /** What comes of the n-th request to the embedding service: the vectors it sends, or an
      error, which may also be the circuit breaker's refusal. It may send the wrong number
      of vectors. */
  type Service = (nat, seq<string>) -> Option<seq<Vector>>

  function BatchSize(configured: int): nat {
    if configured <= 0 then DEFAULT_BATCH else configured
  }

  /** The request is answered with one vector for each text. */
  predicate Good(service: Service, n: nat, texts: seq<string>) {
    service(n, texts).Some? && |service(n, texts).value| == |texts|
  }

  /** Requests number n onwards are all good. */
  predicate AllGood(service: Service, n: nat, requests: seq<seq<string>>) {
    forall k | 0 <= k < |requests| :: Good(service, n + k, requests[k])
  }

  /** The vectors each request got. */
  function Answers(service: Service, n: nat, requests: seq<seq<string>>): seq<seq<Vector>> {
    seq(|requests|, k requires 0 <= k < |requests| => service(n + k, requests[k]).UnwrapOr([]))
  }

  lemma GoodAppend(service: Service, n: nat, a: seq<seq<string>>, b: seq<seq<string>>)
    requires AllGood(service, n, a) && AllGood(service, n + |a|, b)
    ensures AllGood(service, n, a + b)
  {
    forall k | 0 <= k < |a + b| ensures Good(service, n + k, (a + b)[k]) {
      if k >= |a| {
        assert Good(service, n + |a| + (k - |a|), b[k - |a|]);
      } else {
        assert Good(service, n + k, a[k]);
      }
    }
  }

  lemma AnswersAppend(service: Service, n: nat, a: seq<seq<string>>, b: seq<seq<string>>)
    ensures Flatten(Answers(service, n, a + b)) ==
            Flatten(Answers(service, n, a)) + Flatten(Answers(service, n + |a|, b))
  {
    assert Answers(service, n, a + b) == Answers(service, n, a) + Answers(service, n + |a|, b);
    FlattenAppends(Answers(service, n, a), Answers(service, n + |a|, b));
  }

  lemma GoodPrefix(service: Service, n: nat, requests: seq<seq<string>>)
    requires AllGood(service, n, requests) && requests != []
    ensures var k := |requests| - 1;
            && AllGood(service, n, requests[..k]) && Good(service, n + k, requests[k])
            && Answers(service, n, requests)[..k] == Answers(service, n, requests[..k])
  {
    var k := |requests| - 1;
    assert Good(service, n + k, requests[k]);
    forall i | 0 <= i < k ensures Good(service, n + i, requests[..k][i]) {
      assert Good(service, n + i, requests[i]);
    }
  }

  lemma {:induction false} OneVectorEach(service: Service, n: nat, requests: seq<seq<string>>)
    requires AllGood(service, n, requests)
    ensures |Flatten(Answers(service, n, requests))| == |Flatten(requests)|
    decreases |requests|
  {
    if requests != [] {
      var k := |requests| - 1;
      GoodPrefix(service, n, requests);
      OneVectorEach(service, n, requests[..k]);
      hide AllGood, Flatten;
      assert requests == requests[..k] + [requests[k]];
      FlattenLast(requests[..k], requests[k]);
      var answers := Answers(service, n, requests);
      assert answers == answers[..k] + [answers[k]];
      FlattenLast(answers[..k], answers[k]);
    }
  }

  // ---- a pointwise service

  function Map<S, T>(f: S -> T, xs: seq<S>): seq<T> {
    seq(|xs|, i requires 0 <= i < |xs| => f(xs[i]))
  }

  /** Whatever batch a text is in, its vector is the same. */
  ghost predicate Pointwise(service: Service, f: string -> Vector) {
    forall n, texts :: Good(service, n, texts) ==> service(n, texts).value == Map(f, texts)
  }

  /** For a pointwise service the cuts do not matter. */
  lemma {:induction false} AnswersAreTheMap(service: Service, f: string -> Vector, n: nat, requests: seq<seq<string>>)
    requires AllGood(service, n, requests) && Pointwise(service, f)
    ensures Flatten(Answers(service, n, requests)) == Map(f, Flatten(requests))
    decreases |requests|
  {
    if requests != [] {
      GoodPrefix(service, n, requests);
      AnswersAreTheMap(service, f, n, requests[..|requests| - 1]);
    }
  }

  // ---- how texts are cut

  function Smaller(a: nat, b: nat): nat {
    if a < b then a else b
  }

  /** Batches of the given size, the last one perhaps smaller. */
  function Batches(texts: seq<string>, size: nat): seq<seq<string>>
    requires size > 0
    decreases |texts|
  {
    if texts == [] then []
    else
      var first := Smaller(size, |texts|);
      [texts[..first]] + Batches(texts[first..], size)
  }

  /** The requests of the two layers: batches of batches. */
  function Plan(sections: seq<string>, outer: nat, inner: nat): seq<seq<string>>
    requires outer > 0 && inner > 0
    decreases |sections|
  {
    if sections == [] then []
    else
      var first := Smaller(outer, |sections|);
      Batches(sections[..first], inner) + Plan(sections[first..], outer, inner)
  }

  /** The batches are the texts in order, and all but the last are full. */
  lemma {:induction false} BatchesAreFull(texts: seq<string>, size: nat)
    requires size > 0
    ensures var bs := Batches(texts, size);
            && Flatten(bs) == texts
            && forall k | 0 <= k < |bs| :: 1 <= |bs[k]| <= size && (k < |bs| - 1 ==> |bs[k]| == size)
    decreases |texts|
  {
    if texts != [] {
      var first := Smaller(size, |texts|);
      BatchesAreFull(texts[first..], size);
      var bs := Batches(texts, size);
      assert bs == [texts[..first]] + Batches(texts[first..], size);
      hide Flatten, Batches;
      FlattenFirst(bs);
      Cut(texts, 0, first);
      assert forall k | 1 <= k < |bs| :: bs[k] == Batches(texts[first..], size)[k - 1];
      assert |bs| > 1 ==> first == size by {
        NoTextsNoBatches(texts[first..], size);
      }
    }
  }

  lemma NoTextsNoBatches(texts: seq<string>, size: nat)
    requires size > 0
    ensures Batches(texts, size) == [] <==> texts == []
  {
  }

  lemma {:induction false} PlanCoversSections(sections: seq<string>, outer: nat, inner: nat)
    requires outer > 0 && inner > 0
    ensures Flatten(Plan(sections, outer, inner)) == sections
    decreases |sections|
  {
    if sections != [] {
      var first := Smaller(outer, |sections|);
      PlanCoversSections(sections[first..], outer, inner);
      BatchesAreFull(sections[..first], inner);
      FlattenAppends(Batches(sections[..first], inner), Plan(sections[first..], outer, inner));
      hide Flatten, Batches;
      Cut(sections, 0, first);
    }
  }

  // ---- what comes of a plan

  /** How many requests of the plan are made: all, or up to the first that is not good. */
  function Asked(service: Service, n: nat, plan: seq<seq<string>>): (m: nat)
    ensures m <= |plan|
    decreases |plan|
  {
    if plan == [] then 0 else if !Good(service, n, plan[0]) then 1 else 1 + Asked(service, n + 1, plan[1..])
  }

  /** The vectors, if all requests are good. */
  function Embedded(service: Service, n: nat, plan: seq<seq<string>>): Option<seq<Vector>> {
    if AllGood(service, n, plan) then Some(Flatten(Answers(service, n, plan))) else None
  }

  lemma GoodSuffix(service: Service, n: nat, requests: seq<seq<string>>)
    requires requests != []
    ensures AllGood(service, n, requests) <==> Good(service, n, requests[0]) && AllGood(service, n + 1, requests[1..])
  {
    if AllGood(service, n, requests) {
      assert Good(service, n + 0, requests[0]);
      forall i | 0 <= i < |requests| - 1 ensures Good(service, n + 1 + i, requests[1..][i]) {
        assert Good(service, n + (i + 1), requests[i + 1]);
      }
    } else if Good(service, n, requests[0]) {
      var k :| 0 <= k < |requests| && !Good(service, n + k, requests[k]);
      assert !Good(service, n + 1 + (k - 1), requests[1..][k - 1]);
    }
  }

  lemma {:induction false} AskedPast(service: Service, n: nat, a: seq<seq<string>>, rest: seq<seq<string>>)
    requires AllGood(service, n, a)
    ensures Asked(service, n, a + rest) == |a| + Asked(service, n + |a|, rest)
    decreases |a|
  {
    if a == [] {
      assert a + rest == rest;
    } else {
      GoodSuffix(service, n, a);
      hide Good, AllGood;
      assert (a + rest)[1..] == a[1..] + rest;
      AskedPast(service, n + 1, a[1..], rest);
    }
  }

  lemma {:induction false} AskedStops(service: Service, n: nat, a: seq<seq<string>>, rest: seq<seq<string>>)
    requires !AllGood(service, n, a)
    ensures Asked(service, n, a + rest) == Asked(service, n, a) && !AllGood(service, n, a + rest)
    decreases |a|
  {
    assert a != [];
    GoodSuffix(service, n, a);
    GoodSuffix(service, n, a + rest);
    assert (a + rest)[1..] == a[1..] + rest;
    hide AllGood;
    if Good(service, n, a[0]) {
      AskedStops(service, n + 1, a[1..], rest);
    }
  }

  lemma BadAfterGood(service: Service, n: nat, a: seq<seq<string>>, b: seq<seq<string>>, rest: seq<seq<string>>)
    requires AllGood(service, n, a) && !AllGood(service, n + |a|, b)
    ensures Asked(service, n, a + (b + rest)) == |a| + Asked(service, n + |a|, b)
    ensures !AllGood(service, n, a + (b + rest))
  {
    AskedPast(service, n, a, b + rest);
    AskedStops(service, n + |a|, b, rest);
    if AllGood(service, n, a + (b + rest)) {
      LaterGood(service, n, a, b + rest);
    }
  }

  lemma LaterGood(service: Service, n: nat, a: seq<seq<string>>, b: seq<seq<string>>)
    requires AllGood(service, n, a + b)
    ensures AllGood(service, n + |a|, b)
  {
    forall k | 0 <= k < |b| ensures Good(service, n + |a| + k, b[k]) {
      assert Good(service, n + (|a| + k), (a + b)[|a| + k]);
    }
  }

  /** For a pointwise service any sizes of the two batches make the same rows: section i,
      its embedding, index i. */
  lemma BatchSizesDoNotMatter(service: Service, f: string -> Vector, n: nat, outer: nat, inner: nat,
                              video: Id, tenant: Id, sections: seq<string>)
    requires outer > 0 && inner > 0 && Pointwise(service, f)
    requires Embedded(service, n, Plan(sections, outer, inner)).Some?
    ensures Embedded(service, n, Plan(sections, outer, inner)) == Some(Map(f, sections))
    ensures forall i | 0 <= i < |sections| ::
              Pipeline.ChunkRows(video, tenant, sections, Map(f, sections))[i]
              == ChunkRow(video, i, Chunk(tenant, sections[i], f(sections[i])))
  {
    AnswersAreTheMap(service, f, n, Plan(sections, outer, inner));
    PlanCoversSections(sections, outer, inner);
  }

  // ---- the loops

  class Embedder {
    const service: Service
    const batchSize: nat
    var requests: seq<seq<string>>

    constructor (service: Service, configured: int)
      ensures this.service == service && batchSize == BatchSize(configured) && requests == []
      ensures batchSize == if configured <= 0 then 16 else configured
    {
      this.service := service;
      batchSize := BatchSize(configured);
      requests := [];
    }

    /** One request; the number of vectors has to be the number of texts. */
    method EmbedOne(texts: seq<string>) returns (data: Option<seq<Vector>>)
      modifies this
      ensures requests == old(requests) + [texts]
      ensures data == if Good(service, |old(requests)|, texts) then service(|old(requests)|, texts) else None
    {
      data := service(|requests|, texts);
      requests := requests + [texts];
      if data.Some? && |data.value| != |texts| {
        data := None;
      }
    }

    /** One request more, after `made` good ones. */
    method EmbedNext(batch: seq<string>, ghost before: seq<seq<string>>, ghost made: seq<seq<string>>)
      returns (data: Option<seq<Vector>>)
      requires requests == before + made && AllGood(service, |before|, made)
      modifies this
      ensures requests == before + (made + [batch])
      ensures data.Some? <==> AllGood(service, |before| + |made|, [batch])
      ensures data.Some? ==> AllGood(service, |before|, made + [batch])
      ensures data.Some? ==> Flatten(Answers(service, |before|, made + [batch])) ==
                             Flatten(Answers(service, |before|, made)) + data.value
    {
      data := EmbedOne(batch);
      Associate(before, made, [batch]);
      OneRequest(service, |before| + |made|, batch);
      if data.Some? {
        GoodAppend(service, |before|, made, [batch]);
        AnswersAppend(service, |before|, made, [batch]);
      }
      hide Good, AllGood, Answers, Flatten;
    }

    /** The batches of the texts one after the other, up to the first that goes wrong: all
        vectors, or none. */
    method EmbedBatch(texts: seq<string>) returns (all: Option<seq<Vector>>)
      requires batchSize > 0
      modifies this
      ensures var plan := Batches(texts, batchSize);
              && requests == old(requests) + plan[..Asked(service, |old(requests)|, plan)]
              && all == Embedded(service, |old(requests)|, plan)
    {
      hide Asked, Good, AllGood, Answers, Flatten, Batches;
      ghost var plan, n, made := Batches(texts, batchSize), |requests|, [];
      NothingAsked(service, n);
      NoTextsNoBatches(texts, batchSize);
      var vectors := [];
      var start := 0;
      assert texts[0..] == texts && [] + plan == plan;
      if |texts| == 0 {
        return Some([]);
      }
      while start < |texts|
        invariant 0 <= start <= |texts| && requests == old(requests) + made
        invariant AllGood(service, n, made) && vectors == Flatten(Answers(service, n, made))
        invariant plan == made + Batches(texts[start..], batchSize)
      {
        var end := if start + batchSize > |texts| then |texts| else start + batchSize;
        var batch := texts[start..end];
        BatchesStep(texts, start, end, batchSize);
        var result := EmbedNext(batch, old(requests), made);
        if result.None? {
          BadAfterGood(service, n, made, [batch], Batches(texts[end..], batchSize));
          OneBad(service, n + |made|, batch);
          assert plan[..|made| + 1] == made + [batch];
          return None;
        }
        Associate(made, [batch], Batches(texts[end..], batchSize));
        made := made + [batch];
        vectors := vectors + result.value;
        start := end;
      }
      NoTextsNoBatches(texts[start..], batchSize);
      assert made + [] == made;
      AllAsked(service, n, made);
      all := Some(vectors);
    }

    /** One batch of the worker more, after `made` good requests and before the rest. */
    method EmbedMore(texts: seq<string>, ghost before: seq<seq<string>>, ghost made: seq<seq<string>>,
                     ghost rest: seq<seq<string>>)
      returns (embs: Option<seq<Vector>>)
      requires batchSize > 0 && requests == before + made && AllGood(service, |before|, made)
      modifies this
      ensures var n, inner := |before|, Batches(texts, batchSize);
              var plan := made + (inner + rest);
              match embs
              case None => requests == before + plan[..Asked(service, n, plan)] && !AllGood(service, n, plan)
              case Some(vectors) =>
                && requests == before + (made + inner) && AllGood(service, n, made + inner)
                && Flatten(Answers(service, n, made + inner)) == Flatten(Answers(service, n, made)) + vectors
                && |vectors| == |texts|
    {
      hide Asked, Good, AllGood, Answers, Flatten, Batches;
      ghost var n, inner := |before|, Batches(texts, batchSize);
      embs := EmbedBatch(texts);
      ghost var m := Asked(service, n + |made|, inner);
      Associate(before, made, inner[..m]);
      if embs.None? {
        BadAfterGood(service, n, made, inner, rest);
        TakeInner(made, inner, rest, m);
      } else {
        AllAsked(service, n + |made|, inner);
        GoodMore(service, n, made, inner, texts, batchSize);
      }
    }

    /** The worker's loop: chunk i is section i with its vector and index i; after an error
        there are no chunks. */
    method EmbedSections(configured: int, video: Id, tenant: Id, sections: seq<string>)
      returns (rows: Option<seq<ChunkRow>>)
      requires batchSize > 0
      modifies this
      ensures var plan := Plan(sections, BatchSize(configured), batchSize);
              && requests == old(requests) + plan[..Asked(service, |old(requests)|, plan)]
              && match Embedded(service, |old(requests)|, plan)
                 case None => rows == None
                 case Some(vectors) =>
                   |vectors| == |sections| && rows == Some(Pipeline.ChunkRows(video, tenant, sections, vectors))
    {
      var size := BatchSize(configured);
      ghost var plan, n, made := Plan(sections, size, batchSize), |requests|, [];
      ghost var vectors: seq<Vector> := [];
      NothingAsked(service, n);
      assert sections[..0] == [] && Pipeline.ChunkRows(video, tenant, [], []) == [];
      assert sections[0..] == sections && [] + plan == plan;
      hide Asked, Good, AllGood, Answers, Flatten, Batches, Plan, Pipeline.ChunkRows;
      var chunks: seq<ChunkRow> := [];
      var start := 0;
      while start < |sections|
        invariant 0 <= start <= |sections| && requests == old(requests) + made
        invariant AllGood(service, n, made) && vectors == Flatten(Answers(service, n, made)) && |vectors| == start
        invariant plan == made + Plan(sections[start..], size, batchSize)
        invariant chunks == Pipeline.ChunkRows(video, tenant, sections[..start], vectors)
      {
        var end := if start + size > |sections| then |sections| else start + size;
        var texts := sections[start..end];
        ghost var inner, rest := Batches(texts, batchSize), Plan(sections[end..], size, batchSize);
        PlanStep(sections, start, end, size, batchSize);
        var embs := EmbedMore(texts, old(requests), made, rest);
        if embs.None? {
          return None;
        }
        Associate(made, inner, rest);
        Cut(sections, start, end);
        chunks := AppendRows(chunks, video, tenant, sections[..start], vectors, texts, embs.value);
        made := made + inner;
        vectors := vectors + embs.value;
        start := end;
      }
      assert sections[..start] == sections;
      PlanOfNothing(sections[start..], size, batchSize);
      assert made + [] == made;
      AllAsked(service, n, made);
      rows := Some(chunks);
    }
  }

  /** The inner loop: the texts of one batch become rows that are numbered on. */
  method AppendRows(before: seq<ChunkRow>, video: Id, tenant: Id, ghost sections: seq<string>,
                    ghost vectors: seq<Vector>, texts: seq<string>, embs: seq<Vector>)
    returns (chunks: seq<ChunkRow>)
    requires |sections| == |vectors| && |texts| == |embs|
    requires before == Pipeline.ChunkRows(video, tenant, sections, vectors)
    ensures chunks == Pipeline.ChunkRows(video, tenant, sections + texts, vectors + embs)
  {
    chunks := before;
    for i := 0 to |texts|
      invariant chunks == Pipeline.ChunkRows(video, tenant, sections + texts[..i], vectors + embs[..i])
    {
      var emb := if i < |embs| then embs[i] else [];
      chunks := chunks + [ChunkRow(video, |chunks|, Chunk(tenant, texts[i], emb))];
    }
    assert texts[..|texts|] == texts && embs[..|texts|] == embs;
  }

  // ---- steps of the loops

  lemma NothingAsked(service: Service, n: nat)
    ensures AllGood(service, n, []) && Flatten(Answers(service, n, [])) == [] && Asked(service, n, []) == 0
  {
  }

  lemma AllAsked(service: Service, n: nat, plan: seq<seq<string>>)
    requires AllGood(service, n, plan)
    ensures Asked(service, n, plan) == |plan| && plan[..|plan|] == plan
  {
    AskedPast(service, n, plan, []);
    assert plan + [] == plan;
  }

  lemma OneRequest(service: Service, n: nat, batch: seq<string>)
    ensures AllGood(service, n, [batch]) <==> Good(service, n, batch)
    ensures Good(service, n, batch) ==> Flatten(Answers(service, n, [batch])) == service(n, batch).value
  {
    assert [batch][0] == batch;
    if Good(service, n, batch) {
      assert AllGood(service, n, [batch]);
      assert Answers(service, n, [batch]) == [service(n, batch).value];
      FlattenOne(service(n, batch).value);
    } else {
      assert !Good(service, n + 0, [batch][0]);
    }
  }

  lemma OneBad(service: Service, n: nat, batch: seq<string>)
    requires !AllGood(service, n, [batch])
    ensures Asked(service, n, [batch]) == 1
  {
    OneRequest(service, n, batch);
  }

  lemma BatchesStep(texts: seq<string>, start: nat, end: nat, size: nat)
    requires start < |texts| && size > 0 && end == Smaller(start + size, |texts|)
    ensures Batches(texts[start..], size) == [texts[start..end]] + Batches(texts[end..], size)
  {
    var rest := texts[start..];
    assert rest[..end - start] == texts[start..end] && rest[end - start..] == texts[end..];
  }

  lemma PlanStep(sections: seq<string>, start: nat, end: nat, outer: nat, inner: nat)
    requires start < |sections| && outer > 0 && inner > 0 && end == Smaller(start + outer, |sections|)
    ensures Plan(sections[start..], outer, inner) ==
            Batches(sections[start..end], inner) + Plan(sections[end..], outer, inner)
  {
    hide Batches;
    var rest := sections[start..];
    assert rest[..end - start] == sections[start..end] && rest[end - start..] == sections[end..];
  }

  lemma PlanOfNothing(sections: seq<string>, outer: nat, inner: nat)
    requires sections == [] && outer > 0 && inner > 0
    ensures Plan(sections, outer, inner) == []
  {
  }

  lemma TakeInner<T>(a: seq<T>, b: seq<T>, c: seq<T>, k: nat)
    requires k <= |b|
    ensures (a + (b + c))[..|a| + k] == a + b[..k]
  {
  }

  lemma GoodMore(service: Service, n: nat, made: seq<seq<string>>, inner: seq<seq<string>>,
                 texts: seq<string>, size: nat)
    requires AllGood(service, n, made) && AllGood(service, n + |made|, inner)
    requires size > 0 && inner == Batches(texts, size)
    ensures AllGood(service, n, made + inner)
    ensures Flatten(Answers(service, n, made + inner)) ==
            Flatten(Answers(service, n, made)) + Flatten(Answers(service, n + |made|, inner))
    ensures |Flatten(Answers(service, n + |made|, inner))| == |texts|
  {
    GoodAppend(service, n, made, inner);
    AnswersAppend(service, n, made, inner);
    OneVectorEach(service, n + |made|, inner);
    BatchesAreFull(texts, size);
  }
}
