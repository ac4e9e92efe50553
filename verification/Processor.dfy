/** The worker's program, as the code runs it: one call to the database after another,
    with the work of other connections in between and outside services that may fail. In
    every environment it goes exactly the way that `Script` lays down: the tables it
    leaves, the statements it gives and the point it reaches are functions of the script. */
module Processor {
  import opened Wrappers
  import opened Tables
  import opened Schema
  import opened Store
  import opened Pipeline
  import opened JobInvariants
  import opened Script
  import Sql
  import Chunker
  import Embedding

  const SUMMARY_ATTEMPTS := 2

  /** What comes of embedding the sections of a document, at whatever turn. */
  function Vectors(service: Embedding.Service, asked: nat, outer: nat, inner: nat)
    : (nat, seq<string>) -> Option<seq<Vector>>
  {
    (turn: nat, sections: seq<string>) =>
      if outer > 0 && inner > 0
      then Embedding.Embedded(service, asked, Embedding.Plan(sections, outer, inner)) else None
  }

  /** Without sections nothing can go wrong. */
  lemma NothingToEmbed(service: Embedding.Service, n: nat, sections: seq<string>, outer: nat, inner: nat)
    requires outer > 0 && inner > 0
    ensures Embedding.Embedded(service, n, Embedding.Plan(sections, outer, inner)).None? ==> sections != []
  {
  }

  class Pass {
    const db: Database
    const embedder: Embedding.Embedder
    const batchSize: int
    const moments: nat -> Moment
    const job: Id
    /** How many requests the embedder had made before. */
    ghost const asked: nat
    var turn: nat
    var row: Job
    var video: Id
    var transcript: Transcript
    ghost var worker: Worker

    /** Everything the program does not decide. */
    ghost function World(): Env {
      Env(db.loc, moments, Vectors(embedder.service, asked, Embedding.BatchSize(batchSize), embedder.batchSize))
    }

    ghost function Now(): Config
      reads this, db
    {
      Config(db.Snapshot(), worker, turn, db.log)
    }

    ghost predicate Valid()
      reads this, db
    {
      db.Valid() && embedder.batchSize > 0
    }

    /** The program stands at the point, with the variables it has. */
    ghost predicate At(p: Point)
      reads this
    {
      worker.Busy? && worker.at == p && worker.job == job && worker.row == row && worker.video == video
      && worker.transcript == transcript
    }

    /** The requests that embed a document. */
    ghost function Wanted(content: string): seq<seq<string>>
      requires embedder.batchSize > 0
    {
      var plan := Embedding.Plan(Chunker.Sections(content), Embedding.BatchSize(batchSize), embedder.batchSize);
      plan[..Embedding.Asked(embedder.service, asked, plan)]
    }

    /** No request came in between, or exactly those that embed the document. */
    ghost predicate AskedOnce(before: seq<seq<string>>, after: seq<seq<string>>, content: string)
      requires embedder.batchSize > 0
    {
      after == before || after == before + Wanted(content)
    }

    /** A pass over a job the worker has claimed. */
    constructor (db: Database, embedder: Embedding.Embedder, batchSize: int, moments: nat -> Moment, job: Id, row: Job)
      requires db.Valid() && embedder.batchSize > 0
      ensures Valid() && At(Load) && turn == 0 && worker == Start(job, row) && |embedder.requests| == asked
      ensures this.db == db && this.embedder == embedder && this.batchSize == batchSize
      ensures this.moments == moments && this.job == job
    {
      this.db, this.embedder, this.batchSize, this.moments := db, embedder, batchSize, moments;
      this.job, this.row, this.video, this.transcript := job, row, 0, NO_TRANSCRIPT;
      asked, turn, worker := |embedder.requests|, 0, Start(job, row);
    }

    /** The next turn begins with what others do. */
    method Await() returns (m: Moment)
      requires Valid()
      modifies this`turn, db
      ensures Valid() && m == moments(old(turn)) && turn == old(turn) + 1
      ensures db.Snapshot() == Foreign(m.foreign, old(db.Snapshot()), db.loc) && db.log == old(db.log) + [Others]
    {
      m := moments(turn);
      db.Interfere(m.foreign);
      turn := turn + 1;
    }

    /** The turn that began at c ends. */
    ghost method Took(c: Config, d: Db, entries: seq<Entry>, w2: Worker)
      requires Valid() && worker.Busy? && c.worker == worker && turn == c.turn + 1
      requires d == Foreign(moments(c.turn).foreign, c.db, db.loc)
      requires Gives(World(), c.turn, worker, d, entries, db.Snapshot(), w2)
      requires db.log == c.log + [Others] + entries
      modifies this`worker
      ensures Valid() && Now() == Turn(World(), c) && worker == w2
    {
      hide SchemaOk, Database.Snapshot, Database.Valid, Foreign, Gives, Turn;
      WholeTurn(World(), c, entries, db.Snapshot(), w2);
      worker := w2;
    }

    /** The service that the next statement needs did not work. */
    method GiveUp() returns (ok: bool)
      requires Valid() && worker.Busy? && NeedsService(worker.at) && !moments(turn).works
      modifies this`turn, this`worker, db
      ensures Valid() && Now() == Turn(World(), old(Now())) && worker == Failing(old(worker)) && !ok
    {
      hide SchemaOk, Foreign, Turn, Gives;
      ghost var c := Now();
      var m := Await();
      ghost var d := db.Snapshot();
      assert db.log + [] == db.log;
      ghost var e, d2, w2 := BrokenTurn(World(), c.turn, worker, d);
      Took(c, d, e, w2);
      ok := false;
    }

    // ---- run

    /** Updates the status of the job row, if the connection holds. */
    method UpdateStatus(m: Moment, status: JobStatus, stage: Stage, error: Option<string>)
      returns (ok: bool)
      requires Valid()
      modifies db
      ensures Valid()
      ensures var r := Sql.UpdateJobStatus(old(db.Snapshot()), job, row.tenant, status, stage, error, m.now);
              ok == (m.connected && r.Some?) && db.Snapshot() == if ok then r.value else old(db.Snapshot())
      ensures db.log == old(db.log) +
                        if m.connected then [SetJobStatus(job, row.tenant, status, stage, error, m.now)] else []
    {
      hide SchemaOk, Sql.UpdateJobStatus;
      ok := false;
      if m.connected {
        ok := db.UpdateJobStatus(job, row.tenant, status, stage, error, m.now);
      }
    }

    /** Updates the stage while the job stays in processing. */
    method SetStage(stage: Stage, ghost p: Point)
      returns (ok: bool)
      requires Valid() && At(p) && StageAt(p, row.kind).Some? && stage == StageAt(p, row.kind).value.0
      requires NeedsService(p) ==> moments(turn).works
      modifies this`row, this`turn, this`worker, db
      ensures Valid() && Now() == Turn(World(), old(Now()))
      ensures if ok then At(StageAt(p, old(row.kind)).value.1) else At(Point.FailJob)
      ensures row == if ok then old(row).(stage := stage) else old(row)
    {
      hide SchemaOk, Database.Snapshot, Database.Valid, Foreign, Turn, Gives, Sql.UpdateJobStatus;
      ghost var c := Now();
      var m := Await();
      ghost var d := db.Snapshot();
      ok := UpdateStatus(m, Processing, stage, None);
      ghost var e, d2, w2 := StageTurn(World(), c.turn, worker, d);
      Took(c, d, e, w2);
      if ok {
        row := row.(stage := stage);
      }
    }

    method DeleteOldVideo() returns (ok: bool)
      requires Valid() && At(Cleanup)
      modifies this`turn, this`worker, db
      ensures Valid() && Now() == Turn(World(), old(Now()))
      ensures if ok then At(Insert) else At(Point.FailJob)
    {
      hide SchemaOk, Database.Snapshot, Database.Valid, Foreign, Turn, Gives, Sql.DeleteVideoByJobID;
      ghost var c := Now();
      var m := Await();
      ghost var d := db.Snapshot();
      ok := m.connected;
      assert db.log + [] == db.log;
      if ok {
        db.DeleteVideoByJobID(job, row.tenant);
      }
      ghost var e, d2, w2 := CleanupTurn(World(), c.turn, worker, d);
      Took(c, d, e, w2);
    }

    method CreateVideo(m: Moment) returns (ok: bool)
      requires Valid()
      modifies db
      ensures Valid()
      ensures var r := Sql.CreateVideo(old(db.Snapshot()), m.id, NewVideo(job, row));
              ok == (m.connected && r.Some?) && db.Snapshot() == if ok then r.value else old(db.Snapshot())
      ensures db.log == old(db.log) + if m.connected then [AddVideo(m.id, NewVideo(job, row))] else []
    {
      hide SchemaOk, Sql.CreateVideo;
      ok := false;
      if m.connected {
        ok := db.CreateVideo(m.id, NewVideo(job, row));
      }
    }

    method InsertVideo() returns (ok: bool)
      requires Valid() && At(Insert)
      modifies this`turn, this`worker, this`video, db
      ensures Valid() && Now() == Turn(World(), old(Now()))
      ensures if ok then At(Point.ListNames) else At(Point.FailJob)
    {
      hide SchemaOk, Database.Snapshot, Database.Valid, Foreign, Turn, Gives, Sql.CreateVideo;
      ghost var c := Now();
      var m := Await();
      ghost var d := db.Snapshot();
      ok := CreateVideo(m);
      ghost var e, d2, w2 := InsertTurn(World(), c.turn, worker, d);
      Took(c, d, e, w2);
      if ok {
        video := m.id;
      }
    }

    method ListNames() returns (names: Option<seq<string>>)
      requires Valid() && At(Point.ListNames)
      modifies this`turn, this`worker, db
      ensures Valid() && Now() == Turn(World(), old(Now()))
      ensures match names
              case None => At(Point.FailJob)
              case Some(ns) =>
                At(if ns == [] then Attach else Ensure) && worker.names == ns && worker.segments == []
    {
      hide SchemaOk, Database.Snapshot, Database.Valid, Foreign, Turn, Gives, ListNamesByJob;
      ghost var c := Now();
      var m := Await();
      ghost var d := db.Snapshot();
      names := None;
      if m.connected {
        var ns := db.ListSegmentNamesByJobID(job);
        names := Some(ns);
      }
      assert db.log + [] == db.log;
      ghost var e, d2, w2 := ListTurn(World(), c.turn, worker, d);
      Took(c, d, e, w2);
    }

    method EnsureSegment(m: Moment, name: string) returns (id: Option<Id>)
      requires Valid()
      modifies db
      ensures Valid()
      ensures var r := Sql.EnsureSegment(old(db.Snapshot()), db.loc, m.id, row.tenant, name);
              id.Some? == (m.connected && r.Some?) && db.Snapshot() == if id.Some? then r.value else old(db.Snapshot())
      ensures id.Some? ==> id.value == Sql.EnsuredSegment(old(db.Snapshot()), db.loc, m.id, row.tenant, name)
      ensures db.log == old(db.log) + if m.connected then [EnsureName(m.id, row.tenant, name)] else []
    {
      hide SchemaOk, Sql.EnsureSegment, Sql.EnsuredSegment;
      id := None;
      if m.connected {
        id := db.EnsureSegmentByName(m.id, row.tenant, name);
      }
    }

    method EnsureOne(name: string) returns (id: Option<Id>)
      requires Valid() && At(Ensure) && |worker.segments| < |worker.names| && name == worker.names[|worker.segments|]
      modifies this`turn, this`worker, db
      ensures Valid() && Now() == Turn(World(), old(Now())) && (id.None? ==> At(Point.FailJob))
      ensures id.Some? ==>
                && worker.Busy? && worker.names == old(worker.names)
                && worker.segments == old(worker.segments) + [id.value]
                && At(if |worker.segments| < |worker.names| then Ensure else Attach)
    {
      hide SchemaOk, Database.Snapshot, Database.Valid, Foreign, Turn, Gives, Sql.EnsureSegment, Sql.EnsuredSegment;
      ghost var c := Now();
      var m := Await();
      ghost var d := db.Snapshot();
      id := EnsureSegment(m, name);
      ghost var e, d2, w2 := EnsureTurn(World(), c.turn, worker, d);
      Took(c, d, e, w2);
    }

    method AttachSegments(ids: seq<Id>) returns (ok: bool)
      requires Valid() && At(Attach) && worker.segments == ids
      modifies this`turn, this`worker, db
      ensures Valid() && Now() == Turn(World(), old(Now()))
      ensures if ok then At(Download) else At(Point.FailJob)
    {
      hide SchemaOk, Database.Snapshot, Database.Valid, Foreign, Turn, Gives, Sql.AttachVideoSegments;
      ghost var c := Now();
      var m := Await();
      ghost var d := db.Snapshot();
      ok := false;
      assert db.log + [] == db.log;
      if m.connected {
        ok := db.AttachVideoSegments(video, ids);
      }
      ghost var e, d2, w2 := AttachTurn(World(), c.turn, worker, d);
      Took(c, d, e, w2);
    }

    /** Copies the job's segments to the video by name. */
    method CopyJobSegments() returns (ok: bool)
      requires Valid() && At(Point.ListNames)
      modifies this`turn, this`worker, db
      ensures Valid() && Now() == Until(World(), old(Now()), Rank(Point.ListNames), Rank(Attach))
      ensures if ok then At(Download) else At(Point.FailJob)
    {
      hide SchemaOk, Database.Snapshot, Database.Valid, Turn, Until, World;
      ghost var begin := Now();
      var names := ListNames();
      OneTurn(World(), begin, 3, 5);
      if names.None? {
        Outside(World(), Now(), 3, 5);
        return false;
      }
      var ids := [];
      for k := 0 to |names.value|
        invariant Valid() && At(if k < |names.value| then Ensure else Attach)
        invariant worker.names == names.value && worker.segments == ids && |ids| == k
        invariant Until(World(), Now(), 3, 5) == Until(World(), begin, 3, 5)
      {
        ghost var c := Now();
        var id := EnsureOne(names.value[k]);
        OneTurn(World(), c, 3, 5);
        if id.None? {
          Outside(World(), Now(), 3, 5);
          return false;
        }
        ids := ids + [id.value];
      }
      ghost var c := Now();
      ok := AttachSegments(ids);
      OneTurn(World(), c, 3, 5);
      Outside(World(), Now(), 3, 5);
    }

    /** From the downloaded file to the transcript in hand. */
    method StartRecognition() returns (ok: bool)
      requires Valid() && At(Recognize)
      modifies this`turn, this`worker, this`row, db
      ensures Valid() && Now() == Turn(World(), old(Now()))
      ensures if ok then At(Point.Store) else At(Point.FailJob)
    {
      hide SchemaOk, Database.Snapshot, Database.Valid, Turn, World;
      if !moments(turn).works {
        ok := GiveUp();
      } else if row.kind == PdfKind {
        ok := SetStage(Parsing, Recognize);
      } else {
        ok := SetStage(Transcribing, Recognize);
      }
    }

    method StartDownload() returns (ok: bool)
      requires Valid() && At(Download)
      modifies this`turn, this`worker, this`row, db
      ensures Valid() && Now() == Turn(World(), old(Now()))
      ensures if ok then At(Recognize) else At(Point.FailJob)
    {
      hide SchemaOk, Database.Snapshot, Database.Valid, Turn, World;
      if moments(turn).works {
        ok := SetStage(Downloading, Download);
      } else {
        ok := GiveUp();
      }
    }

    method UpsertTranscript(m: Moment) returns (ok: bool)
      requires Valid()
      modifies db
      ensures Valid()
      ensures var r := Sql.UpsertTranscript(old(db.Snapshot()), video, m.heard);
              ok == (m.connected && r.Some?) && db.Snapshot() == if ok then r.value else old(db.Snapshot())
      ensures db.log == old(db.log) + if m.connected then [PutTranscript(video, m.heard)] else []
    {
      hide SchemaOk, Sql.UpsertTranscript;
      ok := false;
      if m.connected {
        ok := db.UpsertTranscript(video, m.heard);
      }
    }

    method StoreTranscript() returns (ok: bool)
      requires Valid() && At(Point.Store) && moments(turn).works
      modifies this`turn, this`worker, this`transcript, db
      ensures Valid() && Now() == Turn(World(), old(Now()))
      ensures if ok then At(Split) else At(Point.FailJob)
    {
      hide SchemaOk, Database.Snapshot, Database.Valid, Foreign, Turn, Gives, Sql.UpsertTranscript;
      ghost var c := Now();
      var m := Await();
      ghost var d := db.Snapshot();
      ok := UpsertTranscript(m);
      ghost var e, d2, w2 := StoreTurn(World(), c.turn, worker, d);
      Took(c, d, e, w2);
      if ok {
        transcript := m.heard;
      }
    }

    method FinishRecognition() returns (ok: bool)
      requires Valid() && At(Point.Store)
      modifies this`turn, this`worker, this`transcript, db
      ensures Valid() && Now() == Turn(World(), old(Now()))
      ensures if ok then At(Split) else At(Point.FailJob)
    {
      hide SchemaOk, Database.Snapshot, Database.Valid, Turn, World;
      if moments(turn).works {
        ok := StoreTranscript();
      } else {
        ok := GiveUp();
      }
    }

    method Transcribe() returns (ok: bool)
      requires Valid() && At(Recognize)
      modifies this`turn, this`worker, this`row, this`transcript, db
      ensures Valid() && Until(World(), Now(), 6, 8) == Until(World(), old(Now()), 6, 8)
      ensures if ok then At(Split) else At(Point.FailJob)
    {
      hide SchemaOk, Database.Snapshot, Database.Valid, Turn, Until, World;
      ghost var c := Now();
      ok := StartRecognition();
      OneTurn(World(), c, 6, 8);
      if ok {
        c := Now();
        ok := FinishRecognition();
        OneTurn(World(), c, 6, 8);
      }
    }

    /** Downloads the file, checks it, and transcribes or parses it. */
    method ExtractTranscript() returns (ok: bool)
      requires Valid() && At(Download)
      modifies this`turn, this`worker, this`row, this`transcript, db
      ensures Valid() && Now() == Until(World(), old(Now()), Rank(Download), Rank(Point.Store))
      ensures if ok then At(Split) else At(Point.FailJob)
    {
      hide SchemaOk, Database.Snapshot, Database.Valid, Turn, Until, World;
      ghost var c := Now();
      ok := StartDownload();
      OneTurn(World(), c, 6, 8);
      if ok {
        ok := Transcribe();
      }
      Outside(World(), Now(), 6, 8);
    }

    method InsertEmbedded(sections: seq<string>) returns (ok: bool)
      requires Valid() && At(Point.InsertChunks) && sections == Chunker.Sections(transcript.content)
      requires |embedder.requests| == asked
      modifies this`turn, this`worker, db, embedder
      ensures Valid() && Now() == Turn(World(), old(Now()))
      ensures embedder.requests == old(embedder.requests) + Wanted(transcript.content)
      ensures if ok then At(Point.CompleteJob) else At(Point.FailJob)
    {
      hide SchemaOk, Foreign, Chunker.Sections, Embedding.Asked, Embedding.Embedded, Embedding.Plan;
      NothingToEmbed(embedder.service, asked, sections, Embedding.BatchSize(batchSize), embedder.batchSize);
      var rows := embedder.EmbedSections(batchSize, video, row.tenant, sections);
      hide Database.Snapshot, Database.Valid, Turn, Gives, Inserted, Wanted;
      ghost var c := Now();
      var m := Await();
      ghost var d := db.Snapshot();
      ok := InsertRows(m, rows);
      ghost var e, w2 := ChunksTurn(World(), c.turn, worker, rows, d, c.log + [Others], ok, db.Snapshot(), db.log);
      Took(c, d, e, w2);
    }

    /** Inserts the rows, if there are any. */
    method InsertRows(m: Moment, rows: Option<seq<ChunkRow>>) returns (ok: bool)
      requires Valid()
      modifies db
      ensures Valid() && Inserted(m, rows, old(db.Snapshot()), old(db.log), ok, db.Snapshot(), db.log)
    {
      hide SchemaOk, Database.Snapshot, Sql.InsertChunks;
      ok := rows.Some?;
      assert db.log + [] == db.log;
      if ok && |rows.value| > 0 {
        ok := false;
        if m.connected {
          ok := db.InsertChunks(rows.value);
        }
      }
    }

    /** Embeds the sections and inserts the chunks. */
    method EmbedAndInsert(sections: seq<string>) returns (ok: bool)
      requires Valid() && At(Embed) && sections == Chunker.Sections(transcript.content)
      requires |embedder.requests| == asked
      modifies this`turn, this`worker, this`row, db, embedder
      ensures Valid() && Until(World(), Now(), 9, 11) == Until(World(), old(Now()), 9, 11)
      ensures AskedOnce(old(embedder.requests), embedder.requests, transcript.content)
      ensures if ok then At(Point.CompleteJob) else At(Point.FailJob)
    {
      hide SchemaOk, Database.Snapshot, Database.Valid, Turn, Until, World, Chunker.Sections, Wanted;
      ghost var c := Now();
      ok := SetStage(Stage.Embedding, Embed);
      OneTurn(World(), c, 9, 11);
      if ok {
        c := Now();
        ok := InsertEmbedded(sections);
        OneTurn(World(), c, 9, 11);
      }
    }

    /** Splits the transcript, embeds the sections and inserts the chunks. */
    method InsertSections() returns (ok: bool)
      requires Valid() && At(Split) && |embedder.requests| == asked
      modifies this`turn, this`worker, this`row, db, embedder
      ensures Valid() && Now() == Until(World(), old(Now()), Rank(Split), Rank(InsertChunks))
      ensures AskedOnce(old(embedder.requests), embedder.requests, transcript.content)
      ensures if ok then At(Point.CompleteJob) else At(Point.FailJob)
    {
      hide SchemaOk, Database.Snapshot, Database.Valid, Turn, Until, World, Chunker.Sections, Wanted;
      ghost var c := Now();
      ok := SetStage(Chunking, Split);
      OneTurn(World(), c, 9, 11);
      if ok {
        var sections := Chunker.Chunk(transcript.content);
        ok := EmbedAndInsert(sections);
      }
      Outside(World(), Now(), 9, 11);
    }

    method CompleteJob() returns (ok: bool)
      requires Valid() && At(Point.CompleteJob)
      modifies this`turn, this`worker, db
      ensures Valid() && Now() == Turn(World(), old(Now()))
      ensures if ok then At(Point.CompleteVideo) else At(Point.FailJob)
    {
      hide SchemaOk, Database.Snapshot, Database.Valid, Foreign, Turn, Gives, Sql.UpdateJobStatus;
      ghost var c := Now();
      var m := Await();
      ghost var d := db.Snapshot();
      ok := UpdateStatus(m, Completed, Finished, None);
      ghost var e, d2, w2 := CompleteJobTurn(World(), c.turn, worker, d);
      Took(c, d, e, w2);
    }

    method CompleteVideo() returns (ok: bool)
      requires Valid() && At(Point.CompleteVideo)
      modifies this`turn, this`worker, db
      ensures Valid() && Now() == Turn(World(), old(Now()))
      ensures if ok then At(Summarize) else At(Point.FailJob)
    {
      hide SchemaOk, Database.Snapshot, Database.Valid, Foreign, Turn, Gives, Sql.UpdateVideoStatus;
      ghost var c := Now();
      var m := Await();
      ghost var d := db.Snapshot();
      ok := false;
      assert db.log + [] == db.log;
      if m.connected {
        ok := db.UpdateVideoStatus(video, row.tenant, VideoCompleted);
      }
      ghost var e, d2, w2 := CompleteVideoTurn(World(), c.turn, worker, d);
      Took(c, d, e, w2);
    }

    method UpsertSummary(m: Moment, text: Option<string>)
      requires Valid()
      modifies db
      ensures Valid()
      ensures var r := Sql.UpsertSummary(old(db.Snapshot()), video, SummaryRow(text, transcript.language));
              db.Snapshot() == if m.connected && r.Some? then r.value else old(db.Snapshot())
      ensures db.log == old(db.log) +
                        if m.connected then [PutSummary(video, SummaryRow(text, transcript.language))] else []
    {
      hide SchemaOk, Sql.UpsertSummary;
      if m.connected {
        var ok := db.UpsertSummary(video, SummaryRow(text, transcript.language));
      }
    }

    /** Tries twice for a summary and records what came of it. */
    method GenerateSummary()
      requires Valid() && At(Summarize)
      modifies this`turn, this`worker, db
      ensures Valid() && Now() == Turn(World(), old(Now())) && worker == Idle
    {
      hide SchemaOk, Database.Snapshot, Database.Valid, Foreign, Turn, Gives, Sql.UpsertSummary;
      ghost var c := Now();
      var m := Await();
      ghost var d := db.Snapshot();
      assert db.log + [] == db.log;
      if transcript.content != "" {
        var text: Option<string> := None;
        var attempt := 1;
        while attempt <= SUMMARY_ATTEMPTS && text.None?
          invariant 1 <= attempt <= SUMMARY_ATTEMPTS + 1
          invariant attempt == 1 ==> text.None?
          invariant attempt == 2 ==> text == m.firstTry
          invariant attempt > 2 ==> text == Summed(m)
        {
          text := if attempt == 1 then m.firstTry else m.secondTry;
          attempt := attempt + 1;
        }
        UpsertSummary(m, text);
      }
      ghost var e, d2, w2 := SummarizeTurn(World(), c.turn, worker, d);
      Took(c, d, e, w2);
    }

    /** The job and then the video are complete; the summary comes last. */
    method Complete() returns (ok: bool)
      requires Valid() && At(Point.CompleteJob)
      modifies this`turn, this`worker, db
      ensures Valid() && Until(World(), Now(), 1, 14) == Until(World(), old(Now()), 1, 14)
      ensures if ok then worker == Idle else At(Point.FailJob)
    {
      hide SchemaOk, Database.Snapshot, Database.Valid, Turn, Until, World;
      ghost var c := Now();
      ok := CompleteJob();
      OneTurn(World(), c, 1, 14);
      if ok {
        c := Now();
        ok := CompleteVideo();
        OneTurn(World(), c, 1, 14);
      }
      if ok {
        c := Now();
        GenerateSummary();
        OneTurn(World(), c, 1, 14);
      }
    }

    /** The fresh video and its segments. */
    method Prepare() returns (ok: bool)
      requires Valid() && At(Cleanup)
      modifies this`turn, this`worker, this`video, db
      ensures Valid() && Until(World(), Now(), 1, 14) == Until(World(), old(Now()), 1, 14)
      ensures if ok then At(Download) else At(Point.FailJob)
    {
      hide SchemaOk, Database.Snapshot, Database.Valid, Turn, Until, World;
      ghost var c := Now();
      ok := DeleteOldVideo();
      OneTurn(World(), c, 1, 14);
      if ok {
        c := Now();
        ok := InsertVideo();
        OneTurn(World(), c, 1, 14);
      }
      if ok {
        c := Now();
        ok := CopyJobSegments();
        UntilInner(World(), c, 3, 5, 1, 14);
      }
    }

    /** The transcript and its chunks. */
    method Ingest() returns (ok: bool)
      requires Valid() && At(Download) && |embedder.requests| == asked
      modifies this`turn, this`worker, this`row, this`transcript, db, embedder
      ensures Valid() && Until(World(), Now(), 1, 14) == Until(World(), old(Now()), 1, 14)
      ensures AskedOnce(old(embedder.requests), embedder.requests, transcript.content)
      ensures if ok then At(Point.CompleteJob) else At(Point.FailJob)
    {
      hide SchemaOk, Database.Snapshot, Database.Valid, Turn, Until, World, Wanted;
      ghost var c := Now();
      ok := ExtractTranscript();
      UntilInner(World(), c, 6, 8, 1, 14);
      if ok {
        c := Now();
        ok := InsertSections();
        UntilInner(World(), c, 9, 11, 1, 14);
      }
    }

    /** The pipeline; an error leaves the job to be failed. */
    method Run() returns (ok: bool)
      requires Valid() && At(Cleanup) && |embedder.requests| == asked
      modifies this`turn, this`worker, this`row, this`video, this`transcript, db, embedder
      ensures Valid() && Now() == Until(World(), old(Now()), Rank(Cleanup), Rank(Summarize))
      ensures AskedOnce(old(embedder.requests), embedder.requests, transcript.content)
      ensures if ok then worker == Idle else At(Point.FailJob)
    {
      hide SchemaOk, Database.Snapshot, Database.Valid, Turn, Until, World, Wanted;
      ok := Prepare();
      if ok {
        ok := Ingest();
        if ok {
          ok := Complete();
        }
      }
      Outside(World(), Now(), 1, 14);
    }

    // ---- fail

    method FailJob()
      requires Valid() && At(Point.FailJob)
      modifies this`turn, this`worker, db
      ensures Valid() && Now() == Turn(World(), old(Now())) && At(Point.FailVideo)
    {
      hide SchemaOk, Database.Snapshot, Database.Valid, Foreign, Turn, Gives, Sql.UpdateJobStatus;
      ghost var c := Now();
      var m := Await();
      ghost var d := db.Snapshot();
      var ok := UpdateStatus(m, Failed, row.stage, Some(m.message));
      ghost var e, d2, w2 := FailJobTurn(World(), c.turn, worker, d);
      Took(c, d, e, w2);
    }

    method FailVideo()
      requires Valid() && At(Point.FailVideo)
      modifies this`turn, this`worker, db
      ensures Valid() && Now() == Turn(World(), old(Now())) && worker == Idle
    {
      hide SchemaOk, Database.Snapshot, Database.Valid, Foreign, Turn, Gives, Sql.FailVideoByJobID;
      ghost var c := Now();
      var m := Await();
      ghost var d := db.Snapshot();
      assert db.log + [] == db.log;
      if m.connected {
        db.FailVideoByJobID(job, row.tenant);
      }
      ghost var e, d2, w2 := FailVideoTurn(World(), c.turn, worker, d);
      Took(c, d, e, w2);
    }

    /** Marks the job and then its video failed; an error in the first does not stop the
        second. */
    method Fail()
      requires Valid() && At(Point.FailJob)
      modifies this`turn, this`worker, db
      ensures Valid() && Now() == Until(World(), old(Now()), Rank(Point.FailJob), Rank(Point.FailVideo))
      ensures worker == Idle
    {
      hide SchemaOk, Database.Snapshot, Database.Valid, Turn, Until, World;
      ghost var c := Now();
      FailJob();
      OneTurn(World(), c, 15, 16);
      c := Now();
      FailVideo();
      OneTurn(World(), c, 15, 16);
      Outside(World(), Now(), 15, 16);
    }

    method LoadJob() returns (found: bool)
      requires Valid() && At(Load)
      modifies this`turn, this`worker, this`row, db
      ensures Valid() && Now() == Turn(World(), old(Now()))
      ensures if found then At(Cleanup) else worker == Idle
    {
      hide SchemaOk, Foreign, Turn, Gives;
      ghost var c := Now();
      var m := Await();
      ghost var d := db.Snapshot();
      assert db.log + [] == db.log;
      found := m.connected && job in db.jobs;
      if found {
        row := db.jobs[job];
      }
      ghost var e, d2, w2 := LoadTurn(World(), c.turn, worker, d);
      Took(c, d, e, w2);
    }

    method RunOrFail()
      requires Valid() && At(Cleanup) && |embedder.requests| == asked
      modifies this`turn, this`worker, this`row, this`video, this`transcript, db, embedder
      ensures Valid() && Until(World(), Now(), 0, 16) == Until(World(), old(Now()), 0, 16) && worker == Idle
      ensures AskedOnce(old(embedder.requests), embedder.requests, transcript.content)
    {
      hide SchemaOk, Database.Snapshot, Database.Valid, Turn, Until, World, Wanted;
      ghost var c := Now();
      var ok := Run();
      UntilInner(World(), c, 1, 14, 0, 16);
      if !ok {
        c := Now();
        Fail();
        UntilInner(World(), c, 15, 16, 0, 16);
      }
    }

    /** The whole pass. Whatever the others do and whatever fails, the tables, the
        statements given and the end of the worker are those of the script. */
    method ProcessJob()
      requires Valid() && At(Load) && |embedder.requests| == asked
      modifies this, db, embedder
      ensures Valid() && Now() == Until(World(), old(Now()), Rank(Load), Rank(Point.FailVideo)) && worker == Idle
      ensures old(db.log) <= db.log && AskedOnce(old(embedder.requests), embedder.requests, transcript.content)
    {
      hide SchemaOk, Database.Snapshot, Database.Valid, Turn, Until, World, Wanted;
      ghost var begin := Now();
      LogGrows(World(), begin, 0, 16);
      var found := LoadJob();
      OneTurn(World(), begin, 0, 16);
      if found {
        RunOrFail();
      }
      Outside(World(), Now(), 0, 16);
    }
  }
}
