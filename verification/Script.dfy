/** One pass of the worker's program in a given environment. A script fixes everything the
    program does not decide: what other connections do to the tables before each of its
    statements, whether the connection holds and the services work, the ids and times it
    draws, and what it hears from outside. Given the script, the pass is one definite
    sequence of configurations. */
module Script {
  import opened Wrappers
  import opened Tables
  import opened Store
  import opened Pipeline
  import opened JobInvariants
  import Chunker
  import JobSteps
  import Sql

  /** What holds at one turn of the program. */
  datatype Moment = Moment(foreign: Db -> Db, connected: bool, works: bool, id: Id, heard: Transcript,
                           firstTry: Option<string>, secondTry: Option<string>, message: string, now: Time)

  /** The moments, and what comes of embedding the sections of a document at a turn. */
  datatype Env = Env(loc: Locale, moments: nat -> Moment, embed: (nat, seq<string>) -> Option<seq<Vector>>)

  /** Before the statement at the point a service has to work: the disk, the download and
      the check of the file, the transcription or the parser. */
  predicate NeedsService(p: Point) {
    p == Download || p == Recognize || p == Point.Store
  }

  /** The summary of the first try that succeeds. */
  function Summed(m: Moment): Option<string> {
    if m.firstTry.Some? then m.firstTry else m.secondTry
  }

  /** What the environment supplies to the program at a turn. */
  function SupplyAt(env: Env, turn: nat, w: Worker): Supply
    requires w.Busy?
  {
    var m := env.moments(turn);
    if w.at == InsertChunks then
      var e := env.embed(turn, Chunker.Sections(w.transcript.content));
      Supply(m.connected && e.Some?, m.id, m.heard, e.UnwrapOr([]), None, "", m.now)
    else
      Supply(m.connected && (NeedsService(w.at) ==> m.works), m.id, m.heard, [], Summed(m), m.message, m.now)
  }

  /** The statement that a worker with this supply gives to the database, if any. */
  function Executed(w: Worker, s: Supply): seq<Entry>
    requires w.Busy?
  {
    var tenant := w.row.tenant;
    match w.at
    case Load => []
    case Cleanup => if s.ok then [DeleteVideos(w.job, tenant)] else []
    case Insert => if s.ok then [AddVideo(s.newId, NewVideo(w.job, w.row))] else []
    case ListNames => []
    case Ensure =>
      if s.ok && |w.segments| < |w.names| then [EnsureName(s.newId, tenant, w.names[|w.segments|])] else []
    case Attach => if s.ok then [LinkVideo(w.video, w.segments)] else []
    case Download => StageEntry(w, Downloading, s)
    case Recognize => StageEntry(w, RecognizeStage(w.row.kind), s)
    case Store => if s.ok then [PutTranscript(w.video, s.transcript)] else []
    case Split => StageEntry(w, Chunking, s)
    case Embed => StageEntry(w, Embedding, s)
    case InsertChunks =>
      var sections := Chunker.Sections(w.transcript.content);
      if s.ok && sections != [] && |s.vectors| == |sections|
      then [AddChunks(ChunkRows(w.video, tenant, sections, s.vectors))] else []
    case CompleteJob => if s.ok then [SetJobStatus(w.job, tenant, Completed, Finished, None, s.now)] else []
    case CompleteVideo => if s.ok then [SetVideoStatus(w.video, tenant, VideoCompleted)] else []
    case Summarize =>
      if s.ok && w.transcript.content != ""
      then [PutSummary(w.video, SummaryRow(s.summary, w.transcript.language))] else []
    case FailJob => if s.ok then [SetJobStatus(w.job, tenant, Failed, w.row.stage, Some(s.message), s.now)] else []
    case FailVideo => if s.ok then [FailVideos(w.job, tenant)] else []
  }

  function StageEntry(w: Worker, stage: Stage, s: Supply): seq<Entry>
    requires w.Busy?
  {
    if s.ok then [SetJobStatus(w.job, w.row.tenant, Processing, stage, None, s.now)] else []
  }

  /** The tables, the worker, how many turns it has taken, and what the database was asked
      to do. */
  datatype Config = Config(db: Db, worker: Worker, turn: nat, log: seq<Entry>)

  /** One turn: the others act, then the worker's statement is executed. */
  ghost function Turn(env: Env, c: Config): Config {
    if c.worker == Idle then c
    else
      var d := Foreign(env.moments(c.turn).foreign, c.db, env.loc);
      var s := SupplyAt(env, c.turn, c.worker);
      var (d2, w2) := Step(d, env.loc, c.worker, s);
      Config(d2, w2, c.turn + 1, c.log + [Others] + Executed(c.worker, s))
  }

  // ---- the program ends

  predicate Within(w: Worker, lo: nat, hi: nat) {
    w.Busy? && lo <= Rank(w.at) <= hi
  }

  /** The points and the names that are still ahead. */
  function Ahead(w: Worker): (nat, nat) {
    if w == Idle then (0, 0)
    else (17 - Rank(w.at), if |w.segments| <= |w.names| then |w.names| - |w.segments| else 0)
  }

  predicate Less(a: (nat, nat), b: (nat, nat)) {
    a.0 < b.0 || (a.0 == b.0 && a.1 < b.1)
  }

  lemma NamesRunOut(db: Db, loc: Locale, w: Worker, s: Supply)
    requires w.Busy? && w.at == Ensure
    ensures var (db2, w2) := DoEnsure(db, loc, w, s);
            w2.Busy? && w2.at == Ensure ==> w2.names == w.names && |w.segments| < |w2.segments| <= |w.names|
  {
    hide Sql.EnsureSegment, Sql.EnsuredSegment;
  }

  lemma TurnsEnd(env: Env, c: Config)
    requires c.worker.Busy?
    ensures Less(Ahead(Turn(env, c).worker), Ahead(c.worker))
  {
    var d := Foreign(env.moments(c.turn).foreign, c.db, env.loc);
    var s := SupplyAt(env, c.turn, c.worker);
    JobSteps.RanksGoUp(d, env.loc, c.worker, s);
    if c.worker.at == Ensure {
      NamesRunOut(d, env.loc, c.worker, s);
    }
    hide DoEnsure, Foreign, SupplyAt, Executed;
  }

  /** The configuration in which the worker first stands outside the range of points. */
  ghost function Until(env: Env, c: Config, lo: nat, hi: nat): (d: Config)
    ensures !Within(d.worker, lo, hi)
    decreases Ahead(c.worker).0, Ahead(c.worker).1
  {
    if Within(c.worker, lo, hi) then
      TurnsEnd(env, c);
      Until(env, Turn(env, c), lo, hi)
    else c
  }

  lemma OneTurn(env: Env, c: Config, lo: nat, hi: nat)
    requires Within(c.worker, lo, hi)
    ensures Until(env, Turn(env, c), lo, hi) == Until(env, c, lo, hi)
  {
    hide Turn;
  }

  lemma Outside(env: Env, c: Config, lo: nat, hi: nat)
    requires !Within(c.worker, lo, hi)
    ensures Until(env, c, lo, hi) == c
  {
  }

  /** A part of the way first. */
  lemma {:induction false} UntilInner(env: Env, c: Config, a: nat, b: nat, lo: nat, hi: nat)
    requires lo <= a && b <= hi
    ensures Until(env, Until(env, c, a, b), lo, hi) == Until(env, c, lo, hi)
    decreases Ahead(c.worker).0, Ahead(c.worker).1
  {
    hide Turn;
    if Within(c.worker, a, b) {
      TurnsEnd(env, c);
      UntilInner(env, Turn(env, c), a, b, lo, hi);
    }
  }

  /** The log is never rewritten. */
  lemma {:induction false} LogGrows(env: Env, c: Config, lo: nat, hi: nat)
    ensures c.log <= Until(env, c, lo, hi).log
    decreases Ahead(c.worker).0, Ahead(c.worker).1
  {
    if Within(c.worker, lo, hi) {
      TurnsEnd(env, c);
      LogGrows(env, Turn(env, c), lo, hi);
      assert c.log <= Turn(env, c).log;
    }
    hide Turn;
  }

  /** The points at which the program only updates the stage: what it sets and where it
      goes on. */
  function StageAt(p: Point, kind: Kind): Option<(Stage, Point)> {
    match p
    case Download => Some((Downloading, Recognize))
    case Recognize => Some((RecognizeStage(kind), Point.Store))
    case Split => Some((Chunking, Embed))
    case Embed => Some((Stage.Embedding, InsertChunks))
    case _ => None
  }

  // What a turn amounts to at each point, in terms of its moment.

  /** The statement a worker gives at a turn, if any, and where it leads. */
  ghost predicate Gives(env: Env, turn: nat, w: Worker, d: Db, entries: seq<Entry>, d2: Db, w2: Worker)
    requires w.Busy?
  {
    Step(d, env.loc, w, SupplyAt(env, turn, w)) == (d2, w2) && Executed(w, SupplyAt(env, turn, w)) == entries
  }

  lemma GivenAt(env: Env, turn: nat, w: Worker, d: Db) returns (e: seq<Entry>, d2: Db, w2: Worker)
    requires w.Busy?
    ensures Gives(env, turn, w, d, e, d2, w2)
    ensures (d2, w2) == Step(d, env.loc, w, SupplyAt(env, turn, w)) && e == Executed(w, SupplyAt(env, turn, w))
  {
    hide Step, Executed, SupplyAt;
    var next := Step(d, env.loc, w, SupplyAt(env, turn, w));
    e, d2, w2 := Executed(w, SupplyAt(env, turn, w)), next.0, next.1;
  }

  lemma StageTurn(env: Env, turn: nat, w: Worker, d: Db) returns (e: seq<Entry>, d2: Db, w2: Worker)
    requires w.Busy? && StageAt(w.at, w.row.kind).Some? && (NeedsService(w.at) ==> env.moments(turn).works)
    ensures Gives(env, turn, w, d, e, d2, w2)
    ensures var m := env.moments(turn);
            var (stage, next) := StageAt(w.at, w.row.kind).value;
            var r := Sql.UpdateJobStatus(d, w.job, w.row.tenant, Processing, stage, None, m.now);
            && e == (if m.connected then [SetJobStatus(w.job, w.row.tenant, Processing, stage, None, m.now)] else [])
            && d2 == (if m.connected && r.Some? then r.value else d)
            && w2 == (if m.connected && r.Some? then w.(row := w.row.(stage := stage), at := next) else Failing(w))
  {
    hide Sql.UpdateJobStatus;
    e, d2, w2 := GivenAt(env, turn, w, d);
  }

  lemma BrokenTurn(env: Env, turn: nat, w: Worker, d: Db) returns (e: seq<Entry>, d2: Db, w2: Worker)
    requires w.Busy? && NeedsService(w.at) && !env.moments(turn).works
    ensures Gives(env, turn, w, d, e, d2, w2)
    ensures e == [] && d2 == d && w2 == Failing(w)
  {
    hide Sql.UpdateJobStatus, Sql.UpsertTranscript;
    e, d2, w2 := GivenAt(env, turn, w, d);
  }

  lemma LoadTurn(env: Env, turn: nat, w: Worker, d: Db) returns (e: seq<Entry>, d2: Db, w2: Worker)
    requires w.Busy? && w.at == Load
    ensures Gives(env, turn, w, d, e, d2, w2)
    ensures var m := env.moments(turn);
            && e == [] && d2 == d
            && w2 == (if m.connected && w.job in d.jobs then w.(row := d.jobs[w.job], at := Cleanup) else Idle)
  {
    e, d2, w2 := GivenAt(env, turn, w, d);
  }

  lemma CleanupTurn(env: Env, turn: nat, w: Worker, d: Db) returns (e: seq<Entry>, d2: Db, w2: Worker)
    requires w.Busy? && w.at == Cleanup
    ensures Gives(env, turn, w, d, e, d2, w2)
    ensures var m := env.moments(turn);
            && e == (if m.connected then [DeleteVideos(w.job, w.row.tenant)] else [])
            && d2 == (if m.connected then Sql.DeleteVideoByJobID(d, w.job, w.row.tenant) else d)
            && w2 == (if m.connected then w.(at := Insert) else Failing(w))
  {
    hide Sql.DeleteVideoByJobID;
    e, d2, w2 := GivenAt(env, turn, w, d);
  }

  lemma InsertTurn(env: Env, turn: nat, w: Worker, d: Db) returns (e: seq<Entry>, d2: Db, w2: Worker)
    requires w.Busy? && w.at == Insert
    ensures Gives(env, turn, w, d, e, d2, w2)
    ensures var m := env.moments(turn);
            var r := Sql.CreateVideo(d, m.id, NewVideo(w.job, w.row));
            && e == (if m.connected then [AddVideo(m.id, NewVideo(w.job, w.row))] else [])
            && d2 == (if m.connected && r.Some? then r.value else d)
            && w2 == (if m.connected && r.Some? then w.(video := m.id, at := Point.ListNames) else Failing(w))
  {
    hide Sql.CreateVideo;
    e, d2, w2 := GivenAt(env, turn, w, d);
  }

  lemma ListTurn(env: Env, turn: nat, w: Worker, d: Db) returns (e: seq<Entry>, d2: Db, w2: Worker)
    requires w.Busy? && w.at == Point.ListNames
    ensures Gives(env, turn, w, d, e, d2, w2)
    ensures var m := env.moments(turn);
            && e == [] && d2 == d
            && w2 == (if m.connected then EnsureNext(w.(names := ListNamesByJob(d, env.loc, w.job), segments := []))
                      else Failing(w))
  {
    hide ListNamesByJob;
    e, d2, w2 := GivenAt(env, turn, w, d);
  }

  lemma EnsureTurn(env: Env, turn: nat, w: Worker, d: Db) returns (e: seq<Entry>, d2: Db, w2: Worker)
    requires w.Busy? && w.at == Ensure && |w.segments| < |w.names|
    ensures Gives(env, turn, w, d, e, d2, w2)
    ensures var m := env.moments(turn);
            var name := w.names[|w.segments|];
            var r := Sql.EnsureSegment(d, env.loc, m.id, w.row.tenant, name);
            var id := Sql.EnsuredSegment(d, env.loc, m.id, w.row.tenant, name);
            && e == (if m.connected then [EnsureName(m.id, w.row.tenant, name)] else [])
            && d2 == (if m.connected && r.Some? then r.value else d)
            && w2 == (if m.connected && r.Some? then EnsureNext(w.(segments := w.segments + [id])) else Failing(w))
  {
    hide Sql.EnsureSegment, Sql.EnsuredSegment;
    e, d2, w2 := GivenAt(env, turn, w, d);
  }

  lemma AttachTurn(env: Env, turn: nat, w: Worker, d: Db) returns (e: seq<Entry>, d2: Db, w2: Worker)
    requires w.Busy? && w.at == Attach
    ensures Gives(env, turn, w, d, e, d2, w2)
    ensures var m := env.moments(turn);
            var r := Sql.AttachVideoSegments(d, w.video, w.segments);
            && e == (if m.connected then [LinkVideo(w.video, w.segments)] else [])
            && d2 == (if m.connected && r.Some? then r.value else d)
            && w2 == (if m.connected && r.Some? then w.(at := Download) else Failing(w))
  {
    hide Sql.AttachVideoSegments;
    e, d2, w2 := GivenAt(env, turn, w, d);
  }

  lemma StoreTurn(env: Env, turn: nat, w: Worker, d: Db) returns (e: seq<Entry>, d2: Db, w2: Worker)
    requires w.Busy? && w.at == Point.Store && env.moments(turn).works
    ensures Gives(env, turn, w, d, e, d2, w2)
    ensures var m := env.moments(turn);
            var r := Sql.UpsertTranscript(d, w.video, m.heard);
            && e == (if m.connected then [PutTranscript(w.video, m.heard)] else [])
            && d2 == (if m.connected && r.Some? then r.value else d)
            && w2 == (if m.connected && r.Some? then w.(transcript := m.heard, at := Split) else Failing(w))
  {
    hide Sql.UpsertTranscript;
    e, d2, w2 := GivenAt(env, turn, w, d);
  }

  lemma CompleteJobTurn(env: Env, turn: nat, w: Worker, d: Db) returns (e: seq<Entry>, d2: Db, w2: Worker)
    requires w.Busy? && w.at == CompleteJob
    ensures Gives(env, turn, w, d, e, d2, w2)
    ensures var m := env.moments(turn);
            var r := Sql.UpdateJobStatus(d, w.job, w.row.tenant, Completed, Finished, None, m.now);
            && e == (if m.connected then [SetJobStatus(w.job, w.row.tenant, Completed, Finished, None, m.now)] else [])
            && d2 == (if m.connected && r.Some? then r.value else d)
            && w2 == (if m.connected && r.Some? then w.(at := CompleteVideo) else Failing(w))
  {
    hide Sql.UpdateJobStatus;
    e, d2, w2 := GivenAt(env, turn, w, d);
  }

  lemma CompleteVideoTurn(env: Env, turn: nat, w: Worker, d: Db) returns (e: seq<Entry>, d2: Db, w2: Worker)
    requires w.Busy? && w.at == CompleteVideo
    ensures Gives(env, turn, w, d, e, d2, w2)
    ensures var m := env.moments(turn);
            var r := Sql.UpdateVideoStatus(d, w.video, w.row.tenant, VideoCompleted);
            && e == (if m.connected then [SetVideoStatus(w.video, w.row.tenant, VideoCompleted)] else [])
            && d2 == (if m.connected && r.Some? then r.value else d)
            && w2 == (if m.connected && r.Some? then w.(at := Summarize) else Failing(w))
  {
    hide Sql.UpdateVideoStatus;
    e, d2, w2 := GivenAt(env, turn, w, d);
  }

  lemma SummarizeTurn(env: Env, turn: nat, w: Worker, d: Db) returns (e: seq<Entry>, d2: Db, w2: Worker)
    requires w.Busy? && w.at == Summarize
    ensures Gives(env, turn, w, d, e, d2, w2)
    ensures var m := env.moments(turn);
            var row := SummaryRow(Summed(m), w.transcript.language);
            var r := Sql.UpsertSummary(d, w.video, row);
            var tried := m.connected && w.transcript.content != "";
            && e == (if tried then [PutSummary(w.video, row)] else [])
            && d2 == (if tried && r.Some? then r.value else d)
            && w2 == Idle
  {
    hide Sql.UpsertSummary;
    e, d2, w2 := GivenAt(env, turn, w, d);
  }

  lemma FailJobTurn(env: Env, turn: nat, w: Worker, d: Db) returns (e: seq<Entry>, d2: Db, w2: Worker)
    requires w.Busy? && w.at == FailJob
    ensures Gives(env, turn, w, d, e, d2, w2)
    ensures var m := env.moments(turn);
            var r := Sql.UpdateJobStatus(d, w.job, w.row.tenant, Failed, w.row.stage, Some(m.message), m.now);
            && e == (if m.connected
                     then [SetJobStatus(w.job, w.row.tenant, Failed, w.row.stage, Some(m.message), m.now)] else [])
            && d2 == (if m.connected && r.Some? then r.value else d)
            && w2 == w.(at := FailVideo)
  {
    hide Sql.UpdateJobStatus;
    e, d2, w2 := GivenAt(env, turn, w, d);
  }

  lemma FailVideoTurn(env: Env, turn: nat, w: Worker, d: Db) returns (e: seq<Entry>, d2: Db, w2: Worker)
    requires w.Busy? && w.at == FailVideo
    ensures Gives(env, turn, w, d, e, d2, w2)
    ensures var m := env.moments(turn);
            && e == (if m.connected then [FailVideos(w.job, w.row.tenant)] else [])
            && d2 == (if m.connected then Sql.FailVideoByJobID(d, w.job, w.row.tenant) else d)
            && w2 == Idle
  {
    hide Sql.FailVideoByJobID;
    e, d2, w2 := GivenAt(env, turn, w, d);
  }

  /** What is to come of inserting the rows, if there are any. */
  predicate Inserted(m: Moment, rows: Option<seq<ChunkRow>>, d: Db, log: seq<Entry>,
                     ok: bool, d2: Db, log2: seq<Entry>) {
    if rows.None? || rows.value == [] then ok == rows.Some? && d2 == d && log2 == log
    else
      var r := Sql.InsertChunks(d, rows.value);
      && ok == (m.connected && r.Some?)
      && d2 == (if ok then r.value else d)
      && log2 == log + if m.connected then [AddChunks(rows.value)] else []
  }

  /** The rows are those that embedding the sections at this turn makes. */
  predicate MadeOf(env: Env, turn: nat, w: Worker, rows: Option<seq<ChunkRow>>)
    requires w.Busy?
  {
    var sections := Chunker.Sections(w.transcript.content);
    match env.embed(turn, sections)
    case None => rows == None && sections != []
    case Some(vectors) => |vectors| == |sections| && rows == Some(ChunkRows(w.video, w.row.tenant, sections, vectors))
  }

  lemma ChunksTurn(env: Env, turn: nat, w: Worker, rows: Option<seq<ChunkRow>>, d: Db, log: seq<Entry>,
                   ok: bool, d2: Db, log2: seq<Entry>)
    returns (entries: seq<Entry>, w2: Worker)
    requires w.Busy? && w.at == InsertChunks && MadeOf(env, turn, w, rows)
    requires Inserted(env.moments(turn), rows, d, log, ok, d2, log2)
    ensures Gives(env, turn, w, d, entries, d2, w2) && log2 == log + entries
    ensures w2.Busy? && w2 == w.(vectors := w2.vectors, at := if ok then CompleteJob else FailJob)
  {
    hide Sql.InsertChunks, Chunker.Sections;
    var s := SupplyAt(env, turn, w);
    w2, entries := Step(d, env.loc, w, s).1, Executed(w, s);
    assert log + [] == log;
  }

  /** A statement after what the others did makes a turn. */
  lemma WholeTurn(env: Env, c: Config, entries: seq<Entry>, d2: Db, w2: Worker)
    requires c.worker.Busy?
    requires Gives(env, c.turn, c.worker, Foreign(env.moments(c.turn).foreign, c.db, env.loc), entries, d2, w2)
    ensures Turn(env, c) == Config(d2, w2, c.turn + 1, c.log + [Others] + entries)
  {
    hide Foreign, Step, SupplyAt, Executed;
  }

  /** Failing gives both statements, the job's and then the video's, each exactly when the
      connection holds at its turn. */
  lemma FailGivesBoth(env: Env, c: Config)
    requires c.worker.Busy? && c.worker.at == FailJob
    ensures var w, m, n := c.worker, env.moments(c.turn), env.moments(c.turn + 1);
            var d := Until(env, c, Rank(FailJob), Rank(FailVideo));
            && d.worker == Idle && d.turn == c.turn + 2
            && d.log == c.log + [Others]
                        + (if m.connected
                           then [SetJobStatus(w.job, w.row.tenant, Failed, w.row.stage, Some(m.message), m.now)]
                           else [])
                        + [Others] + (if n.connected then [FailVideos(w.job, w.row.tenant)] else [])
  {
    hide Foreign, Turn, Until, Gives;
    var e1, d1, w1 := FailJobTurn(env, c.turn, c.worker, Foreign(env.moments(c.turn).foreign, c.db, env.loc));
    WholeTurn(env, c, e1, d1, w1);
    OneTurn(env, c, 15, 16);
    var c1 := Turn(env, c);
    var e2, d2, w2 := FailVideoTurn(env, c1.turn, c1.worker,
                                    Foreign(env.moments(c1.turn).foreign, c1.db, env.loc));
    WholeTurn(env, c1, e2, d2, w2);
    OneTurn(env, c1, 15, 16);
    Outside(env, Turn(env, c1), 15, 16);
  }

  /** What the turn at the summary records, when the connection holds, there is a text and
      the video is there: a completed summary exactly when one of the two tries succeeds,
      with the text of the first that does, and otherwise an error and nothing else. */
  lemma SummaryIsRecorded(env: Env, c: Config)
    requires c.worker.Busy? && c.worker.at == Summarize && c.worker.transcript.content != ""
    requires var m := env.moments(c.turn);
             m.connected && c.worker.video in Foreign(m.foreign, c.db, env.loc).videos
    ensures var w, m, d := c.worker, env.moments(c.turn), Turn(env, c);
            && d.worker == Idle && w.video in d.db.summaries
            && var row := d.db.summaries[w.video];
            && (row.status == SummaryCompleted <==> m.firstTry.Some? || m.secondTry.Some?)
            && (row.status == SummaryCompleted ==>
                  && row.content == (if m.firstTry.Some? then m.firstTry else m.secondTry)
                  && row.language == w.transcript.language && row.model == Some("deepseek") && row.error == None)
            && (row.status == SummaryFailed ==>
                  row.content == None && row.language == None && row.model == None
                  && row.error == Some("summary generation failed"))
  {
    hide Foreign, Turn, Gives;
    var e, d, w := SummarizeTurn(env, c.turn, c.worker, Foreign(env.moments(c.turn).foreign, c.db, env.loc));
    WholeTurn(env, c, e, d, w);
  }
}
