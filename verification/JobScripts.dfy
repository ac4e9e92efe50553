/** The scripts of the worker's program cover the running system: whatever a worker lives
    through between two claims is a script, and the program plays it. */
module JobScripts {
  import opened Wrappers
  import opened Tables
  import opened Pipeline
  import opened JobInvariants
  import opened JobSystem
  import opened Script
  import opened Schema
  import opened Store
  import Chunker
  import Embedding
  import JobInductive
  import JobIntake
  import JobProgress
  import JobSteps
  import Processor
  import Sql

  /** What happens up to one statement of a worker: the actions of the others, and then
      the statement. */
  datatype Part = Part(others: seq<Action>, supply: Supply)

  predicate NotOf(a: Action, i: nat) {
    !((a.Claim? || a.Die? || a.Work?) && a.worker == i)
  }

  /** The parts one after the other. */
  function Played(i: nat, parts: seq<Part>): seq<Action> {
    if parts == [] then []
    else
      var last := parts[|parts| - 1];
      Played(i, parts[..|parts| - 1]) + (last.others + [Work(i, last.supply)])
  }

  ghost function Before(s: State, loc: Locale, i: nat, parts: seq<Part>, k: nat): State
    requires k <= |parts|
  {
    Run(s, loc, Played(i, parts[..k]))
  }

  /** Worker i is at work all the time, and nobody else plays its part. */
  ghost predicate LivesThrough(s: State, loc: Locale, i: nat, parts: seq<Part>) {
    forall k: nat | k < |parts| ::
      && (forall a | a in parts[k].others :: NotOf(a, i))
      && i < |Before(s, loc, i, parts, k).workers| && Before(s, loc, i, parts, k).workers[i].Busy?
  }

  /** The moment a part makes of the state it begins in. */
  ghost function MomentOf(s: State, loc: Locale, part: Part): Moment {
    Moment(d => Run(s.(db := d), loc, part.others).db, part.supply.ok, true, part.supply.newId,
           part.supply.transcript, part.supply.summary, None, part.supply.message, Run(s, loc, part.others).now)
  }

  function VectorsFor(supply: Supply, sections: seq<string>): Option<seq<Vector>> {
    if |supply.vectors| == |sections| then Some(supply.vectors) else None
  }

  const NOTHING := Part([], Supply(false, 0, NO_TRANSCRIPT, [], None, "", 0))

  function PartAt(parts: seq<Part>, k: nat): Part {
    if k < |parts| then parts[k] else NOTHING
  }

  ghost function EnvOf(s: State, loc: Locale, i: nat, parts: seq<Part>): Env {
    Env(loc, (k: nat) => MomentOf(Before(s, loc, i, parts, if k < |parts| then k else |parts|), loc, PartAt(parts, k)),
        (k: nat, sections: seq<string>) => VectorsFor(PartAt(parts, k).supply, sections))
  }

  ghost function Turns(env: Env, c: Config, n: nat): Config {
    if n == 0 then c else Turn(env, Turns(env, c, n - 1))
  }

  // ---- one part is one turn

  lemma SchemaOfTables(db: Db, loc: Locale)
    requires TablesOk(db, loc)
    ensures SchemaOk(db, loc)
  {
    assert forall j | j in db.jobs :: Backed(db, j);
    assert forall v | v in db.videos :: VideoMatches(db, v);
    assert ChildrenOk(db) && LinksOk(db) && SegmentsUnique(db, loc);
  }

  /** Only what the point needs of a supply matters. */
  lemma SameStep(db: Db, loc: Locale, w: Worker, env: Env, turn: nat, part: Part)
    requires w.Busy?
    requires var m := env.moments(turn);
             && m.connected == part.supply.ok && m.works && m.id == part.supply.newId
             && m.heard == part.supply.transcript && Summed(m) == part.supply.summary
             && m.message == part.supply.message
    requires forall sections :: env.embed(turn, sections) == VectorsFor(part.supply, sections)
    ensures Step(db, loc, w, SupplyAt(env, turn, w)) == Step(db, loc, w, part.supply.(now := env.moments(turn).now))
  {
    hide Sql.UpdateJobStatus, Sql.DeleteVideoByJobID, Sql.CreateVideo, Sql.EnsureSegment, Sql.EnsuredSegment;
    hide Sql.AttachVideoSegments, Sql.UpsertTranscript, Sql.InsertChunks, ListNamesByJob, Chunker.Sections;
    hide Sql.UpdateVideoStatus, Sql.FailVideoByJobID, Sql.UpsertSummary;
  }

  lemma KeepsWorker(s: State, loc: Locale, a: Action, i: nat)
    requires i < |s.workers| && NotOf(a, i)
    ensures |Apply(s, loc, a).workers| == |s.workers| && Apply(s, loc, a).workers[i] == s.workers[i]
  {
    hide Step, JobIntake.CreateJob;
  }

  lemma {:induction false} OthersKeepWorker(s: State, loc: Locale, actions: seq<Action>, i: nat)
    requires i < |s.workers| && forall a | a in actions :: NotOf(a, i)
    ensures var s2 := Run(s, loc, actions); |s2.workers| == |s.workers| && s2.workers[i] == s.workers[i]
    decreases |actions|
  {
    if actions != [] {
      hide Apply;
      OthersKeepWorker(s, loc, actions[..|actions| - 1], i);
      KeepsWorker(Run(s, loc, actions[..|actions| - 1]), loc, actions[|actions| - 1], i);
    }
  }

  lemma PartIsTurn(s: State, loc: Locale, i: nat, part: Part, env: Env, c: Config)
    requires Inv(s, loc) && i < |s.workers| && s.workers[i].Busy? && forall a | a in part.others :: NotOf(a, i)
    requires env.loc == loc && env.moments(c.turn) == MomentOf(s, loc, part)
    requires forall sections :: env.embed(c.turn, sections) == VectorsFor(part.supply, sections)
    requires c.db == s.db && c.worker == s.workers[i]
    ensures var s2 := Run(s, loc, part.others + [Work(i, part.supply)]);
            && |s2.workers| == |s.workers| && Inv(s2, loc)
            && Turn(env, c).db == s2.db && Turn(env, c).worker == s2.workers[i] && Turn(env, c).turn == c.turn + 1
  {
    hide Step, SupplyAt, Executed, CoreOk, ClaimsOk, Apply, SchemaOk;
    var s1 := Run(s, loc, part.others);
    JobInductive.RunInv(s, loc, part.others);
    assert TablesOk(s1.db, loc) by {
      TablesOfInv(s1, loc);
    }
    SchemaOfTables(s1.db, loc);
    OthersKeepWorker(s, loc, part.others, i);
    assert s.(db := s.db) == s;
    SameStep(s1.db, loc, c.worker, env, c.turn, part);
    JobProgress.RunOneMore(s, loc, part.others, Work(i, part.supply));
    JobProgress.ApplyWork(s1, loc, i, part.supply);
    JobInductive.InvKept(s1, loc, Work(i, part.supply));
    hide TablesOk;
  }

  lemma TablesOfInv(s: State, loc: Locale)
    requires Inv(s, loc)
    ensures TablesOk(s.db, loc)
  {
  }

  // ---- all of them

  lemma {:induction false} PrefixPlays(s: State, loc: Locale, i: nat, parts: seq<Part>, c: Config, n: nat)
    requires Inv(s, loc) && i < |s.workers| && LivesThrough(s, loc, i, parts) && n <= |parts|
    requires c.db == s.db && c.worker == s.workers[i] && c.turn == 0
    ensures var s2, d := Before(s, loc, i, parts, n), Turns(EnvOf(s, loc, i, parts), c, n);
            && Inv(s2, loc) && |s2.workers| == |s.workers|
            && d.db == s2.db && d.worker == s2.workers[i] && d.turn == n
    decreases n
  {
    hide Inv, Turn, MomentOf, VectorsFor;
    if n > 0 {
      PrefixPlays(s, loc, i, parts, c, n - 1);
      var before, part := Before(s, loc, i, parts, n - 1), parts[n - 1];
      PartIsTurn(before, loc, i, part, EnvOf(s, loc, i, parts), Turns(EnvOf(s, loc, i, parts), c, n - 1));
      assert parts[..n][..n - 1] == parts[..n - 1];
      JobProgress.RunRun(s, loc, Played(i, parts[..n - 1]), part.others + [Work(i, part.supply)]);
    }
  }

  lemma {:induction false} FirstTurn(env: Env, c: Config, n: nat)
    ensures Turns(env, c, n + 1) == Turns(env, Turn(env, c), n)
  {
    hide Turn;
    if n > 0 {
      FirstTurn(env, c, n - 1);
    }
  }

  lemma {:induction false} IdleStays(env: Env, c: Config, n: nat)
    requires c.worker == Idle
    ensures Turns(env, c, n) == c
  {
    if n > 0 {
      IdleStays(env, c, n - 1);
    }
  }

  lemma {:induction false} TurnsLeadOut(env: Env, c: Config, n: nat)
    requires Turns(env, c, n).worker == Idle
    ensures Until(env, c, 0, 16) == Turns(env, c, n)
    decreases n
  {
    hide Turn, Until;
    if c.worker == Idle {
      IdleStays(env, c, n);
      Outside(env, c, 0, 16);
    } else {
      assert n > 0;
      hide Turns;
      FirstTurn(env, c, n - 1);
      TurnsLeadOut(env, Turn(env, c), n - 1);
      OneTurn(env, c, 0, 16);
    }
  }

  // ---- a service for every script

  /** Where the pass comes to embed its document, if it does. */
  ghost function Embeds(env: Env, c: Config): Config {
    Until(env, c, 0, 10)
  }

  /** A service that gives the vectors of that turn, whatever its number of requests. */
  ghost function ServiceFor(env: Env, c: Config): Embedding.Service {
    (n: nat, texts: seq<string>) => env.embed(Embeds(env, c).turn, texts)
  }

  /** One request for all sections of the document. */
  ghost function SizeFor(env: Env, c: Config): nat {
    var w := Embeds(env, c).worker;
    if w.Busy? && Chunker.Sections(w.transcript.content) != [] then |Chunker.Sections(w.transcript.content)| else 1
  }

  /** The world of a pass over an embedder with that service and batches of that size. */
  ghost function WorldFor(env: Env, c: Config, asked: nat): Env {
    var m := SizeFor(env, c);
    Env(env.loc, env.moments, Processor.Vectors(ServiceFor(env, c), asked, m, m))
  }

  lemma OneBatch(service: Embedding.Service, n: nat, sections: seq<string>)
    requires sections != []
    ensures var m := |sections|;
            Embedding.Embedded(service, n, Embedding.Plan(sections, m, m)) ==
            if Embedding.Good(service, n, sections) then service(n, sections) else None
  {
    var m := |sections|;
    assert sections[..m] == sections && sections[m..] == [];
    assert Embedding.Batches(sections, m) == [sections] + Embedding.Batches([], m);
    assert Embedding.Plan(sections, m, m) == [sections] by {
      assert Embedding.Batches(sections, m) + Embedding.Plan([], m, m) == [sections];
    }
    hide Embedding.Batches, Embedding.Plan;
    Embedding.OneRequest(service, n, sections);
  }

  /** Two supplies that agree on vectors as far as the sections fit are as good as each
      other at the insertion. */
  lemma InsertionTurn(env: Env, env2: Env, c: Config)
    requires c.worker.Busy? && c.worker.at == InsertChunks && env2.loc == env.loc && env2.moments == env.moments
    requires var sections := Chunker.Sections(c.worker.transcript.content);
             var e := env.embed(c.turn, sections);
             sections != [] ==> env2.embed(c.turn, sections) ==
                                if e.Some? && |e.value| == |sections| then e else None
    ensures Turn(env2, c) == Turn(env, c)
  {
    hide Foreign, Chunker.Sections, Sql.InsertChunks;
  }

  lemma OtherTurn(env: Env, env2: Env, c: Config)
    requires env2.loc == env.loc && env2.moments == env.moments
    requires c.worker.Busy? ==> c.worker.at != InsertChunks
    ensures Turn(env2, c) == Turn(env, c)
  {
    hide Foreign, Step, Executed;
  }

  /** Where the pass embeds, the service gives what the script gives. */
  lemma SameInsertion(env: Env, c: Config, asked: nat)
    requires Embeds(env, c).worker.Busy? && Embeds(env, c).worker.at == InsertChunks
    ensures Turn(WorldFor(env, c, asked), Embeds(env, c)) == Turn(env, Embeds(env, c))
  {
    hide Turn, Until;
    var d := Embeds(env, c);
    var sections := Chunker.Sections(d.worker.transcript.content);
    if sections != [] {
      OneBatch(ServiceFor(env, c), asked, sections);
    }
    hide Chunker.Sections, Embedding.Embedded, Embedding.Plan, Embeds;
    InsertionTurn(env, WorldFor(env, c, asked), d);
  }

  lemma RanksRise(env: Env, c: Config)
    requires c.worker.Busy?
    ensures var w2 := Turn(env, c).worker;
            w2.Busy? ==> Rank(w2.at) > Rank(c.worker.at) || (c.worker.at == Ensure && w2.at == Ensure)
  {
    hide Foreign, SupplyAt, Executed, Step;
    JobSteps.RanksGoUp(Foreign(env.moments(c.turn).foreign, c.db, env.loc), env.loc, c.worker,
                       SupplyAt(env, c.turn, c.worker));
  }

  /** Worlds that differ only in their embedding, and agree where the pass embeds, are the
      same world to it. */
  lemma {:induction false} SameTurns(env: Env, env2: Env, c: Config, n: nat)
    requires env2.loc == env.loc && env2.moments == env.moments
    requires var d := Embeds(env, c);
             d.worker.Busy? && d.worker.at == InsertChunks ==> Turn(env2, d) == Turn(env, d)
    ensures Turns(env2, c, n) == Turns(env, c, n)
    decreases n
  {
    hide Turn, Until;
    if c.worker == Idle {
      IdleStays(env, c, n);
      IdleStays(env2, c, n);
    } else if n > 0 {
      hide Turns;
      var next := Turn(env, c);
      RanksRise(env, c);
      if Rank(c.worker.at) <= 10 {
        OneTurn(env, c, 0, 10);
        OtherTurn(env, env2, c);
      } else {
        Outside(env, c, 0, 10);
        Outside(env, next, 0, 10);
        if c.worker.at != InsertChunks {
          OtherTurn(env, env2, c);
        }
      }
      SameTurns(env, env2, next, n - 1);
      FirstTurn(env, c, n - 1);
      FirstTurn(env2, c, n - 1);
    }
  }

  lemma ServiceExists(env: Env, c: Config, asked: nat, n: nat)
    ensures Turns(WorldFor(env, c, asked), c, n) == Turns(env, c, n)
  {
    if Embeds(env, c).worker.Busy? && Embeds(env, c).worker.at == InsertChunks {
      SameInsertion(env, c, asked);
    }
    var env2 := WorldFor(env, c, asked);
    assert env2.loc == env.loc && env2.moments == env.moments;
    hide WorldFor, Embeds, Turns, Turn;
    SameTurns(env, env2, c, n);
  }

  // ---- the program in the running system

  /** The pass has the moments of the script, and the service and the batch sizes for it. */
  ghost predicate Plays(p: Processor.Pass, env: Env, service: Embedding.Service, size: nat) {
    p.db.loc == env.loc && p.moments == env.moments && p.embedder.service == service
    && p.batchSize == size && p.embedder.batchSize == size
  }

  lemma WorldOfPass(p: Processor.Pass, env: Env, c: Config)
    requires Plays(p, env, ServiceFor(env, c), SizeFor(env, c))
    ensures p.World() == WorldFor(env, c, p.asked)
  {
    hide Embeds, ServiceFor, Processor.Vectors;
    assert SizeFor(env, c) > 0;
    hide SizeFor;
  }

  /** For every life of a worker in the running system, a pass with the moments and the
      service of its script has, turn for turn, the tables and the worker of the system. */
  lemma RunsArePlayed(s: State, loc: Locale, i: nat, parts: seq<Part>, c: Config, p: Processor.Pass)
    requires Inv(s, loc) && i < |s.workers| && LivesThrough(s, loc, i, parts)
    requires c.db == s.db && c.worker == s.workers[i] && c.turn == 0
    requires var env := EnvOf(s, loc, i, parts); Plays(p, env, ServiceFor(env, c), SizeFor(env, c))
    ensures forall n: nat | n <= |parts| ::
              var s2, d := Before(s, loc, i, parts, n), Turns(p.World(), c, n);
              i < |s2.workers| && d.db == s2.db && d.worker == s2.workers[i]
  {
    hide Inv, Turns, EnvOf, Plays, ServiceFor, SizeFor, WorldFor, LivesThrough, Before;
    var env := EnvOf(s, loc, i, parts);
    WorldOfPass(p, env, c);
    forall n: nat | n <= |parts|
      ensures var s2, d := Before(s, loc, i, parts, n), Turns(p.World(), c, n);
              i < |s2.workers| && d.db == s2.db && d.worker == s2.workers[i]
    {
      PrefixPlays(s, loc, i, parts, c, n);
      ServiceExists(env, c, p.asked, n);
    }
  }

  /** When that worker has become idle, the pass ends with exactly the tables of the running
      system: `ProcessJob` is proved to end where `Until` does. */
  lemma PassesPlayRuns(s: State, loc: Locale, i: nat, parts: seq<Part>, c: Config, p: Processor.Pass)
    requires Inv(s, loc) && i < |s.workers| && LivesThrough(s, loc, i, parts)
    requires c.db == s.db && c.worker == s.workers[i] && c.turn == 0
    requires var env := EnvOf(s, loc, i, parts); Plays(p, env, ServiceFor(env, c), SizeFor(env, c))
    requires var s2 := Run(s, loc, Played(i, parts)); i < |s2.workers| && s2.workers[i] == Idle
    ensures Until(p.World(), c, Rank(Load), Rank(FailVideo)).db == Run(s, loc, Played(i, parts)).db
    ensures Until(p.World(), c, Rank(Load), Rank(FailVideo)).worker == Idle
  {
    hide Inv, Turns, EnvOf, Plays, ServiceFor, SizeFor, LivesThrough, Until, Run, Played;
    RunsArePlayed(s, loc, i, parts, c, p);
    assert parts[..|parts|] == parts;
    assert Before(s, loc, i, parts, |parts|) == Run(s, loc, Played(i, parts));
    TurnsLeadOut(p.World(), c, |parts|);
  }
}
