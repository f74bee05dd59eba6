/** Concrete states in which a property that one might expect of the service fails. */
module Witnesses {
  import opened Types
  import opened Table
  import opened Ledger
  import opened LedgerLaws
  import opened Jobs
  import opened JobLaws
  import opened Runs
  import Safety

  function PlainContract(m2: bool): Contract {
    Contract(m2, false, PolicyV1, NoSubexperiment, false, false, false, false, true, YUAN, 3, 512,
             None, None, None, None, true, false, None, None)
  }

  function PlainRun(m2: bool, p: Provider): Run { Run(PlainContract(m2), p, RunRunning, 100, false, None) }

  function EmptyBudget(): Budget { Budget(YUAN, 20, 0, 0, 0, None) }

  function NoSpend(): Budgets { Budgets(EmptyBudget(), EmptyBudget(), EmptyBudget()) }

  lemma NothingSpent(db: Db)
    requires db.calls == [] && db.budgets == NoSpend()
    ensures AllWithin(db) && LanesExclusive(db) && Serial(db) && (forall e :: Conserved(db, e))
            && (forall e :: HaltExact(db, e))
  {
  }

  // ---------------------------------------------------------------- foreign answers

  /** A FAILED job can still be touched by an open call: a run without extraction tools names its batch in an answer. */
  lemma ForeignAnswerTouchesFailedJob() returns (db: Db, w: Caller, q: Request, j: Id)
    ensures Sound(db) && CanReserve(db, w, q) && j in db.jobs && db.jobs[j].state.Failed?
    ensures HasOpenCalls(ReserveCall(db, w, q).calls, j, db.jobs[j].batch)
            && !HasOpenCalls(db.calls, j, db.jobs[j].batch)
  {
    j := 7;
    var b := 8;
    var job := Job(1, 0, 0, b, 0, Failed, None, None, None, 1, 1, 100, false, None, OtherReason);
    db := Db(0, true, map[1 := PlainRun(true, Mock), 2 := PlainRun(false, Mock)], map[j := job],
             map[b := NewBatch(1, Some(j), 100)], map[],
    [], NoSpend(), map[], map[], 0);
    NothingSpent(db);
    w := Caller(2, None, None, 0, None, true, true);
    q := Request(5, Mock, Payload(10, 1, 0), Answer, Some(b), None, None, 0, true, true, false, NoSubexperiment, 0);
    var after := ReserveCall(db, w, q);
    assert Touches(after.calls[0], j, b);
  }

  // -------------------------------------------------------------------- publication

  /** A job is published while a probe call of its own is still in flight: validated candidates, one reserved probe
      call. */
  lemma PublicationLeavesOpenCall() returns (db: Db, w: Caller, b: Id, report: Id)
    ensures Sound(db) && CanCommit(db, w, b, report) && w.job.Some? && Safety.HasOpenCall(db.calls, w.job.value)
    ensures var after := Commit(db, w, b, 1);
            w.job.value in after.jobs && after.jobs[w.job.value].state.Committed?
              && Safety.HasOpenCall(after.calls, w.job.value)
  {
    var j := 7;
    b, report := 8, 9;
    var empty := Db(0, true, map[1 := PlainRun(true, Mock)], map[j := ReadyJob(b)], map[b := ProbedBatch(j, report, 0)],
                    map[], [], NoSpend(), map[], map[], 0);
    NothingSpent(empty);
    w := Caller(1, Some(j), Some(3), 1, None, true, true);
    db := empty.(calls := [ProbeCall(j, b)], batches := map[b := ProbedBatch(j, report, 1)]);
    OneMockCall(empty, db, ProbeCall(j, b));
    OneRow(ProbeCall(j, b), CountIn(b, Probe));
    OneRow(ProbeCall(j, b), CountIn(b, Extraction));
    OneRow(ProbeCall(j, b), CountIn(b, Mapping));
    assert BatchOk(db, b) && JobOk(db, j);
    assert Safety.OpenCallOf(db.calls[0], j);
  }

  function ReadyJob(b: Id): Job {
    Job(1, 0, 0, b, 0, ResultReady, Some(3), Some(50), None, 1, 1, 100, false, Some(4), NoReason)
  }

  function ProbedBatch(j: Id, report: Id, models: nat): Batch {
    Batch(1, Some(j), Validated, Some(4), Some(4), Some(report), if models > 0 then Some(6) else None,
          if models > 0 then 1 else 0, models, 0, 100)
  }

  function ProbeCall(j: Id, b: Id): Call {
    Call(5, 1, Mock, M2, Probe, Reserved, 0, None, Payload(10, 1, 0), 0, Some(j), Some(b), NoSubexperiment, None, None,
         None, None, None)
  }

  lemma OneMockCall(empty: Db, db: Db, c: Call)
    requires empty.calls == [] && empty.budgets == NoSpend() && db == empty.(calls := [c], batches := db.batches)
    requires !Paid(c) && c.upper == 0 && c.state.Reserved? && c.amount.None?
    requires c.run in db.runs && !db.runs[c.run].contract.m3 && db.runs[c.run].contract.maxModelCalls > 0
             && db.runs[c.run].contract.costBudget >= 0
    requires c.job.Some? ==> c.job.value in db.jobs && db.jobs[c.job.value].run == c.run
    ensures AllWithin(db) && LanesExclusive(db) && Serial(db) && (forall e :: Conserved(db, e))
            && (forall e :: HaltExact(db, e))
  {
    forall w: Call -> nat ensures Total(db.calls, w) == w(c) {
      OneRow(c, w);
    }
    forall g ensures Within(db, g, StandingLimit(db, g)) {
      OneCallWithin(db, c, g);
    }
  }

  lemma OneCallWithin(db: Db, c: Call, g: Group)
    requires db.calls == [c] && !Paid(c) && c.upper == 0 && c.amount.None?
             && (c.job.Some? ==> c.job.value in db.jobs && db.jobs[c.job.value].run == c.run)
    requires c.run in db.runs && !db.runs[c.run].contract.m3 && db.runs[c.run].contract.maxModelCalls > 0
             && db.runs[c.run].contract.costBudget >= 0
    ensures Within(db, g, StandingLimit(db, g))
  {
    OneRow(c, CountOf(g));
    OneRow(c, ForeseenOf(g));
  }

  lemma OneRow(c: Call, w: Call -> nat)
    ensures Total([c], w) == w(c)
  {
    assert [c][..0] == [];
  }

  // ------------------------------------------------------------------- project cap

  /** Paid calls of the earlier experiments do not consult the project cap: one of them takes the whole over it. */
  lemma UnreleasedCallPassesProjectCap() returns (db: Db, w: Caller, q: Request)
    ensures Sound(db) && CanReserve(db, w, q)
    ensures db.opening + Spent(db, Project) == 100 * YUAN
    ensures var after := ReserveCall(db, w, q); after.opening + Spent(after, Project) > 100 * YUAN
  {
    db := Db(0, true, map[2 := PlainRun(false, Deepseek)], map[], map[], map[], [], NoSpend(), map[], map[],
             100 * YUAN);
    NothingSpent(db);
    w := Caller(2, None, None, 0, None, true, true);
    q := Request(5, Deepseek, Payload(10, 1, 0), Answer, None, None, None, 0, true, true, false, NoSubexperiment, 0);
    OneRow(RowFor(db, w, q), OccupiedOf(Project));
    assert ReserveCall(db, w, q).calls == [RowFor(db, w, q)];
  }
}
