/** What holds over every run of the service from an empty ledger, whatever crashes, expires, replays
    or overtakes in between. */
module Safety {
  import opened Types
  import opened Table
  import opened LedgerLaws
  import opened Settlement
  import opened Jobs
  import opened JobLaws
  import opened Runs

  // ------------------------------------------------------------- the invariant

  predicate FreshBudget(b: Budget) { b.known == 0 && b.reserved == 0 && b.attempted == 0 && b.halted.None? }

  /** A database before its first call and job. Clock, limits, sessions, processes and runs are arbitrary. */
  predicate Initial(db: Db) {
    && db.calls == [] && db.jobs == map[] && db.batches == map[] && db.audits == map[]
    && FreshBudget(db.budgets.m1) && FreshBudget(db.budgets.m2) && FreshBudget(db.budgets.m3)
  }

  lemma InitialIsSound(db: Db)
    requires Initial(db)
    ensures Sound(db)
  {
    forall e ensures Conserved(db, e) && HaltExact(db, e) {
    }
  }

  lemma {:induction false} FollowsIsTransitive(a: Db, b: Db, c: Db)
    requires Follows(a, b) && Follows(b, c)
    ensures Follows(a, c)
  {
    forall j | j in a.jobs ensures j in c.jobs && JobEvolves(a.jobs[j], c.jobs[j]) {
      assert JobEvolves(a.jobs[j], b.jobs[j]) && JobEvolves(b.jobs[j], c.jobs[j]);
    }
    forall i | 0 <= i < |a.calls| ensures Evolves(a.calls[i], c.calls[i]) {
      assert Evolves(a.calls[i], b.calls[i]) && Evolves(b.calls[i], c.calls[i]);
    }
  }

  /** Conservation, limits, halts, lanes, job shapes, links and counters hold after any run; terminal jobs,
      stored candidates, settled calls, fences and probe counters never move back. */
  lemma {:induction false} RunKeeps(db: Db, steps: seq<Step>)
    requires Sound(db)
    ensures Sound(After(db, steps)) && Follows(db, After(db, steps))
    decreases |steps|
  {
    if steps == [] {
      NothingFollows(db);
    } else {
      StepKeeps(db, steps[0]);
      RunKeeps(Apply(db, steps[0]), steps[1..]);
      FollowsIsTransitive(db, Apply(db, steps[0]), After(db, steps));
    }
  }

  lemma ReachedIsSound(db: Db, steps: seq<Step>)
    requires Initial(db)
    ensures Sound(After(db, steps))
  {
    InitialIsSound(db);
    RunKeeps(db, steps);
  }

  // -------------------------------------------------------------------- the fence

  /** A worker's step takes effect only under the job's present fence. */
  lemma AcceptedWriterHoldsFence(db: Db, s: WorkerStep)
    requires AcceptsWorker(db, s) && s.w.job.Some?
    ensures s.w.job.value in db.jobs && db.jobs[s.w.job.value].token == s.w.token
            && db.jobs[s.w.job.value].owner == s.w.owner && s.w.token != 0
  {
  }

  /** Along any run the accepted writers of one job carry non-decreasing fencing tokens, and two that
      carry the same token are the same lease owner. */
  lemma FencingOrdersWriters(db: Db, first: WorkerStep, between: seq<Step>, second: WorkerStep)
    requires Sound(db) && first.w.job.Some? && second.w.job == first.w.job
    requires AcceptsWorker(db, first) && AcceptsWorker(After(Apply(db, OfWorker(first)), between), second)
    ensures first.w.token <= second.w.token
    ensures first.w.token == second.w.token ==> first.w.owner == second.w.owner
  {
    var after := Apply(db, OfWorker(first));
    AcceptedWriterHoldsFence(db, first);
    AcceptedWriterHoldsFence(After(after, between), second);
    StepKeeps(db, OfWorker(first));
    RunKeeps(after, between);
    FollowsIsTransitive(db, after, After(after, between));
  }

  /** Once a higher fence was handed out, a superseded worker never takes effect again. */
  lemma SupersededForever(db: Db, steps: seq<Step>, s: WorkerStep)
    requires Sound(db) && s.w.job.Some? && s.w.job.value in db.jobs && s.w.token < db.jobs[s.w.job.value].token
    ensures !AcceptsWorker(After(db, steps), s)
  {
    RunKeeps(db, steps);
    if AcceptsWorker(After(db, steps), s) {
      AcceptedWriterHoldsFence(After(db, steps), s);
    }
  }

  /** The steps that hand out or withdraw authority over a job. */
  predicate Refences(db: Db, s: Step, j: Id)
    requires j in db.jobs
  {
    match s
    case OfWorker(x) =>
      x.DoFinish? && x.w.job == Some(j) && x.requested.ResultReady? && !Terminal(db.jobs[j].state)
        && !HasOpenCalls(db.calls, j, db.jobs[j].batch)
    case OfJob(x) =>
      (match x
       case DoClaim(_, k, _, _) => k == j
       case DoRecover(k) => k == j
       case DoTerminate(k, _) => k == j
       case DoFailRecovery(k) => k == j
       case DoCancelJobs(r) => db.jobs[j].run == r && !Terminal(db.jobs[j].state)
       case DoCancelQuery(r) => db.jobs[j].run == r && !Terminal(db.jobs[j].state)
       case _ => false)
    case _ => false
  }

  /** Exactly these steps raise a job's token, and only by one. */
  lemma TokenRisesExactly(db: Db, s: Step, j: Id)
    requires j in db.jobs && j in Apply(db, s).jobs
    ensures Apply(db, s).jobs[j].token == db.jobs[j].token + if Accepts(db, s) && Refences(db, s, j) then 1 else 0
  {
    if Accepts(db, s) {
      match s
      case OfWorker(x) => WorkerToken(db, x, j);
      case OfJob(x) => JobToken(db, x, j);
      case OfMoney(x) => MoneyKeepsJobs(db, x);
      case OfRun(x) => RunStepKeepsJobs(db, x);
    }
  }

  lemma RunStepKeepsJobs(db: Db, x: RunStep)
    requires AcceptsRun(db, x)
    ensures ApplyRun(db, x).jobs == db.jobs
  {
  }

  lemma WorkerToken(db: Db, x: WorkerStep, j: Id)
    requires j in db.jobs && AcceptsWorker(db, x)
    ensures j in ApplyWorker(db, x).jobs
            && ApplyWorker(db, x).jobs[j].token == db.jobs[j].token + if Refences(db, OfWorker(x), j) then 1 else 0
  {
  }

  lemma JobToken(db: Db, x: JobStep, j: Id)
    requires j in db.jobs && AcceptsJob(db, x)
    ensures j in ApplyJob(db, x).jobs
            && ApplyJob(db, x).jobs[j].token == db.jobs[j].token + if Refences(db, OfJob(x), j) then 1 else 0
  {
  }

  lemma MoneyKeepsJobs(db: Db, x: MoneyStep)
    requires AcceptsMoney(db, x)
    ensures ApplyMoney(db, x).jobs == db.jobs
  {
    match x
    case DoSettle(r, attempt, record) => SettleFrame(db, r, attempt, record);
    case DoReconcile(attempt, kind, e, apply) => ReconcileFrame(db, attempt, kind, e, apply);
    case DoZeroCharge(_) =>
  }

  // -------------------------------------------------- no second external dispatch

  lemma {:induction false} TwoRowsCount(calls: seq<Call>, w: Call -> nat, i: nat, k: nat)
    requires i < k < |calls| && w(calls[i]) > 0 && w(calls[k]) > 0
    ensures Total(calls, w) >= 2
  {
    var last := |calls| - 1;
    if k == last {
      RowWithinTotal(calls[..last], i, w);
    } else {
      TwoRowsCount(calls[..last], w, i, k);
    }
  }

  /** A batch never has two extraction calls. */
  lemma OneExtractionPerBatch(db: Db, b: Id, i: nat, k: nat)
    requires Sound(db) && i < |db.calls| && k < |db.calls| && CallIn(db.calls[i], b, Extraction)
             && CallIn(db.calls[k], b, Extraction)
    ensures i == k
  {
    assert CallOk(db, db.calls[i]);
    assert BatchOk(db, b);
    if i < k { TwoRowsCount(db.calls, CountIn(b, Extraction), i, k); }
    if k < i { TwoRowsCount(db.calls, CountIn(b, Extraction), k, i); }
  }

  /** Nor does a job: all its extraction calls are in its one batch. */
  lemma OneExtractionPerJob(db: Db, j: Id, i: nat, k: nat)
    requires Sound(db) && i < |db.calls| && k < |db.calls|
    requires db.calls[i].job == Some(j) && db.calls[k].job == Some(j) && db.calls[i].stage.Extraction?
             && db.calls[k].stage.Extraction?
    ensures i == k
  {
    assert CallOk(db, db.calls[i]) && CallOk(db, db.calls[k]);
    OneExtractionPerBatch(db, db.jobs[j].batch, i, k);
  }

  /** After one extraction was admitted for a batch, no later admission in any run is another. */
  lemma NeverExtractedTwice(db: Db, steps: seq<Step>, i: nat, w: Caller, q: Request)
    requires Sound(db) && i < |db.calls| && db.calls[i].stage.Extraction? && db.calls[i].batch == q.batch
             && q.stage.Extraction?
    ensures !CanReserve(After(db, steps), w, q)
  {
    var after := After(db, steps);
    RunKeeps(db, steps);
    assert CallOk(db, db.calls[i]) && Evolves(db.calls[i], after.calls[i]);
    NoSecondExtraction(after, i, w, q);
  }

  lemma NoSecondExtraction(db: Db, i: nat, w: Caller, q: Request)
    requires i < |db.calls| && db.calls[i].stage.Extraction? && db.calls[i].batch == q.batch && q.batch.Some?
             && q.stage.Extraction?
    ensures !CanReserve(db, w, q)
  {
    assert CallIn(db.calls[i], q.batch.value, Extraction);
  }

  lemma {:induction false} ExtractionsAre(calls: seq<Call>, j: Id)
    ensures forall c :: c in Extractions(calls, j) <==> c in calls && SettledExtraction(c, j)
    ensures |Extractions(calls, j)| > 0 ==>
              exists i :: 0 <= i < |calls| && SettledExtraction(calls[i], j) && calls[i] == Extractions(calls, j)[0]
  {
    if calls != [] {
      var front := calls[..|calls| - 1];
      ExtractionsAre(front, j);
      assert calls == front + [calls[|calls| - 1]];
      if |Extractions(front, j)| > 0 {
        var i :| 0 <= i < |front| && SettledExtraction(front[i], j) && front[i] == Extractions(front, j)[0];
        assert calls[i] == front[i];
      } else if SettledExtraction(calls[|calls| - 1], j) {
        assert calls[|calls| - 1] == Extractions(calls, j)[0];
      }
    }
  }

  /** A recorded answer is the content of a settled extraction of that job. */
  lemma RecordedIsSaved(calls: seq<Call>, j: Id, b: Id)
    requires Recorded(calls, j) != ""
    ensures AnySaved(calls, j, b) && Attempted(calls, j)
    ensures exists i ::
              0 <= i < |calls| && SettledExtraction(calls[i], j) && Content(calls[i].record) == Some(Recorded(calls, j))
  {
    ExtractionsAre(calls, j);
    var i :| 0 <= i < |calls| && SettledExtraction(calls[i], j) && calls[i] == Extractions(calls, j)[0];
    assert Touches(calls[i], j, b) && FirstContent(calls[i].record);
  }

  /** Claiming a job without candidates whose calls exist needs recovery to be on, every call that touches
      it to be settled, and its one extraction to hold the answer that will be reused. */
  lemma ClaimReusesTheOneAnswer(db: Db, w: Caller, j: Id, duration: int) returns (i: nat)
    requires Sound(db) && CanClaim(db, w, j, duration) && db.jobs[j].digest.None? && Attempted(db.calls, j)
    ensures db.recovery
            && forall k ::
                 0 <= k < |db.calls| && Touches(db.calls[k], j, db.jobs[j].batch) ==> db.calls[k].state.Settled?
    ensures i < |db.calls| && db.calls[i].job == Some(j) && db.calls[i].stage.Extraction?
            && Content(db.calls[i].record).Some? && Content(db.calls[i].record).value != ""
    ensures forall k :: 0 <= k < |db.calls| && db.calls[k].job == Some(j) && db.calls[k].stage.Extraction? ==> k == i
  {
    RecordedIsSaved(db.calls, j, db.jobs[j].batch);
    i :| 0 <= i < |db.calls| && SettledExtraction(db.calls[i], j)
         && Content(db.calls[i].record) == Some(Recorded(db.calls, j));
    forall k | 0 <= k < |db.calls| && db.calls[k].job == Some(j) && db.calls[k].stage.Extraction? ensures k == i {
      OneExtractionPerJob(db, j, i, k);
    }
  }

  /** Recovery and claiming agree: with recovery on, a recovered job is given up exactly when claiming it
      could repeat a dispatch, or when the only calls that touch it are another run's answers that name
      its batch. With recovery off it never waits for a dispatch again. */
  lemma RecoveryAgreesWithClaim(db: Db, j: Id)
    requires j in db.jobs
    ensures var state := Recovered(db, j).0;
            && (db.recovery ==> (state.OutcomeUnknown? <==>
                  !NothingToRepeat(db, j)
                    || (db.jobs[j].digest.None? && Touched(db.calls, j, db.jobs[j].batch) && !Attempted(db.calls, j))))
            && (!db.recovery ==> !state.WaitingPrefix?)
            && (state.ResultReady? <==> db.jobs[j].digest.Some? && !HasOpenCalls(db.calls, j, db.jobs[j].batch))
  {
    var b := db.jobs[j].batch;
    if Recorded(db.calls, j) != "" {
      RecordedIsSaved(db.calls, j, b);
    }
    if Attempted(db.calls, j) {
      var i :| 0 <= i < |db.calls| && db.calls[i].job == Some(j);
      assert Touches(db.calls[i], j, b);
    }
  }

  // ------------------------------------------------------- unresolved calls decide

  predicate OpenCallOf(c: Call, j: Id) { c.job == Some(j) && !c.state.Settled? }

  predicate HasOpenCall(calls: seq<Call>, j: Id) { exists i :: 0 <= i < |calls| && OpenCallOf(calls[i], j) }

  /** An answer of a run without extraction tools: the one kind of call whose batch id nobody checks. */
  predicate Foreign(db: Db, c: Call) {
    c.job.None? && c.stage.Answer? && c.batch.Some? && c.run in db.runs && !db.runs[c.run].contract.m2
  }

  predicate ForeignOpen(db: Db, b: Id) {
    exists i ::
      0 <= i < |db.calls| && Foreign(db, db.calls[i]) && db.calls[i].batch == Some(b) && !db.calls[i].state.Settled?
  }

  lemma TouchingCallIsOwnOrForeign(db: Db, c: Call, j: Id)
    requires CallOk(db, c) && j in db.jobs && JobOk(db, j)
    ensures Touches(c, j, db.jobs[j].batch)
            <==> c.job == Some(j) || (Foreign(db, c) && c.batch == Some(db.jobs[j].batch))
  {
  }

  /** Whatever touches a job is its own call, or such an answer. */
  lemma TouchingCallsAreOwnOrForeign(db: Db, j: Id)
    requires Sound(db) && j in db.jobs
    ensures HasOpenCalls(db.calls, j, db.jobs[j].batch)
            <==> HasOpenCall(db.calls, j) || ForeignOpen(db, db.jobs[j].batch)
  {
    forall i | 0 <= i < |db.calls|
      ensures Touches(db.calls[i], j, db.jobs[j].batch)
              <==> db.calls[i].job == Some(j)
                   || (Foreign(db, db.calls[i]) && db.calls[i].batch == Some(db.jobs[j].batch))
    {
      assert CallOk(db, db.calls[i]) && JobOk(db, j);
      TouchingCallIsOwnOrForeign(db, db.calls[i], j);
    }
    OpenSplits(db, j);
  }

  lemma OpenSplits(db: Db, j: Id)
    requires j in db.jobs
    requires forall i :: 0 <= i < |db.calls| ==>
               (Touches(db.calls[i], j, db.jobs[j].batch)
                <==> db.calls[i].job == Some(j)
                     || (Foreign(db, db.calls[i]) && db.calls[i].batch == Some(db.jobs[j].batch)))
    ensures HasOpenCalls(db.calls, j, db.jobs[j].batch)
            <==> HasOpenCall(db.calls, j) || ForeignOpen(db, db.jobs[j].batch)
  {
    if HasOpenCall(db.calls, j) {
      var i :| 0 <= i < |db.calls| && OpenCallOf(db.calls[i], j);
      assert Touches(db.calls[i], j, db.jobs[j].batch);
    }
    if i :| 0 <= i < |db.calls| && Touches(db.calls[i], j, db.jobs[j].batch) && !db.calls[i].state.Settled? {
      assert OpenCallOf(db.calls[i], j) || Foreign(db, db.calls[i]);
    }
  }

  /** A job with an open call of its own cannot be claimed, and no step but its own publication can end it
      with any other label than OUTCOME_UNKNOWN. */
  lemma OpenCallEndsUnknown(db: Db, s: Step, j: Id)
    requires Sound(db) && j in db.jobs && !Terminal(db.jobs[j].state) && HasOpenCall(db.calls, j)
    requires !(s.OfWorker? && s.x.DoCommit? && s.x.w.job == Some(j))
    ensures var after := Apply(db, s);
            j in after.jobs && (Terminal(after.jobs[j].state) ==> after.jobs[j].state.OutcomeUnknown?)
    ensures s.OfJob? && s.j.DoClaim? && s.j.job == j ==> !Accepts(db, s)
  {
    var i :| 0 <= i < |db.calls| && OpenCallOf(db.calls[i], j);
    assert Touches(db.calls[i], j, db.jobs[j].batch);
    assert HasOpenCalls(db.calls, j, db.jobs[j].batch);
    if Accepts(db, s) {
      match s
      case OfWorker(x) => OpenCallEndsUnknownByWorker(db, x, j);
      case OfJob(x) => OpenCallEndsUnknownByJob(db, x, j, i);
      case OfMoney(x) => MoneyKeepsJobs(db, x);
      case OfRun(x) => RunStepKeepsJobs(db, x);
    }
  }

  lemma OpenCallEndsUnknownByWorker(db: Db, x: WorkerStep, j: Id)
    requires AcceptsWorker(db, x) && j in db.jobs && !Terminal(db.jobs[j].state)
             && HasOpenCalls(db.calls, j, db.jobs[j].batch)
    requires !(x.DoCommit? && x.w.job == Some(j))
    ensures var after := ApplyWorker(db, x);
            j in after.jobs && (Terminal(after.jobs[j].state) ==> after.jobs[j].state.OutcomeUnknown?)
  {
  }

  lemma OpenCallEndsUnknownByJob(db: Db, x: JobStep, j: Id, i: nat)
    requires AcceptsJob(db, x) && j in db.jobs && !Terminal(db.jobs[j].state) && i < |db.calls|
             && OpenCallOf(db.calls[i], j)
    requires HasOpenCalls(db.calls, j, db.jobs[j].batch)
    ensures var after := ApplyJob(db, x);
            j in after.jobs && (Terminal(after.jobs[j].state) ==> after.jobs[j].state.OutcomeUnknown?)
  {
    if x.DoRecover? && x.job == j {
      assert Touches(MarkTouched(db, j).calls[i], j, db.jobs[j].batch);
    }
  }

  /** Publication is the one exception: an accepted step ends an unfinished job that has an open call of its own with
      another label than OUTCOME_UNKNOWN exactly if it is that job's own commit. */
  lemma OnlyPublicationIgnoresOpenCalls(db: Db, s: Step, j: Id)
    requires Sound(db) && j in db.jobs && !Terminal(db.jobs[j].state) && HasOpenCall(db.calls, j) && Accepts(db, s)
    ensures var after := Apply(db, s);
            && j in after.jobs
            && (Terminal(after.jobs[j].state) && !after.jobs[j].state.OutcomeUnknown?
                <==> s.OfWorker? && s.x.DoCommit? && s.x.w.job == Some(j))
  {
    if s.OfWorker? && s.x.DoCommit? && s.x.w.job == Some(j) {
      CommitEndsJob(db, s.x);
    } else {
      OpenCallEndsUnknown(db, s, j);
    }
  }

  lemma CommitEndsJob(db: Db, x: WorkerStep)
    requires AcceptsWorker(db, x) && x.DoCommit? && x.w.job.Some? && x.w.job.value in db.jobs
             && !Terminal(db.jobs[x.w.job.value].state)
    ensures var k := Apply(db, OfWorker(x)).jobs;
            x.w.job.value in k && (k[x.w.job.value].state.Committed? || k[x.w.job.value].state.Skipped?)
  {
  }

  /** Every call of a FAILED job is settled now and for ever; a call that touches it and is still open is
      exactly another run's answer that names its batch. */
  lemma FailedJobsAreSettled(db: Db, j: Id, steps: seq<Step>)
    requires Sound(db) && j in db.jobs && db.jobs[j].state.Failed?
    ensures var after := After(db, steps);
            && j in after.jobs && after.jobs[j].state.Failed? && !HasOpenCall(after.calls, j)
            && (HasOpenCalls(after.calls, j, after.jobs[j].batch) <==> ForeignOpen(after, after.jobs[j].batch))
  {
    RunKeeps(db, steps);
    FailedJobIsSettled(After(db, steps), j);
  }

  lemma FailedJobIsSettled(db: Db, j: Id)
    requires Sound(db) && j in db.jobs && db.jobs[j].state.Failed?
    ensures !HasOpenCall(db.calls, j)
            && (HasOpenCalls(db.calls, j, db.jobs[j].batch) <==> ForeignOpen(db, db.jobs[j].batch))
  {
    assert JobOk(db, j);
    TouchingCallsAreOwnOrForeign(db, j);
  }

  // ------------------------------------------------------------- terminal and once

  /** A finished job keeps its state and fence, and stored candidates their text and digest, in every later state. */
  lemma FinishedForever(db: Db, steps: seq<Step>, j: Id)
    requires Sound(db) && j in db.jobs
    ensures var k := After(db, steps).jobs;
            && j in k
            && (Terminal(db.jobs[j].state) ==> k[j].state == db.jobs[j].state && k[j].token == db.jobs[j].token)
            && (db.jobs[j].digest.Some? ==> k[j].digest == db.jobs[j].digest)
            && (!Terminal(k[j].state) ==> (k[j].state.ResultReady? <==> k[j].digest.Some?))
            && (k[j].leaseUntil.Some? ==> k[j].leaseUntil.value <= db.jobs[j].deadline)
  {
    RunKeeps(db, steps);
    assert JobOk(After(db, steps), j);
  }

  /** Probe limits across any number of crashes and resumptions: one round, at most two model calls,
      exactly counted by the ledger, and at most four tool calls. */
  lemma ProbeStaysBounded(db: Db, steps: seq<Step>, b: Id)
    requires Sound(db) && b in db.batches
    ensures var after := After(db, steps);
            && b in after.batches && after.batches[b].rounds <= 1 && after.batches[b].tools <= 4
            && after.batches[b].models == Total(after.calls, CountIn(b, Probe)) <= 2
            && (db.batches[b].probeToken.Some? ==> after.batches[b].probeToken == db.batches[b].probeToken)
  {
    RunKeeps(db, steps);
    assert BatchOk(After(db, steps), b);
  }
}
