/** No unfinished job is ever stranded: it is held by a live worker, due for recovery, or free to be claimed. */
module Resumption {
  import opened Types
  import opened Settlement
  import opened Jobs
  import opened JobLaws
  import opened Runs
  import opened Safety
  import opened Leases

  /** An unfinished job that nobody holds has nothing in flight, and nothing dispatched that it could not reuse. */
  predicate Resumable(db: Db, j: Id)
    requires j in db.jobs
  {
    var job := db.jobs[j];
    !Terminal(job.state) && job.owner.None? ==>
      && !HasOpenCall(db.calls, j)
      && (job.digest.None? && Attempted(db.calls, j) ==> db.recovery && Recorded(db.calls, j) != "")
      && (job.state.WaitingPrefix? && job.reason.AwaitingRecovery? ==> db.recovery)
  }

  ghost predicate AllResumable(db: Db) {
    forall j :: j in db.jobs ==> Resumable(db, j)
  }

  // ---------------------------------------------------------- a job's settled calls

  /** The rows of a job are the same in both tables. */
  ghost predicate SameOwnCalls(s: seq<Call>, t: seq<Call>, j: Id) {
    && |s| <= |t|
    && (forall i ::
          0 <= i < |s| ==> (t[i].job == Some(j) <==> s[i].job == Some(j)) && (s[i].job == Some(j) ==> t[i] == s[i]))
    && (forall i :: |s| <= i < |t| ==> t[i].job != Some(j))
  }

  lemma {:induction false} SameExtractions(s: seq<Call>, t: seq<Call>, j: Id)
    requires SameOwnCalls(s, t, j)
    ensures Extractions(t, j) == Extractions(s, j)
  {
    if |s| < |t| {
      SameExtractions(s, t[..|t| - 1], j);
    } else if s != [] {
      SameExtractions(s[..|s| - 1], t[..|t| - 1], j);
    }
  }

  lemma SameOwnCallsMean(s: seq<Call>, t: seq<Call>, j: Id)
    requires SameOwnCalls(s, t, j)
    ensures Recorded(t, j) == Recorded(s, j) && (Attempted(t, j) <==> Attempted(s, j))
            && (HasOpenCall(t, j) <==> HasOpenCall(s, j))
  {
    SameExtractions(s, t, j);
    if i :| 0 <= i < |s| && s[i].job == Some(j) { assert t[i].job == Some(j); }
    if i :| 0 <= i < |t| && t[i].job == Some(j) { assert s[i].job == Some(j); }
    if i :| 0 <= i < |s| && OpenCallOf(s[i], j) { assert OpenCallOf(t[i], j); }
    if i :| 0 <= i < |t| && OpenCallOf(t[i], j) { assert OpenCallOf(s[i], j); }
  }

  /** Settled calls are frozen, so only an admission for the job itself can change what it has. */
  lemma SettledCallsStay(s: seq<Call>, t: seq<Call>, j: Id)
    requires CallsEvolve(s, t) && !HasOpenCall(s, j) && forall i :: |s| <= i < |t| ==> t[i].job != Some(j)
    ensures SameOwnCalls(s, t, j)
  {
    forall i | 0 <= i < |s|
      ensures (t[i].job == Some(j) <==> s[i].job == Some(j)) && (s[i].job == Some(j) ==> t[i] == s[i])
    {
      assert Evolves(s[i], t[i]);
      assert !OpenCallOf(s[i], j);
    }
  }

  lemma UnchangedJobStaysResumable(db: Db, after: Db, j: Id)
    requires j in db.jobs && Resumable(db, j) && j in after.jobs && after.jobs[j] == db.jobs[j]
             && after.recovery == db.recovery
    requires CallsEvolve(db.calls, after.calls)
    requires db.jobs[j].owner.None? ==> forall i :: |db.calls| <= i < |after.calls| ==> after.calls[i].job != Some(j)
    ensures Resumable(after, j)
  {
    if !Terminal(db.jobs[j].state) && db.jobs[j].owner.None? {
      SettledCallsStay(db.calls, after.calls, j);
      SameOwnCallsMean(db.calls, after.calls, j);
    }
  }

  // ----------------------------------------------------------------- the invariant

  lemma OnlyHoldersAddCalls(db: Db, x: WorkerStep, j: Id)
    requires AcceptsWorker(db, x) && j in db.jobs && db.jobs[j].owner.None?
    ensures forall i :: |db.calls| <= i < |ApplyWorker(db, x).calls| ==> ApplyWorker(db, x).calls[i].job != Some(j)
  {
  }

  lemma WorkerStepResumable(db: Db, x: WorkerStep, j: Id)
    requires Sound(db) && AcceptsWorker(db, x) && j in db.jobs && Resumable(db, j)
             && CallsEvolve(db.calls, ApplyWorker(db, x).calls)
    requires j in ApplyWorker(db, x).jobs && ApplyWorker(db, x).recovery == db.recovery
    ensures Resumable(ApplyWorker(db, x), j)
  {
    var after := ApplyWorker(db, x);
    if after.jobs[j] == db.jobs[j] {
      if db.jobs[j].owner.None? { OnlyHoldersAddCalls(db, x, j); }
      UnchangedJobStaysResumable(db, after, j);
    } else {
      assert JobOk(db, j);
      ChangedByWorker(db, x, j);
    }
  }

  lemma ChangedByWorker(db: Db, x: WorkerStep, j: Id)
    requires AcceptsWorker(db, x) && j in db.jobs && JobShape(db.jobs[j])
    requires ApplyWorker(db, x).jobs[j] != db.jobs[j]
    ensures Resumable(ApplyWorker(db, x), j)
  {
    var after := ApplyWorker(db, x);
    if x.DoFinish? && after.jobs[j].state.ResultReady? {
      ReleasedHasNothingOpen(db.calls, j, db.jobs[j].batch);
    }
  }

  lemma ReleasedHasNothingOpen(calls: seq<Call>, j: Id, b: Id)
    requires !HasOpenCalls(calls, j, b)
    ensures !HasOpenCall(calls, j)
  {
    if i :| 0 <= i < |calls| && OpenCallOf(calls[i], j) {
      assert Touches(calls[i], j, b);
    }
  }

  /** What recovery leaves unfinished has only settled calls, and an answer to reuse if it had any call. */
  lemma RecoveredIsResumable(db: Db, j: Id)
    requires j in db.jobs
    ensures Resumable(RecoverJob(db, j), j)
  {
    var marked := MarkTouched(db, j);
    var after := RecoverJob(db, j);
    RecoveryAgreesWithClaim(marked, j);
    if !Terminal(after.jobs[j].state) {
      ReleasedHasNothingOpen(marked.calls, j, db.jobs[j].batch);
    }
  }

  lemma JobStepResumable(db: Db, x: JobStep, j: Id)
    requires AcceptsJob(db, x) && j in db.jobs && j in ApplyJob(db, x).jobs
             && CallsEvolve(db.calls, ApplyJob(db, x).calls)
    requires Resumable(db, j)
    ensures Resumable(ApplyJob(db, x), j)
  {
    var after := ApplyJob(db, x);
    if after.jobs[j] == db.jobs[j] {
      JobStepsAddNoCall(db, x);
      UnchangedJobStaysResumable(db, after, j);
    } else if x.DoRecover? {
      RecoveredIsResumable(db, j);
    } else {
      OtherwiseHeldOrOver(db, x, j);
    }
  }

  lemma CreatedIsResumable(db: Db, x: JobStep, j: Id)
    requires AcceptsJob(db, x) && j !in db.jobs && j in ApplyJob(db, x).jobs
             && forall i :: 0 <= i < |db.calls| ==> db.calls[i].job != Some(j)
    ensures Resumable(ApplyJob(db, x), j)
  {
  }

  lemma OtherwiseHeldOrOver(db: Db, x: JobStep, j: Id)
    requires AcceptsJob(db, x) && j in db.jobs && j in ApplyJob(db, x).jobs && ApplyJob(db, x).jobs[j] != db.jobs[j]
             && !x.DoRecover?
    ensures Terminal(ApplyJob(db, x).jobs[j].state) || ApplyJob(db, x).jobs[j].owner.Some?
  {
  }

  lemma JobStepsAddNoCall(db: Db, x: JobStep)
    requires AcceptsJob(db, x)
    ensures |ApplyJob(db, x).calls| == |db.calls| && ApplyJob(db, x).recovery == db.recovery
  {
  }

  lemma RunStepsAddNoCall(db: Db, x: RunStep)
    requires AcceptsRun(db, x)
    ensures |ApplyRun(db, x).calls| == |db.calls| && ApplyRun(db, x).recovery == db.recovery
  {
  }

  lemma MoneyStepsAddNoCall(db: Db, x: MoneyStep)
    requires AcceptsMoney(db, x)
    ensures |ApplyMoney(db, x).calls| == |db.calls| && ApplyMoney(db, x).recovery == db.recovery
  {
    match x
    case DoSettle(r, attempt, record) =>
      SettleFrame(db, r, attempt, record);
      var i := SettleMeans(db, r, attempt, record);
    case DoReconcile(attempt, kind, e, apply) => ReconcileFrame(db, attempt, kind, e, apply);
    case DoZeroCharge(_) =>
  }

  lemma StepResumable(db: Db, s: Step, j: Id)
    requires Sound(db) && AllResumable(db) && j in Apply(db, s).jobs
    ensures Resumable(Apply(db, s), j)
  {
    StepKeeps(db, s);
    if Accepts(db, s) {
      match s
      case OfWorker(x) => WorkerAddsNoJob(db, x); WorkerStepResumable(db, x, j);
      case OfJob(x) =>
        if j in db.jobs {
          JobStepResumable(db, x, j);
        } else {
          NothingOf(db, j);
          CreatedIsResumable(db, x, j);
        }
      case OfMoney(x) =>
        MoneyKeepsJobs(db, x);
        MoneyStepsAddNoCall(db, x);
        UnchangedJobStaysResumable(db, Apply(db, s), j);
      case OfRun(x) =>
        RunStepKeepsJobs(db, x);
        RunStepsAddNoCall(db, x);
        UnchangedJobStaysResumable(db, Apply(db, s), j);
    }
  }

  lemma WorkerAddsNoJob(db: Db, x: WorkerStep)
    requires AcceptsWorker(db, x)
    ensures ApplyWorker(db, x).jobs.Keys == db.jobs.Keys && ApplyWorker(db, x).recovery == db.recovery
  {
  }

  lemma {:induction false} RunResumable(db: Db, steps: seq<Step>)
    requires Sound(db) && AllResumable(db)
    ensures AllResumable(After(db, steps))
    decreases |steps|
  {
    if steps != [] {
      StepKeeps(db, steps[0]);
      forall j | j in Apply(db, steps[0]).jobs ensures Resumable(Apply(db, steps[0]), j) {
        StepResumable(db, steps[0], j);
      }
      RunResumable(Apply(db, steps[0]), steps[1..]);
    }
  }

  // ------------------------------------------------------------------- main result

  /** A run's own limits still allow background work. */
  predicate RunOpen(db: Db, r: Run) {
    !r.cancelRequested && (r.state.RunRunning? || r.state.Completed? || r.state.Interrupted?) && db.now < r.deadline
  }

  /** After any run from an empty ledger, an unfinished job whose run and deadline still allow work is under a
      live lease, due for recovery, or claimable at once, unless another run's open answer names its batch. */
  lemma NoJobIsStranded(start: Db, steps: seq<Step>, j: Id, w: Caller, duration: int)
    requires Initial(start) && 0 < duration <= 180 * SECOND
    requires var db := After(start, steps);
             && j in db.jobs && !Terminal(db.jobs[j].state) && w.run == db.jobs[j].run && w.valid && w.current
             && ConnLive(db, w.conn)
             && w.run in db.runs && RunOpen(db, db.runs[w.run]) && db.now < db.jobs[j].deadline
             && !ForeignOpen(db, db.jobs[j].batch)
    ensures var db := After(start, steps);
            HeldByLive(db, j) || RecoveryDue(db, j) || CanClaim(db, w, j, duration)
  {
    ReachedIsSound(start, steps);
    InitialIsSound(start);
    RunResumable(start, steps);
    NotStranded(After(start, steps), j, w, duration);
  }

  lemma NotStranded(db: Db, j: Id, w: Caller, duration: int)
    requires Sound(db) && j in db.jobs && Resumable(db, j) && !Terminal(db.jobs[j].state)
    requires 0 < duration <= 180 * SECOND && w.run == db.jobs[j].run && w.valid && w.current && ConnLive(db, w.conn)
    requires w.run in db.runs && RunOpen(db, db.runs[w.run]) && db.now < db.jobs[j].deadline
             && !ForeignOpen(db, db.jobs[j].batch)
    ensures HeldByLive(db, j) || RecoveryDue(db, j) || CanClaim(db, w, j, duration)
  {
    assert JobOk(db, j);
    TouchingCallsAreOwnOrForeign(db, j);
  }

  // ------------------------------------------------------------------- an exception

  /** The two cancellations label a job differently exactly when only another run's answer is open on its batch. */
  lemma CancellationsDisagree(db: Db, j: Id)
    requires Sound(db) && j in db.jobs
    ensures StoppedJob(db.calls, j, db.jobs[j]).state != CancelledJob(db.calls, j, db.jobs[j]).state
            <==> ForeignOpen(db, db.jobs[j].batch) && !HasOpenCall(db.calls, j)
  {
    TouchingCallsAreOwnOrForeign(db, j);
    if i :| 0 <= i < |db.calls| && db.calls[i].job == Some(j) && !db.calls[i].state.Settled? {
      assert OpenCallOf(db.calls[i], j);
    }
  }
}
