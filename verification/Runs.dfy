/** Whole runs of the service: every transaction as a step, any number of them in any order, with any
    worker, process or clock behaviour between them. */
module Runs {
  import opened Types
  import opened Ledger
  import opened LedgerLaws
  import opened Settlement
  import opened Jobs
  import opened JobLaws

  /** A worker under its fence, or the run's own foreground. */
  datatype WorkerStep =
    | DoReserve(w: Caller, q: Request)
    | DoStore(w: Caller, batch: Id, raw: Id, digest: Id)
    | DoValidate(w: Caller, batch: Id, report: Id, validated: nat, inconclusive: nat)
    | DoCommit(w: Caller, batch: Id, report: Id, published: nat)
    | DoBeginProbe(w: Caller, batch: Id, token: Id, doubts: nat)
    | DoOpenInProbe(w: Caller, batch: Id, token: Id)
    | DoFinish(w: Caller, requested: JobState, reason: JobReason)
    | DoRenew(w: Caller, duration: int)

  /** Scheduling, revocation and recovery. */
  datatype JobStep =
    | DoCreateJob(w: Caller, key: Id, identity: Id, prefix: Id, job: Id, batch: Id)
    | DoBeginExtraction(w: Caller, batch: Id)
    | DoClaim(w: Caller, job: Id, owner: Id, duration: int)
    | DoCancelJobs(run: Id)
    | DoCancelQuery(run: Id)
    | DoRecover(job: Id)
    | DoTerminate(job: Id, stale: bool)
    | DoFailRecovery(job: Id)

  datatype MoneyStep =
    | DoSettle(run: Id, attempt: Id, record: Record)
    | DoReconcile(attempt: Id, kind: EvidenceKind, evidence: Record, apply: bool)
    | DoZeroCharge(row: nat)

  /** Runs, processes and time. */
  datatype RunStep =
    | DoStartRun(run: Id, body: Run)
    | DoLaunch(run: Id)
    | DoFinishRun(run: Id, conn: Option<Id>, answered: bool, late: bool)
    | DoRegister(instance: Id, ttl: nat)
    | DoHeartbeat(instance: Id, ttl: nat)
    | DoStop(instance: Id)
    | DoSweepOwners
    | DoSweepTerminalCalls(runs: set<Id>)
    | DoTick(elapsed: nat)

  datatype Step = OfWorker(x: WorkerStep) | OfJob(j: JobStep) | OfMoney(m: MoneyStep) | OfRun(r: RunStep)

  predicate AcceptsWorker(db: Db, s: WorkerStep) {
    match s
    case DoReserve(w, q) => CanReserve(db, w, q)
    case DoStore(w, b, raw, _) => CanStore(db, w, b, raw)
    case DoValidate(w, b, _, _, _) => CanValidate(db, w, b)
    case DoCommit(w, b, report, _) => CanCommit(db, w, b, report)
    case DoBeginProbe(w, b, _, doubts) => CanBeginProbe(db, w, b, doubts)
    case DoOpenInProbe(w, b, token) => CanOpenInProbe(db, w, b, token)
    case DoFinish(w, requested, _) => CanFinish(db, w, requested)
    case DoRenew(w, duration) => CanRenew(db, w, duration)
  }

  predicate AcceptsJob(db: Db, s: JobStep) {
    match s
    case DoCreateJob(w, key, _, _, j, b) => CanCreateJob(db, w, key, j, b)
    case DoBeginExtraction(w, b) => CanBeginExtraction(db, w, b)
    case DoClaim(w, j, _, duration) => CanClaim(db, w, j, duration)
    case DoCancelJobs(r) => r in db.runs
    case DoCancelQuery(r) => r in db.runs
    case DoRecover(j) => RecoveryDue(db, j)
    case DoTerminate(j, stale) => TerminationDue(db, j, stale)
    case DoFailRecovery(j) => CanFailRecovery(db, j)
  }

  predicate AcceptsMoney(db: Db, s: MoneyStep) {
    s.DoZeroCharge? ==> s.row < |db.calls| && ZeroChargeApplies(db, s.row)
  }

  predicate AcceptsRun(db: Db, s: RunStep) {
    match s
    case DoStartRun(r, body) => r !in db.runs && (body.state.Queued? || body.state.RunRunning?) && !body.cancelRequested
    case DoLaunch(r) => r in db.runs && db.runs[r].state.Queued? && !db.runs[r].cancelRequested
    case DoFinishRun(r, conn, _, _) => CanFinishRun(db, r, conn)
    case DoRegister(i, _) => i !in db.instances
    case DoHeartbeat(i, _) => i in db.instances
    case DoStop(i) => i in db.instances
    case _ => true
  }

  predicate Accepts(db: Db, s: Step) {
    match s
    case OfWorker(x) => AcceptsWorker(db, x)
    case OfJob(j) => AcceptsJob(db, j)
    case OfMoney(m) => AcceptsMoney(db, m)
    case OfRun(r) => AcceptsRun(db, r)
  }

  function ApplyWorker(db: Db, s: WorkerStep): Db
    requires AcceptsWorker(db, s)
  {
    match s
    case DoReserve(w, q) => ReserveCall(db, w, q)
    case DoStore(w, b, raw, digest) => Store(db, w, b, raw, digest)
    case DoValidate(_, b, report, validated, inconclusive) => Validate(db, b, report, validated, inconclusive)
    case DoCommit(w, b, _, published) => Commit(db, w, b, published)
    case DoBeginProbe(_, b, token, _) => BeginProbe(db, b, token)
    case DoOpenInProbe(_, b, _) => OpenInProbe(db, b)
    case DoFinish(w, requested, reason) => Finish(db, w.job.value, requested, reason)
    case DoRenew(w, duration) => Renew(db, w.job.value, duration)
  }

  function ApplyJob(db: Db, s: JobStep): Db
    requires AcceptsJob(db, s)
  {
    match s
    case DoCreateJob(w, key, identity, prefix, j, b) => CreateJob(db, w, key, identity, prefix, j, b)
    case DoBeginExtraction(w, b) => BeginExtraction(db, w, b)
    case DoClaim(w, j, owner, duration) => Claim(db, w, j, owner, duration)
    case DoCancelJobs(r) => CancelJobs(db, r)
    case DoCancelQuery(r) => CancelQuery(db, r)
    case DoRecover(j) => RecoverJob(db, j)
    case DoTerminate(j, _) => TerminateJob(db, j)
    case DoFailRecovery(j) => FailRecovery(db, j)
  }

  function ApplyMoney(db: Db, s: MoneyStep): Db
    requires AcceptsMoney(db, s)
  {
    match s
    case DoSettle(r, attempt, record) => Settle(db, r, attempt, record).1
    case DoReconcile(attempt, kind, evidence, apply) => Reconcile(db, attempt, kind, evidence, apply).1
    case DoZeroCharge(i) => ResolveAtZero(db, i)
  }

  function ApplyRun(db: Db, s: RunStep): Db
    requires AcceptsRun(db, s)
  {
    match s
    case DoStartRun(r, body) => db.(runs := db.runs[r := body])
    case DoLaunch(r) => db.(runs := db.runs[r := db.runs[r].(state := RunRunning)])
    case DoFinishRun(r, _, answered, late) => FinishRun(db, r, answered, late)
    case DoRegister(i, ttl) => db.(instances := db.instances[i := Instance(false, db.now + ttl)])
    case DoHeartbeat(i, ttl) => Heartbeat(db, i, ttl)
    case DoStop(i) => StopInstance(db, i)
    case DoSweepOwners => SweepOwners(db)
    case DoSweepTerminalCalls(runs) => SweepTerminalCalls(db, runs)
    case DoTick(elapsed) => db.(now := db.now + elapsed)
  }

  /** A refused step changes nothing. */
  function Apply(db: Db, s: Step): Db {
    if !Accepts(db, s) then db else
    match s
    case OfWorker(x) => ApplyWorker(db, x)
    case OfJob(j) => ApplyJob(db, j)
    case OfMoney(m) => ApplyMoney(db, m)
    case OfRun(r) => ApplyRun(db, r)
  }

  function After(db: Db, steps: seq<Step>): Db
    decreases |steps|
  {
    if steps == [] then db else After(Apply(db, steps[0]), steps[1..])
  }

  lemma {:induction false} AfterAppend(db: Db, first: seq<Step>, second: seq<Step>)
    ensures After(db, first + second) == After(After(db, first), second)
    decreases |first|
  {
    if first == [] {
      assert first + second == second;
    } else {
      assert (first + second)[1..] == first[1..] + second;
      AfterAppend(Apply(db, first[0]), first[1..], second);
    }
  }

  // ---------------------------------------------------------------- one invariant

  ghost predicate Sound(db: Db) { LedgerInv(db) && AuditsOk(db) && JobsInv(db) }

  /** What can never be undone: see JobEvolves, BatchEvolves and Evolves. */
  ghost predicate Follows(db: Db, after: Db) {
    JobsEvolve(db, after) && CallsEvolve(db.calls, after.calls)
  }

  lemma FrameStep(db: Db, after: Db)
    requires Sound(db) && JobsInv(after) && JobsEvolve(db, after) && LedgerFrame(db, after)
    ensures Sound(after) && Follows(db, after)
  {
    FrameKeepsLedger(db, after);
    NothingEvolves(db);
  }

  lemma CallStep(db: Db, after: Db)
    requires Sound(db) && LedgerInv(after) && AuditsOk(after) && CallsEvolve(db.calls, after.calls)
             && |after.calls| == |db.calls|
    requires after.jobs == db.jobs && after.batches == db.batches && RunsKept(db, after)
    ensures Sound(after) && Follows(db, after)
  {
    CallStepKeepsJobs(db, after);
    SameRowsEvolve(db, after);
  }

  lemma SettleStepKeeps(db: Db, r: Id, attempt: Id, record: Record)
    requires Sound(db)
    ensures Sound(Settle(db, r, attempt, record).1) && Follows(db, Settle(db, r, attempt, record).1)
  {
    SettleKeeps(db, r, attempt, record);
    SettleFrame(db, r, attempt, record);
    CallStep(db, Settle(db, r, attempt, record).1);
  }

  lemma ReconcileStepKeeps(db: Db, attempt: Id, kind: EvidenceKind, e: Record, apply: bool)
    requires Sound(db)
    ensures Sound(Reconcile(db, attempt, kind, e, apply).1) && Follows(db, Reconcile(db, attempt, kind, e, apply).1)
  {
    ReconcileKeeps(db, attempt, kind, e, apply);
    ReconcileFrame(db, attempt, kind, e, apply);
    CallStep(db, Reconcile(db, attempt, kind, e, apply).1);
  }

  /** Money steps move call rows, budgets and audits, and nothing else. */
  predicate MoneyOnly(db: Db, after: Db) {
    |after.calls| == |db.calls| && after == db.(calls := after.calls, budgets := after.budgets, audits := after.audits)
  }

  lemma ReconcileFrame(db: Db, attempt: Id, kind: EvidenceKind, e: Record, apply: bool)
    ensures MoneyOnly(db, Reconcile(db, attempt, kind, e, apply).1)
  {
    if Reconcile(db, attempt, kind, e, apply).0.Applied? {
      var _ := AppliedMeans(db, attempt, kind, e, apply);
    }
  }

  lemma SettleFrame(db: Db, r: Id, attempt: Id, record: Record)
    ensures MoneyOnly(db, Settle(db, r, attempt, record).1)
  {
    var _ := SettleMeans(db, r, attempt, record);
    ReconcileFrame(db, attempt, KindOf(record), record, true);
  }

  lemma ZeroChargeKeeps(db: Db, i: nat)
    requires Sound(db) && i < |db.calls| && ZeroChargeApplies(db, i)
    ensures Sound(ResolveAtZero(db, i)) && Follows(db, ResolveAtZero(db, i))
  {
    ResolveAtZeroKeeps(db, i);
    ResolveAtZeroEvolves(db, i);
    forall a | a in db.audits ensures AuditOk(ResolveAtZero(db, i), a) {
      AuditsSurvive(db, ResolveAtZero(db, i), a);
    }
    CallStep(db, ResolveAtZero(db, i));
  }

  lemma AdmissionStepKeeps(db: Db, w: Caller, q: Request)
    requires Sound(db) && CanReserve(db, w, q)
    ensures Sound(ReserveCall(db, w, q)) && Follows(db, ReserveCall(db, w, q))
  {
    ReserveKeepsJobs(db, w, q);
    ReserveEvolves(db, w, q);
    ReserveKeepsLedger(db, w, q);
  }

  lemma CandidateStepKeeps(db: Db, s: WorkerStep)
    requires Sound(db) && AcceptsWorker(db, s) && (s.DoStore? || s.DoValidate? || s.DoCommit?)
    ensures JobsInv(ApplyWorker(db, s)) && JobsEvolve(db, ApplyWorker(db, s)) && LedgerFrame(db, ApplyWorker(db, s))
  {
    match s
    case DoStore(w, b, raw, digest) => StoreKeeps(db, w, b, raw, digest);
    case DoValidate(w, b, report, validated, inconclusive) => ValidateKeeps(db, w, b, report, validated, inconclusive);
    case DoCommit(w, b, report, published) => CommitKeeps(db, w, b, report, published);
  }

  lemma OtherWorkerStepKeeps(db: Db, s: WorkerStep)
    requires Sound(db) && AcceptsWorker(db, s) && (s.DoBeginProbe? || s.DoOpenInProbe? || s.DoFinish? || s.DoRenew?)
    ensures JobsInv(ApplyWorker(db, s)) && JobsEvolve(db, ApplyWorker(db, s)) && LedgerFrame(db, ApplyWorker(db, s))
  {
    match s
    case DoBeginProbe(w, b, token, doubts) => ProbeStepsKeep(db, w, b, token, doubts);
    case DoOpenInProbe(w, b, token) => ProbeStepsKeep(db, w, b, token, 0);
    case DoFinish(w, requested, reason) => FinishKeeps(db, w, requested, reason);
    case DoRenew(w, duration) => RenewKeeps(db, w, duration);
  }

  lemma WorkerStepKeeps(db: Db, s: WorkerStep)
    requires Sound(db) && AcceptsWorker(db, s)
    ensures Sound(ApplyWorker(db, s)) && Follows(db, ApplyWorker(db, s))
  {
    if s.DoReserve? {
      AdmissionStepKeeps(db, s.w, s.q);
    } else {
      if s.DoStore? || s.DoValidate? || s.DoCommit? {
        CandidateStepKeeps(db, s);
      } else {
        OtherWorkerStepKeeps(db, s);
      }
      FrameStep(db, ApplyWorker(db, s));
    }
  }

  lemma SchedulingStepKeeps(db: Db, s: JobStep)
    requires Sound(db) && AcceptsJob(db, s) && (s.DoCreateJob? || s.DoBeginExtraction? || s.DoClaim?)
    ensures JobsInv(ApplyJob(db, s)) && JobsEvolve(db, ApplyJob(db, s)) && LedgerFrame(db, ApplyJob(db, s))
  {
    match s
    case DoCreateJob(w, key, identity, prefix, j, b) => CreateJobKeeps(db, w, key, identity, prefix, j, b);
    case DoBeginExtraction(w, b) => BeginExtractionKeeps(db, w, b);
    case DoClaim(w, j, owner, duration) => ClaimKeeps(db, w, j, owner, duration);
  }

  lemma RevokingStepKeeps(db: Db, s: JobStep)
    requires Sound(db) && AcceptsJob(db, s) && (s.DoCancelJobs? || s.DoCancelQuery? || s.DoFailRecovery?)
    ensures JobsInv(ApplyJob(db, s)) && JobsEvolve(db, ApplyJob(db, s)) && LedgerFrame(db, ApplyJob(db, s))
  {
    match s
    case DoCancelJobs(r) => CancelsKeep(db, r);
    case DoCancelQuery(r) => CancelsKeep(db, r);
    case DoFailRecovery(j) => FailRecoveryKeeps(db, j);
  }

  lemma JobStepKeepsAll(db: Db, s: JobStep)
    requires Sound(db) && AcceptsJob(db, s)
    ensures Sound(ApplyJob(db, s)) && Follows(db, ApplyJob(db, s))
  {
    if s.DoRecover? {
      RecoverJobKeeps(db, s.job);
    } else if s.DoTerminate? {
      TerminateJobKeeps(db, s.job, s.stale);
    } else {
      if s.DoCreateJob? || s.DoBeginExtraction? || s.DoClaim? {
        SchedulingStepKeeps(db, s);
      } else {
        RevokingStepKeeps(db, s);
      }
      FrameStep(db, ApplyJob(db, s));
    }
  }

  lemma MoneyStepKeeps(db: Db, s: MoneyStep)
    requires Sound(db) && AcceptsMoney(db, s)
    ensures Sound(ApplyMoney(db, s)) && Follows(db, ApplyMoney(db, s))
  {
    match s
    case DoSettle(r, attempt, record) => SettleStepKeeps(db, r, attempt, record);
    case DoReconcile(attempt, kind, evidence, apply) => ReconcileStepKeeps(db, attempt, kind, evidence, apply);
    case DoZeroCharge(i) => ZeroChargeKeeps(db, i);
  }

  predicate Sweeps(s: RunStep) { s.DoFinishRun? || s.DoSweepOwners? || s.DoSweepTerminalCalls? }

  lemma SweepStepKeeps(db: Db, s: RunStep)
    requires Sound(db) && AcceptsRun(db, s) && Sweeps(s)
    ensures Sound(ApplyRun(db, s)) && Follows(db, ApplyRun(db, s))
  {
    match s
    case DoFinishRun(r, _, answered, late) => FinishRunKeeps(db, r, answered, late);
    case DoSweepOwners => SweepOwnersKeeps(db);
    case DoSweepTerminalCalls(runs) => SweepTerminalCallsKeeps(db, runs);
  }

  lemma PlainRunStep(db: Db, s: RunStep)
    requires AcceptsRun(db, s) && !Sweeps(s)
    ensures var after := ApplyRun(db, s);
            after == db.(now := after.now, runs := after.runs, instances := after.instances)
  {
  }

  lemma PlainRunStepKeepsContracts(db: Db, s: RunStep)
    requires AcceptsRun(db, s) && !Sweeps(s)
    ensures RunsKept(db, ApplyRun(db, s))
  {
  }

  lemma RunStepKeepsAll(db: Db, s: RunStep)
    requires Sound(db) && AcceptsRun(db, s)
    ensures Sound(ApplyRun(db, s)) && Follows(db, ApplyRun(db, s))
  {
    if Sweeps(s) {
      SweepStepKeeps(db, s);
    } else {
      PlainRunStep(db, s);
      PlainRunStepKeepsContracts(db, s);
      RunStepKeeps(db, ApplyRun(db, s));
    }
  }

  /** Every transaction keeps the invariant and only moves rows forward. */
  lemma StepKeeps(db: Db, s: Step)
    requires Sound(db)
    ensures Sound(Apply(db, s)) && Follows(db, Apply(db, s))
  {
    if Accepts(db, s) {
      match s
      case OfWorker(x) => WorkerStepKeeps(db, x);
      case OfJob(j) => JobStepKeepsAll(db, j);
      case OfMoney(m) => MoneyStepKeeps(db, m);
      case OfRun(r) => RunStepKeepsAll(db, r);
    } else {
      NothingFollows(db);
    }
  }

  lemma NothingFollows(db: Db)
    requires Sound(db)
    ensures Follows(db, db)
  {
    NothingEvolves(db);
  }
}
