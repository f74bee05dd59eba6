/** Money over whole runs: the caps that hold together, the end-to-end spend bound, and what a halt stops. */
module Spending {
  import opened Types
  import opened Table
  import opened Ledger
  import opened LedgerLaws
  import opened Settlement
  import opened Jobs
  import opened Runs
  import opened Safety

  // ------------------------------------------------------------------------ caps

  /** Whatever group of calls a limit bounds - run, stage, job, experiment, subexperiment, session, project -
      it is within that limit, up to the summed overshoot of its settled calls. */
  lemma EveryCapHoldsTogether(db: Db, g: Group)
    requires Sound(db) && Count(db, g) > 0
    ensures var limit := StandingLimit(db, g);
            && (limit.money.Some? ==> Spent(db, g) <= limit.money.value + Total(db.calls, OvershootOf(g)))
            && (limit.count.Some? ==> Count(db, g) <= limit.count.value)
  {
    OccupiedSplits(db, g);
    assert Within(db, g, StandingLimit(db, g));
  }

  /** At most one paid answer call and one paid non-answer call are in flight, system-wide. */
  lemma OnePaidCallPerLane(db: Db, i: nat, k: nat)
    requires Sound(db) && i < |db.calls| && k < |db.calls| && i != k
    requires Paid(db.calls[i]) && Paid(db.calls[k]) && db.calls[i].stage.Answer? == db.calls[k].stage.Answer?
    ensures !(db.calls[i].state.Reserved? && db.calls[k].state.Reserved?)
  {
    if db.calls[i].state.Reserved? && db.calls[k].state.Reserved? {
      TwoRowsCount(db.calls, LaneOf(Deepseek, db.calls[i].stage.Answer?), if i < k then i else k,
                   if i < k then k else i);
    }
  }

  // -------------------------------------------------------------- what a step moves

  predicate SameCaps(bs: Budgets, cs: Budgets) {
    && cs.m1.cap == bs.m1.cap && cs.m2.cap == bs.m2.cap && cs.m3.cap == bs.m3.cap
    && cs.m1.maxRequests == bs.m1.maxRequests && cs.m2.maxRequests == bs.m2.maxRequests
    && cs.m3.maxRequests == bs.m3.maxRequests
  }

  /** No amount is written outside settlement and reconciliation. */
  ghost predicate AmountsKept(s: seq<Call>, t: seq<Call>) {
    && |s| <= |t|
    && (forall i ::
          0 <= i < |s| ==> t[i].amount == s[i].amount && t[i].upper == s[i].upper && t[i].experiment == s[i].experiment)
    && (forall i :: |s| <= i < |t| ==> t[i].amount.None?)
  }

  lemma WorkerMoney(db: Db, x: WorkerStep)
    requires AcceptsWorker(db, x)
    ensures SameCaps(db.budgets, ApplyWorker(db, x).budgets) && AmountsKept(db.calls, ApplyWorker(db, x).calls)
  {
  }

  lemma MarkLostMoney(db: Db, lost: Call -> bool, scope: Call -> bool)
    ensures var after := MarkLost(db, lost, scope);
            SameCaps(db.budgets, after.budgets) && AmountsKept(db.calls, after.calls)
  {
  }

  lemma GiveUpMoney(db: Db, j: Id)
    requires j in db.jobs
    ensures SameCaps(db.budgets, GiveUp(db, j).budgets) && AmountsKept(db.calls, GiveUp(db, j).calls)
  {
    MarkLostMoney(db, RunTouchedBy(db.jobs[j].run, j, db.jobs[j].batch),
                  RunTouchedBy(db.jobs[j].run, j, db.jobs[j].batch));
  }

  lemma JobMoney(db: Db, x: JobStep)
    requires AcceptsJob(db, x)
    ensures SameCaps(db.budgets, ApplyJob(db, x).budgets) && AmountsKept(db.calls, ApplyJob(db, x).calls)
  {
    if x.DoRecover? {
      MarkLostMoney(db, TouchedBy(x.job, db.jobs[x.job].batch), TouchedBy(x.job, db.jobs[x.job].batch));
    } else if x.DoTerminate? {
      GiveUpMoney(db, x.job);
    } else {
      assert ApplyJob(db, x).calls == db.calls && ApplyJob(db, x).budgets == db.budgets;
    }
  }

  lemma RunMoney(db: Db, x: RunStep)
    requires AcceptsRun(db, x)
    ensures SameCaps(db.budgets, ApplyRun(db, x).budgets) && AmountsKept(db.calls, ApplyRun(db, x).calls)
  {
  }

  lemma MoneyKeepsCaps(db: Db, x: MoneyStep)
    requires Sound(db) && AcceptsMoney(db, x)
    ensures SameCaps(db.budgets, ApplyMoney(db, x).budgets)
  {
    var after := ApplyMoney(db, x);
    match x {
      case DoSettle(r, attempt, record) => SettleKeeps(db, r, attempt, record);
      case DoReconcile(attempt, kind, e, apply) => ReconcileKeeps(db, attempt, kind, e, apply);
      case DoZeroCharge(_) =>
    }
    if !x.DoZeroCharge? {
      assert after.budgets.Get(M1).cap == db.budgets.Get(M1).cap
             && after.budgets.Get(M1).maxRequests == db.budgets.Get(M1).maxRequests;
      assert after.budgets.Get(M2).cap == db.budgets.Get(M2).cap
             && after.budgets.Get(M2).maxRequests == db.budgets.Get(M2).maxRequests;
      assert after.budgets.Get(M3).cap == db.budgets.Get(M3).cap
             && after.budgets.Get(M3).maxRequests == db.budgets.Get(M3).maxRequests;
    }
  }

  lemma StepKeepsCaps(db: Db, s: Step)
    requires Sound(db)
    ensures SameCaps(db.budgets, Apply(db, s).budgets)
  {
    if Accepts(db, s) {
      match s
      case OfWorker(x) => WorkerMoney(db, x);
      case OfJob(x) => JobMoney(db, x);
      case OfMoney(x) => MoneyKeepsCaps(db, x);
      case OfRun(x) => RunMoney(db, x);
    }
  }

  lemma {:induction false} RunKeepsCaps(db: Db, steps: seq<Step>)
    requires Sound(db)
    ensures SameCaps(db.budgets, After(db, steps).budgets)
    decreases |steps|
  {
    if steps != [] {
      StepKeeps(db, steps[0]);
      StepKeepsCaps(db, steps[0]);
      RunKeepsCaps(Apply(db, steps[0]), steps[1..]);
    }
  }

  // ------------------------------------------------------------------ spend bound

  /** From an empty ledger, an experiment's known plus reserved money never exceeds the cap it started
      with plus what its settled calls cost beyond their reservations. */
  lemma SpendNeverExceedsCap(db: Db, steps: seq<Step>, e: Experiment)
    requires Initial(db)
    ensures var after := After(db, steps);
            after.budgets.Get(e).known + after.budgets.Get(e).reserved
              <= db.budgets.Get(e).cap + Total(after.calls, OvershootOf(PaidIn(e)))
  {
    ReachedIsSound(db, steps);
    InitialIsSound(db);
    RunKeepsCaps(db, steps);
    SpendBound(After(db, steps), e);
  }

  /** The provider never counted more prompt tokens than a call's bytes allow for. */
  predicate HonestStep(db: Db, s: Step) {
    s.OfMoney? ==>
      match s.m
      case DoSettle(_, attempt, record) => HonestRecord(db, attempt, record)
      case DoReconcile(attempt, _, evidence, _) => HonestRecord(db, attempt, evidence)
      case DoZeroCharge(_) => true
  }

  predicate HonestRecord(db: Db, attempt: Id, r: Record) {
    forall i :: 0 <= i < |db.calls| && db.calls[i].attempt == attempt ==> PromptWithin(db.calls[i], r)
  }

  predicate HonestRun(db: Db, steps: seq<Step>)
    decreases |steps|
  {
    steps == [] || (HonestStep(db, steps[0]) && HonestRun(Apply(db, steps[0]), steps[1..]))
  }

  lemma KeptAmountsDoNotOvershoot(db: Db, after: Db)
    requires NoOvershoot(db, M3) && AmountsKept(db.calls, after.calls) && CallsEvolve(db.calls, after.calls)
    ensures NoOvershoot(after, M3)
  {
    if i :| 0 <= i < |after.calls| && Paid(after.calls[i]) && after.calls[i].experiment == M3
              && Overshoots(after.calls[i]) {
      assert Evolves(db.calls[i], after.calls[i]);
      assert Overshoots(db.calls[i]);
    }
  }

  lemma ZeroChargeDoesNotOvershoot(db: Db, i: nat)
    requires NoOvershoot(db, M3) && i < |db.calls| && ZeroChargeApplies(db, i)
    ensures NoOvershoot(ResolveAtZero(db, i), M3)
  {
    var after := ResolveAtZero(db, i);
    forall k | 0 <= k < |after.calls| && after.calls[k].experiment == M3 ensures after.calls[k] == db.calls[k] {
    }
  }

  lemma HonestStepStaysWithin(db: Db, s: Step)
    requires Sound(db) && NoOvershoot(db, M3) && HonestStep(db, s)
    ensures NoOvershoot(Apply(db, s), M3)
  {
    StepKeeps(db, s);
    if Accepts(db, s) {
      match s
      case OfWorker(x) => WorkerMoney(db, x); KeptAmountsDoNotOvershoot(db, Apply(db, s));
      case OfJob(x) => JobMoney(db, x); KeptAmountsDoNotOvershoot(db, Apply(db, s));
      case OfRun(x) => RunMoney(db, x); KeptAmountsDoNotOvershoot(db, Apply(db, s));
      case OfMoney(x) => HonestMoneyStaysWithin(db, x);
    }
  }

  lemma HonestMoneyStaysWithin(db: Db, x: MoneyStep)
    requires Sound(db) && NoOvershoot(db, M3) && HonestStep(db, OfMoney(x)) && AcceptsMoney(db, x)
    ensures NoOvershoot(ApplyMoney(db, x), M3)
  {
    match x
    case DoSettle(r, attempt, record) => HonestSettleStaysWithin(db, r, attempt, record);
    case DoReconcile(attempt, kind, e, apply) => HonestReconcileStaysWithin(db, attempt, kind, e, apply);
    case DoZeroCharge(i) => ZeroChargeDoesNotOvershoot(db, i);
  }

  lemma {:induction false} HonestRunStaysWithin(db: Db, steps: seq<Step>)
    requires Sound(db) && NoOvershoot(db, M3) && HonestRun(db, steps)
    ensures NoOvershoot(After(db, steps), M3)
    decreases |steps|
  {
    if steps != [] {
      StepKeeps(db, steps[0]);
      HonestStepStaysWithin(db, steps[0]);
      HonestRunStaysWithin(Apply(db, steps[0]), steps[1..]);
    }
  }

  /** With honest prompts the M3 experiment never spends beyond its cap, is never halted for an exceeded
      reservation, and is halted exactly while a paid call is unknown. */
  lemma HonestSpendStaysWithinCap(db: Db, steps: seq<Step>)
    requires Initial(db) && HonestRun(db, steps)
    ensures var after := After(db, steps); var b := after.budgets.m3;
            && b.known + b.reserved <= db.budgets.m3.cap
            && b.halted != Some(CostExceededReservation)
            && (b.halted.Some?
                <==> exists i ::
                       0 <= i < |after.calls| && Paid(after.calls[i]) && after.calls[i].experiment == M3
                         && after.calls[i].state.Unknown?)
  {
    InitialIsSound(db);
    ReachedIsSound(db, steps);
    RunKeepsCaps(db, steps);
    HonestRunStaysWithin(db, steps);
    NoOvershootMeansWithinCap(After(db, steps), M3);
  }

  // ------------------------------------------------------------------------ halts

  /** While an experiment has a paid call that is unknown or cost too much, it is halted and admits no paid call. */
  lemma StuckCallsStopPaidWork(db: Db, w: Caller, q: Request)
    requires Sound(db) && w.run in db.runs && AnyStuck(db.calls, ExperimentFor(db.runs[w.run].contract))
             && q.provider.Deepseek?
    ensures db.budgets.Get(ExperimentFor(db.runs[w.run].contract)).halted.Some? && !CanReserve(db, w, q)
  {
    assert HaltExact(db, ExperimentFor(db.runs[w.run].contract));
  }

  /** One paid call beyond its reservation halts its experiment for ever: no later state admits another
      paid attempt. */
  lemma OvershootHaltsForever(db: Db, steps: seq<Step>, e: Experiment)
    requires Sound(db) && AnyOvershoot(db.calls, e)
    ensures var after := After(db, steps); AnyOvershoot(after.calls, e) && after.budgets.Get(e).halted.Some?
    ensures After(db, steps).budgets.Get(e).attempted == db.budgets.Get(e).attempted
    decreases |steps|
  {
    OvershootHalts(db, e);
    if steps != [] {
      StepKeeps(db, steps[0]);
      OvershootSurvivesStep(db, Apply(db, steps[0]), e);
      HaltedAttemptsStay(db, steps[0], e);
      OvershootHaltsForever(Apply(db, steps[0]), steps[1..], e);
    }
  }

  lemma OvershootHalts(db: Db, e: Experiment)
    requires Sound(db) && AnyOvershoot(db.calls, e)
    ensures db.budgets.Get(e).halted.Some?
  {
    assert HaltExact(db, e);
    OvershootSticks(db.calls, e);
  }

  lemma OvershootSurvivesStep(db: Db, after: Db, e: Experiment)
    requires Sound(db) && Follows(db, after) && AnyOvershoot(db.calls, e)
    ensures AnyOvershoot(after.calls, e)
  {
    var i :| 0 <= i < |db.calls| && Paid(db.calls[i]) && db.calls[i].experiment == e && Overshoots(db.calls[i]);
    assert RowOk(db, db.calls[i]) && Evolves(db.calls[i], after.calls[i]);
  }

  /** A halted experiment's attempt count does not move. */
  lemma HaltedAttemptsStay(db: Db, s: Step, e: Experiment)
    requires Sound(db) && db.budgets.Get(e).halted.Some?
    ensures Apply(db, s).budgets.Get(e).attempted == db.budgets.Get(e).attempted
  {
    if Accepts(db, s) {
      match s
      case OfWorker(x) => HaltedWorkerAttempts(db, x, e);
      case OfJob(x) => JobAttempts(db, x, e);
      case OfMoney(x) => MoneyAttempts(db, x, e);
      case OfRun(x) => RunAttempts(db, x, e);
    }
  }

  lemma JobAttempts(db: Db, x: JobStep, e: Experiment)
    requires AcceptsJob(db, x)
    ensures ApplyJob(db, x).budgets.Get(e).attempted == db.budgets.Get(e).attempted
  {
  }

  lemma RunAttempts(db: Db, x: RunStep, e: Experiment)
    requires AcceptsRun(db, x)
    ensures ApplyRun(db, x).budgets.Get(e).attempted == db.budgets.Get(e).attempted
  {
  }

  lemma HaltedWorkerAttempts(db: Db, x: WorkerStep, e: Experiment)
    requires db.budgets.Get(e).halted.Some? && AcceptsWorker(db, x)
    ensures ApplyWorker(db, x).budgets.Get(e) == db.budgets.Get(e)
  {
    if x.DoReserve? {
      ReserveMovesOneBudget(db.budgets, RowFor(db, x.w, x.q), e);
    }
  }

  lemma ReconcileAttempts(db: Db, attempt: Id, kind: EvidenceKind, v: Record, apply: bool, e: Experiment)
    ensures Reconcile(db, attempt, kind, v, apply).1.budgets.Get(e).attempted == db.budgets.Get(e).attempted
  {
    if Reconcile(db, attempt, kind, v, apply).0.Applied? {
      var i := AppliedMeans(db, attempt, kind, v, apply);
    }
  }

  lemma MoneyAttempts(db: Db, x: MoneyStep, e: Experiment)
    requires AcceptsMoney(db, x)
    ensures ApplyMoney(db, x).budgets.Get(e).attempted == db.budgets.Get(e).attempted
  {
    match x
    case DoSettle(r, attempt, record) =>
      var i := SettleMeans(db, r, attempt, record);
      ReconcileAttempts(db, attempt, KindOf(record), record, true, e);
    case DoReconcile(attempt, kind, v, apply) => ReconcileAttempts(db, attempt, kind, v, apply, e);
    case DoZeroCharge(_) =>
  }
}
