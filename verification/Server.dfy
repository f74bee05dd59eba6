/** The service itself: its transactions as methods over the tables they lock and update, in the order in
    which they check and write. Each method is proved to accept exactly when its guard holds, to leave the
    tables as its effect says, and to roll back completely otherwise. */
module Service {
  import opened Types
  import opened Tariff
  import opened Table
  import opened Ledger
  import opened Settlement
  import opened Jobs
  import opened Runs
  import opened Leases

  datatype Error =
    | NoError | PermissionDenied | RunNotActive | OwnerLost | FenceRejected | JobNotActive | Expired | Stale
    | BatchMismatch | BatchExpired | InvalidStage | AlreadyAttempted | ProbeLimit | BindingMismatch | StageBudget
    | RunBudget
    | ConcurrencyLimit | CostUnknownHalt | ExperimentBudget | SubexperimentBudget | SessionBudget | InvalidRequest
    | NotClaimable | LeaseHeld | NeedsReconciliation | Conflict | NotFound | AlreadyTerminal | CandidatesRequired
    | Superseded

  class Server {
    const conn: Option<Id>
    const recovery: bool
    var now: int
    var runs: map<Id, Run>
    var jobs: map<Id, Job>
    var batches: map<Id, Batch>
    var instances: map<Id, Instance>
    var calls: seq<Call>
    var budgets: Budgets
    var audits: map<Id, Audit>
    var sessions: map<Id, Session>
    var opening: nat

    constructor (db: Db, conn: Option<Id>)
      ensures State() == db && this.conn == conn
    {
      this.conn, recovery := conn, db.recovery;
      now, runs, jobs, batches, instances := db.now, db.runs, db.jobs, db.batches, db.instances;
      calls, budgets, audits, sessions, opening := db.calls, db.budgets, db.audits, db.sessions, db.opening;
    }

    function State(): Db
      reads this
    {
      Db(now, recovery, runs, jobs, batches, instances, calls, budgets, audits, sessions, opening)
    }

    // -------------------------------------------------------------- authorization

    /** The fence check made before, during and at the end of every background transaction. */
    method ValidateJob(w: Caller) returns (e: Error)
      ensures e.NoError? <==> HoldsJob(State(), w)
    {
      if !ConnLive(State(), w.conn) { return OwnerLost; }
      if w.job.None? || w.owner.None? || w.token == 0 { return PermissionDenied; }
      if w.job.value !in jobs || w.run !in runs { return PermissionDenied; }
      var j := jobs[w.job.value];
      if j.run != w.run || j.owner != w.owner || j.token != w.token { return FenceRejected; }
      if j.cancelled || j.state.Skipped? || j.state.Failed? || j.state.OutcomeUnknown? { return JobNotActive; }
      var r := runs[w.run];
      var held := j.state.Running? || j.state.ResultReady? || j.state.Committed?;
      if r.cancelRequested || (!r.state.RunRunning? && !r.state.Completed? && !(r.state.Interrupted? && held)) {
        return RunNotActive;
      }
      if j.deadline <= now || j.leaseUntil.None? || j.leaseUntil.value <= now { return Expired; }
      if !w.valid { return Stale; }
      if !LeaseInstanceActive(State(), j, w.conn) { return Expired; }
      return NoError;
    }

    method OpenTransaction(w: Caller) returns (e: Error)
      ensures e.NoError? <==> InTransaction(State(), w)
    {
      if !w.valid || !ConnLive(State(), w.conn) || w.run !in runs { return PermissionDenied; }
      var r := runs[w.run];
      if !r.contract.m2 || r.contract.diagnostic { return PermissionDenied; }
      if !r.state.RunRunning? && !(w.job.Some? && (r.state.Completed? || r.state.Interrupted?)) { return RunNotActive; }
      if r.deadline <= now { return RunNotActive; }
      if w.job.None? {
        if !ForegroundOwned(State(), r, w.conn) { return OwnerLost; }
      } else {
        e := ValidateJob(w);
        if !e.NoError? { return; }
      }
      if !w.current { return Stale; }
      return NoError;
    }

    method CheckBatch(w: Caller, b: Id) returns (e: Error)
      requires w.run in runs
      ensures e.NoError? <==> BatchOpen(State(), w, b)
    {
      if b !in batches || batches[b].job != w.job { return BatchMismatch; }
      var k := runs[w.run].contract;
      if k.historical || (batches[b].run != w.run && k.revalidates != Some(b)) { return BatchMismatch; }
      if batches[b].deadline <= now { return BatchExpired; }
      return NoError;
    }

    // ------------------------------------------------------------------ admission

    method AdmitStage(w: Caller, q: Request) returns (e: Error)
      requires w.run in runs
      ensures e.NoError? <==> StageAllows(State(), w, q)
    {
      if !runs[w.run].contract.m2 {
        return if q.stage.Answer? then NoError else InvalidStage;
      }
      if q.stage.Answer? || q.stage.Other? {
        return if q.batch.None? then NoError else BatchMismatch;
      }
      if q.batch.None? { return BatchMismatch; }
      e := CheckBatch(w, q.batch.value);
      if !e.NoError? { return; }
      var b := batches[q.batch.value];
      if q.stage.Extraction? || q.stage.Mapping? {
        return if AnyCallIn(calls, q.batch.value, q.stage) || b.raw.Some? then AlreadyAttempted else NoError;
      }
      if b.rounds != 1 || b.models >= 2 || b.probeToken.None? || b.probeToken != q.probeToken { return ProbeLimit; }
      return NoError;
    }

    /** The policy's stage limits, narrowed by the run's own configuration. */
    method ReadStageLimits(k: Contract) returns (e: Error, fgMax: int, bgMax: int, bgCap: int, probeCap: int)
      requires PolicyOf(k).Some?
      ensures e.NoError? <==> StageLimitsValid(k)
      ensures e.NoError? ==>
                fgMax == NarrowCount(k.maxForeground, PolicyOf(k).value.maxForeground)
                  && BackgroundLimit(k) == Limit(Some(bgCap), Some(bgMax))
      ensures e.NoError? ==> Ledger.ProbeLimit(k) == Limit(Some(probeCap), Some(PolicyOf(k).value.maxProbe))
    {
      var policy := PolicyOf(k).value;
      e, fgMax, bgMax, bgCap, probeCap := StageBudget, policy.maxForeground, policy.maxBackground,
      policy.backgroundCost, policy.probeCost;
      if k.maxForeground.Some? {
        if !WholeWithin(k.maxForeground, policy.maxForeground) { return; }
        fgMax := k.maxForeground.value.Floor;
      }
      if k.maxBackground.Some? {
        if !WholeWithin(k.maxBackground, policy.maxBackground) { return; }
        bgMax := k.maxBackground.value.Floor;
      }
      if k.backgroundCost.Some? {
        if k.backgroundCost.value < 0 { return; }
        bgCap := Min(bgCap, k.backgroundCost.value);
      }
      if k.probeCost.Some? {
        if k.probeCost.value < 0 { return; }
        probeCap := Min(probeCap, k.probeCost.value);
      }
      e := NoError;
    }

    /** Stage budgets: the narrowed limits are compared with the run's and the job's rows. */
    method CheckStageBudgets(k: Contract, c: Call) returns (e: Error)
      ensures e.NoError? <==> StageCapsAllow(State(), k, c)
    {
      if !k.m3 { return NoError; }
      if PolicyOf(k).None? { return StageBudget; }
      var policy := PolicyOf(k).value;
      var read, fgMax, bgMax, bgCap, probeCap := ReadStageLimits(k);
      if !read.NoError? { return read; }
      if c.stage.Answer? && Count(State(), RunForeground(c.run)) >= fgMax { return StageBudget; }
      if !c.stage.Answer?
         && (Count(State(), RunBackground(c.run)) >= bgMax || Spent(State(), RunBackground(c.run)) + c.upper > bgCap) {
        return StageBudget;
      }
      if c.stage.Probe?
         && (Count(State(), RunProbe(c.run)) >= policy.maxProbe
             || Spent(State(), RunProbe(c.run)) + c.upper > probeCap) {
        return StageBudget;
      }
      if c.job.Some? {
        var j := c.job.value;
        if Count(State(), JobAll(j)) >= bgMax || Spent(State(), JobAll(j)) + c.upper > bgCap { return StageBudget; }
        if c.stage.Probe?
           && (Count(State(), JobProbe(j)) >= policy.maxProbe || Spent(State(), JobProbe(j)) + c.upper > probeCap) {
          return StageBudget;
        }
      }
      return NoError;
    }

    method CheckBinding(w: Caller, q: Request) returns (e: Error)
      requires w.run in runs && (w.job.Some? ==> w.job.value in jobs)
      ensures e.NoError? <==> BindingAllows(State(), w, q)
    {
      var k := runs[w.run].contract;
      if !k.m3 { return NoError; }
      if w.job.Some? {
        var j := jobs[w.job.value];
        if q.batch != Some(j.batch) || q.prefix != Some(j.prefix) { return BindingMismatch; }
        if !j.state.Running? && !(q.stage.Probe? && j.state.ResultReady?) { return BindingMismatch; }
        if q.stage.Extraction? && k.hotOnly && !q.hot { return BindingMismatch; }
      } else if k.durable && !q.stage.Answer? && !q.stage.Other? {
        return BindingMismatch;
      }
      if q.prefix.Some? && !q.stage.Probe? && !q.prefixMatches { return BindingMismatch; }
      if k.diagnostic && q.probeToken.Some? { return BindingMismatch; }
      return NoError;
    }

    /** The M3 experiment's own admission: lanes, unknown costs, session, experiment, subexperiment and probe caps. */
    method AdmitM3Budget(k: Contract, q: Request, c: Call) returns (e: Error)
      requires c.experiment.M3? && k.m3
      ensures e.NoError? <==> M3BudgetAllows(State(), k, c) && LabelAllows(k, q)
    {
      if !RunBudgetValid(k) { return RunBudget; }
      var p := PolicyOf(k).value;
      if !DiagnosticShape(k, c) { return PermissionDenied; }
      if k.sub.NoSubexperiment? || (!q.budget.NoSubexperiment? && q.budget != k.sub) { return SubexperimentBudget; }
      if q.refreshes > 1 { return InvalidRequest; }
      var activeFg, activeBg := Lane(State(), c.provider, true), Lane(State(), c.provider, false);
      if Paid(c) && AnyUnresolvedPaid(calls) { return CostUnknownHalt; }
      if activeFg + activeBg >= 2 || (c.stage.Answer? && activeFg >= 1) || (!c.stage.Answer? && activeBg >= 1) {
        return ConcurrencyLimit;
      }
      if !Paid(c) { return NoError; }
      if !SessionAllows(State(), c) { return SessionBudget; }
      var b := budgets.m3;
      if b.halted.Some? { return CostUnknownHalt; }
      if b.maxRequests > 2000 || b.cap > 100 * YUAN { return ExperimentBudget; }
      var cap, most := Min(b.cap, p.globalCap), Min(b.maxRequests, p.maxRequests);
      if b.attempted >= most || b.known + b.reserved + c.upper > cap { return ExperimentBudget; }
      if SubexperimentRow(k.sub).None? || SubexperimentPolicy(k).None? { return SubexperimentBudget; }
      var limit := Tighter(SubexperimentRow(k.sub).value, SubexperimentPolicy(k).value);
      if Count(State(), PaidSub(k.sub)) >= limit.count.value
         || limit.money.value - Spent(State(), PaidSub(k.sub)) - c.upper < 0 {
        return SubexperimentBudget;
      }
      if c.stage.Probe? && Spent(State(), PaidProbe(M3)) + c.upper > p.globalProbeCap { return ProbeLimit; }
      return NoError;
    }

    method AdmitLegacyBudget(c: Call) returns (e: Error)
      ensures e.NoError? <==> LegacyBudgetAllows(State(), c)
    {
      if !Paid(c) { return NoError; }
      var b := budgets.Get(c.experiment);
      if b.halted.Some? { return CostUnknownHalt; }
      if b.maxRequests > 20 || b.cap > YUAN || b.attempted >= b.maxRequests || b.known + b.reserved + c.upper > b.cap {
        return ExperimentBudget;
      }
      if exists i :: 0 <= i < |calls| && Paid(calls[i]) && calls[i].state.Reserved? { return ConcurrencyLimit; }
      if c.stage.Probe? && Spent(State(), PaidProbe(c.experiment)) + c.upper > YUAN / 10 { return ProbeLimit; }
      return NoError;
    }

    method AdmitBudgets(k: Contract, q: Request, c: Call) returns (e: Error)
      requires c.experiment == ExperimentFor(k)
      ensures e.NoError? <==> LedgerAllows(State(), k, c) && LabelAllows(k, q)
    {
      e := CheckStageBudgets(k, c);
      if !e.NoError? { return; }
      if Count(State(), RunAll(c.run)) >= k.maxModelCalls || Spent(State(), RunAll(c.run)) + c.upper > k.costBudget {
        return RunBudget;
      }
      if k.m3 {
        e := AdmitM3Budget(k, q, c);
      } else {
        e := AdmitLegacyBudget(c);
      }
      if !e.NoError? { return; }
      return if Find(calls, c.attempt).Some? then Error.Conflict else NoError;
    }

    method CheckCaller(w: Caller, r: Run) returns (e: Error)
      requires w.run in runs && r == runs[w.run]
      ensures e.NoError? <==>
              && !r.cancelRequested && now < r.deadline
              && (r.state.RunRunning? || (w.job.Some? && (r.state.Completed? || (r.state.Interrupted? && recovery))))
              && (if w.job.None? then ForegroundOwned(State(), r, w.conn) else HoldsJob(State(), w))
    {
      if r.cancelRequested || r.deadline <= now { return RunNotActive; }
      if !r.state.RunRunning? && !((r.state.Completed? || (r.state.Interrupted? && recovery)) && w.job.Some?) {
        return RunNotActive;
      }
      if w.job.None? {
        return if ForegroundOwned(State(), r, w.conn) then NoError else OwnerLost;
      }
      e := ValidateJob(w);
    }

    method Admit(w: Caller, q: Request) returns (e: Error)
      ensures e.NoError? <==> CanReserve(State(), w, q)
    {
      if !w.valid || !ConnLive(State(), w.conn) || w.run !in runs { return PermissionDenied; }
      var r := runs[w.run];
      if q.provider != r.provider || !q.wellFormed { return InvalidRequest; }
      if OutputLimit(r.contract, q.payload.maxTokens).None? { return InvalidRequest; }
      e := CheckCaller(w, r);
      if !e.NoError? { return; }
      if !w.current { return Stale; }
      if q.stage.Probe? && !ProbeAllowed(r.contract) { return ProbeLimit; }
      e := AdmitStage(w, q);
      if !e.NoError? { return; }
      e := CheckBinding(w, q);
      if !e.NoError? { return; }
      e := AdmitBudgets(r.contract, q, RowFor(State(), w, q));
    }

    /** The writes of an admission: the probe counter, the reserve, the row. */
    method InsertCall(c: Call, q: Request)
      modifies this`batches, this`budgets, this`calls
      ensures State() == Insert(old(State()), c).(batches := CountProbe(old(batches), q))
    {
      if q.stage.Probe? && q.batch.Some? && q.batch.value in batches {
        batches := batches[q.batch.value := batches[q.batch.value].(models := batches[q.batch.value].models + 1)];
      }
      if Paid(c) {
        var b := budgets.Get(c.experiment);
        budgets := budgets.Set(c.experiment, b.(reserved := b.reserved + c.upper, attempted := b.attempted + 1));
      }
      calls := calls + [c];
    }

    /** Admit one model call: on success exactly its row, its experiment's reserve and the probe counter change. */
    method ReserveCall(w: Caller, q: Request) returns (e: Error)
      modifies this
      ensures e.NoError? <==> CanReserve(old(State()), w, q)
      ensures State() == Apply(old(State()), OfWorker(DoReserve(w, q)))
    {
      e := Admit(w, q);
      if e.NoError? { InsertCall(RowFor(State(), w, q), q); }
    }

    // ----------------------------------------------------------------- settlement

    /** Records the evidence and moves the call's money from reserved to known. */
    method ApplyEvidence(i: nat, kind: EvidenceKind, evidence: Record, amount: nat)
      requires i < |calls| && budgets.m3.reserved >= calls[i].upper
      modifies this`audits, this`calls, this`budgets
      ensures State() == Resolve(old(State()), i, kind, evidence, amount)
    {
      var c := calls[i];
      audits := audits[c.attempt := Audit(kind, evidence, amount)];
      calls := calls[i := c.(state := Settled, amount := Some(amount))];
      var b := budgets.m3;
      var exceeded := amount > c.upper || b.known + b.reserved + amount - c.upper > b.cap;
      b := b.(known := b.known + amount, reserved := b.reserved - c.upper,
              halted := if exceeded then Some(CostExceededReservation) else b.halted);
      budgets := budgets.(m3 := ClearResolvedHalt(calls, M3, b));
    }

    /** The operator's reconciliation of one unresolved attempt. */
    method ReconcileAttempt(attempt: Id, kind: EvidenceKind, evidence: Record, apply: bool)
      returns (reply: ReconcileReply)
      modifies this
      ensures (reply, State()) == Reconcile(old(State()), attempt, kind, evidence, apply)
    {
      var row := Find(calls, attempt);
      FindMeans(calls, attempt);
      if row.None? { return Refused; }
      var i := row.value;
      var c := calls[i];
      if !Paid(c) || !c.experiment.M3? { return Refused; }
      if attempt in audits {
        var previous := audits[attempt];
        return if previous.evidence != evidence || previous.kind != kind || !c.state.Settled? then Refused
                 else Replayed;
      }
      if !c.state.Unknown? { return Refused; }
      var amount := EvidenceAmount(State(), c, kind, evidence);
      if amount.None? || budgets.m3.reserved < c.upper { return Refused; }
      if !apply { return Previewed(amount.value); }
      ApplyEvidence(i, kind, evidence, amount.value);
      return Applied(amount.value);
    }

    /** The runtime's report on one attempt: price it, leave it unknown, or treat it as late evidence. */
    method SettleCall(run: Id, attempt: Id, record: Record) returns (reply: SettleReply)
      modifies this
      ensures (reply, State()) == Settle(old(State()), run, attempt, record)
    {
      var row := Find(calls, attempt);
      FindMeans(calls, attempt);
      if row.None? || calls[row.value].run != run { return SettleReply.NotFound; }
      var i := row.value;
      var c := calls[i];
      if Late(State(), c, record) {
        var kind := if ProvesNotDispatched(record, M3) then NeverDispatched else LateUsage;
        var late := ReconcileAttempt(attempt, kind, record, true);
        return if late.Refused? then EvidenceRejected else Accepted;
      }
      if !c.state.Reserved? {
        return if c.record == Some(record) then Accepted else SettleReply.Conflict;
      }
      var finalState: CallState, amount: Option<nat>, halt: Option<Halt> := Settled, None, None;
      var b := budgets.Get(c.experiment);
      if c.provider.Deepseek? {
        var usageInvalid := false;
        if c.experiment.M3? && record.status.Estimated? {
          var limit := LimitOfCall(State(), c);
          usageInvalid := limit.None? || VerifiedCost(record, limit.value).None?;
        }
        if ProvesNotDispatched(record, c.experiment) {
          amount := Some(0);
          b := b.(reserved := b.reserved - c.upper);
        } else if usageInvalid || record.amount.None? || !record.status.Estimated? || !record.cny
                  || record.rawUsage.UsageAbsent? || record.rawUsage.UsageNull? {
          finalState := Unknown;
          halt := Some(CostUnknown);
        } else {
          var value := AmountUnits(record.amount.value);
          if value.None? || value.value < 0 { return AmountRejected; }
          amount := Some(value.value);
          if value.value > c.upper { halt := Some(CostExceededReservation); }
          b := b.(known := b.known + value.value, reserved := b.reserved - c.upper);
        }
        if halt.Some? { b := b.(halted := halt); }
      }
      budgets := budgets.Set(c.experiment, b);
      calls := calls[i := c.(state := finalState, amount := amount, record := Some(record),
                             receivedAt := if finalState.Settled? then Some(now) else None)];
      return Accepted;
    }

    // ------------------------------------------------------------- job life cycle

    /** Persist a job with its one batch, or return the job this logical key already has. */
    method CreateJob(w: Caller, key: Id, identity: Id, prefix: Id, freshJob: Id, freshBatch: Id)
      returns (e: Error, job: Id, created: bool)
      requires freshJob !in jobs && freshBatch !in batches
      modifies this
      ensures created <==> CanCreateJob(old(State()), w, key, freshJob, freshBatch)
      ensures created ==> e.NoError? && job == freshJob
      ensures State() == Apply(old(State()), OfJob(DoCreateJob(w, key, identity, prefix, freshJob, freshBatch)))
      ensures e.NoError? && !created ==>
                job in jobs && jobs[job].run == w.run && jobs[job].key == key && jobs[job].identity == identity
    {
      job, created := freshJob, false;
      if w.job.Some? { return PermissionDenied, job, false; }
      e := OpenTransaction(w);
      if !e.NoError? { return; }
      if runs[w.run].contract.historical { return PermissionDenied, job, false; }
      if j :| j in jobs && jobs[j].run == w.run && jobs[j].key == key {
        return if jobs[j].identity != identity then Error.Conflict else NoError, j, false;
      }
      var deadline := runs[w.run].deadline;
      batches := batches[freshBatch := NewBatch(w.run, Some(freshJob), deadline)];
      jobs := jobs[freshJob := Job(w.run, key, identity, freshBatch, prefix, WaitingPrefix, None, None, None, 0, 0,
                                   deadline, false, None, NoReason)];
      return NoError, freshJob, true;
    }

    /** Begin an extraction outside any job, or return the batch that the same run began for the same regions.
        `existing` is the batch found under the logical key; `observed` says that the run has seen every region. */
    method BeginExtraction(w: Caller, existing: Option<Id>, freshBatch: Id, observed: bool)
      returns (e: Error, b: Id)
      requires freshBatch !in batches && (existing.Some? ==> existing.value in batches)
      modifies this
      ensures e.NoError? <==>
              observed && CanBeginExtraction(old(State()), w, freshBatch)
                && (existing.Some? ==> BatchOpen(old(State()), w, existing.value))
      ensures e.NoError? ==> b == if existing.Some? then existing.value else freshBatch
      ensures e.NoError? ==> w.run in runs && BatchOpen(State(), w, b)
      ensures State() == if e.NoError? && existing.None?
                         then Apply(old(State()), OfJob(DoBeginExtraction(w, freshBatch))) else old(State())
    {
      b := freshBatch;
      if w.job.Some? { return PermissionDenied, b; }
      e := OpenTransaction(w);
      if !e.NoError? { return; }
      if runs[w.run].contract.historical || !observed { return PermissionDenied, b; }
      if existing.Some? {
        e := CheckBatch(w, existing.value);
        return e, existing.value;
      }
      batches := batches[freshBatch := NewBatch(w.run, None, runs[w.run].deadline)];
    }

    /** The answer recorded by the job's one settled extraction, if it has exactly one. */
    method RecordedExtraction(j: Id) returns (raw: string)
      ensures raw == Recorded(calls, j)
    {
      var count := 0;
      raw := "";
      for i := 0 to |calls|
        invariant count == |Extractions(calls[..i], j)|
        invariant raw == if count == 1 then Recorded(calls[..i], j) else raw
        invariant count == 0 ==> raw == ""
      {
        assert calls[..i + 1][..i] == calls[..i];
        if SettledExtraction(calls[i], j) {
          count := count + 1;
          if Content(calls[i].record).Some? { raw := Content(calls[i].record).value; }
        }
      }
      assert calls[..|calls|] == calls;
      if count != 1 { raw := ""; }
    }

    method CheckClaim(w: Caller, j: Id, duration: int) returns (e: Error)
      ensures e.NoError? <==> CanClaim(State(), w, j, duration)
    {
      if duration <= 0 || duration > 180 * SECOND { return InvalidRequest; }
      if !w.valid || !ConnLive(State(), w.conn) || w.run !in runs { return PermissionDenied; }
      var r := runs[w.run];
      if r.cancelRequested || (!r.state.RunRunning? && !r.state.Completed? && !r.state.Interrupted?) {
        return RunNotActive;
      }
      if j !in jobs || jobs[j].run != w.run { return PermissionDenied; }
      var job := jobs[j];
      if r.state.Interrupted? && !recovery && !(job.state.ResultReady? && job.digest.Some?) { return NotClaimable; }
      if job.cancelled || job.deadline <= now || r.deadline <= now { return Expired; }
      if !job.state.WaitingPrefix? && !job.state.Running? && !job.state.ResultReady? { return NotClaimable; }
      if job.leaseUntil.Some? && now < job.leaseUntil.value { return LeaseHeld; }
      if HasOpenCalls(calls, j, job.batch) { return NeedsReconciliation; }
      if job.digest.None? && Attempted(calls, j) {
        var raw := RecordedExtraction(j);
        if !recovery || raw == "" { return NeedsReconciliation; }
      }
      return if w.current then NoError else Stale;
    }

    /** Lease the job to a worker under a new fence, unless a dispatch might be repeated. */
    method ClaimJob(w: Caller, j: Id, owner: Id, duration: int) returns (e: Error)
      modifies this
      ensures e.NoError? <==> CanClaim(old(State()), w, j, duration)
      ensures State() == Apply(old(State()), OfJob(DoClaim(w, j, owner, duration)))
    {
      e := CheckClaim(w, j, duration);
      if !e.NoError? { return; }
      var job := jobs[j];
      var until := now + duration;
      if until > job.deadline { until := job.deadline; }
      jobs := jobs[j := job.(state := if job.digest.None? then Running else ResultReady, owner := Some(owner),
                             leaseUntil := Some(until),
                             instance := w.conn, token := job.token + 1, attempt := job.attempt + 1)];
    }

    /** Extend a live lease within the original deadline, without a new fence. */
    method RenewJob(w: Caller, duration: int) returns (e: Error)
      modifies this
      ensures e.NoError? <==> CanRenew(old(State()), w, duration)
      ensures State() == Apply(old(State()), OfWorker(DoRenew(w, duration)))
    {
      if duration <= 0 || duration > 20 * SECOND { return InvalidRequest; }
      e := OpenTransaction(w);
      if !e.NoError? { return; }
      if w.job.None? { return PermissionDenied; }
      var j := w.job.value;
      var job := jobs[j];
      if !job.state.Running? && !job.state.ResultReady? { return NotClaimable; }
      if job.instance.None? || w.conn.None? || job.instance != w.conn { return OwnerLost; }
      var until := if job.leaseUntil.value < now + duration then now + duration else job.leaseUntil.value;
      if until > job.deadline { until := job.deadline; }
      jobs := jobs[j := job.(leaseUntil := Some(until))];
      return NoError;
    }

    /** The first submission is stored for batch and job together; the same text again is only acknowledged. */
    method StoreCandidates(w: Caller, b: Id, raw: Id, digest: Id) returns (e: Error, replayed: bool)
      modifies this
      ensures e.NoError? <==> CanStore(old(State()), w, b, raw)
      ensures State() == Apply(old(State()), OfWorker(DoStore(w, b, raw, digest)))
      ensures replayed ==> e.NoError? && State() == old(State())
    {
      replayed := false;
      e := OpenTransaction(w);
      if !e.NoError? { return; }
      e := CheckBatch(w, b);
      if !e.NoError? { return; }
      if batches[b].raw.Some? {
        if batches[b].raw != Some(raw) { return Error.Conflict, false; }
        return NoError, true;
      }
      if w.job.Some? && jobs[w.job.value].state.Committed? { return AlreadyTerminal, false; }
      batches := batches[b := batches[b].(raw := Some(raw), digest := Some(digest), state := BatchReady)];
      if w.job.Some? {
        jobs := jobs[w.job.value := jobs[w.job.value].(state := ResultReady, digest := Some(digest))];
      }
    }

    /** Record a report on the stored candidates. `checked` is what the source says of each of them now, and `seen` are
        the observations of the batch's probe. */
    method ValidateCandidates(w: Caller, b: Id, report: Id, checked: seq<CheckedItem>, seen: seq<Option<Snapshot>>)
      returns (e: Error, items: seq<CheckedItem>)
      modifies this
      ensures e.NoError? <==> CanValidate(old(State()), w, b)
      ensures e.NoError? ==> Rechecked(checked, seen, items) && b in batches && batches[b].latest == Some(report)
      ensures e.NoError? ==> (batches[b].state.Validated? <==> exists x :: x in items && x.status.IsValidated?)
      ensures e.NoError? ==> (batches[b].state.Rejected? <==> forall x :: x in items ==> x.status.IsRejected?)
      ensures State() == Apply(old(State()), OfWorker(DoValidate(w, b, report, Tally(items, IsValidated),
                                                                 Tally(items, IsInconclusive))))
    {
      items := checked;
      e := OpenTransaction(w);
      if !e.NoError? { return; }
      e := CheckBatch(w, b);
      if !e.NoError? { return; }
      if batches[b].raw.None? || batches[b].state.BatchCommitted? || batches[b].digest.None? {
        return CandidatesRequired, items;
      }
      items := Recheck(checked, seen);
      var state := Rejected;
      if Tally(items, IsInconclusive) > 0 { state := Inconclusive; }
      if Tally(items, IsValidated) > 0 { state := Validated; }
      TallyMeans(items, IsValidated);
      TallyMeans(items, IsInconclusive);
      batches := batches[b := batches[b].(latest := Some(report), state := state)];
    }

    method CommitExtraction(w: Caller, b: Id, report: Id, published: nat) returns (e: Error)
      modifies this
      ensures e.NoError? <==> CanCommit(old(State()), w, b, report)
      ensures State() == Apply(old(State()), OfWorker(DoCommit(w, b, report, published)))
    {
      e := OpenTransaction(w);
      if !e.NoError? { return; }
      e := CheckBatch(w, b);
      if !e.NoError? { return; }
      if batches[b].latest != Some(report) || batches[b].digest.None? { return Superseded; }
      if published > 0 { batches := batches[b := batches[b].(state := BatchCommitted)]; }
      if w.job.Some? && !jobs[w.job.value].state.Committed? {
        var state := if published == 0 then Skipped else Committed;
        jobs := jobs[w.job.value := jobs[w.job.value].(state := state, reason := OtherReason)];
      }
    }

    /** Grants the batch's one round. On recovery a round that was granted before is resumed instead, if what the
        ledger tells of it is `resolved` and the report is still current. */
    method BeginProbe(w: Caller, b: Id, token: Id, doubts: nat, recovery: bool, resolved: bool, reportCurrent: bool)
      returns (e: Error, resumed: bool)
      modifies this
      ensures e.NoError? && !resumed <==>
              CanBeginProbe(old(State()), w, b, doubts)
                && (recovery ==> w.job.Some? && !HasOpenCalls(old(calls), w.job.value, b))
      ensures resumed <==> recovery && CanResumeProbe(old(State()), w, b) && resolved && reportCurrent && doubts > 0
      ensures resumed ==> e.NoError?
      ensures State() == if e.NoError? && !resumed then Apply(old(State()), OfWorker(DoBeginProbe(w, b, token, doubts)))
                         else old(State())
    {
      resumed := false;
      if recovery && w.job.None? { return PermissionDenied, false; }
      e := OpenTransaction(w);
      if !e.NoError? { return; }
      if !ProbeAllowed(runs[w.run].contract) { return ProbeLimit, false; }
      e := CheckBatch(w, b);
      if !e.NoError? { return; }
      if recovery && HasOpenCalls(calls, w.job.value, b) { return NeedsReconciliation, false; }
      if recovery && batches[b].rounds != 0 {
        if batches[b].rounds != 1 || batches[b].probeToken.None? || batches[b].latest.None?
           || batches[b].state.BatchCommitted? || !resolved || !reportCurrent || doubts == 0 {
          return NeedsReconciliation, false;
        }
        return NoError, true;
      }
      if batches[b].rounds != 0 || batches[b].latest.None? || batches[b].state.BatchCommitted? || doubts == 0 {
        return ProbeLimit, false;
      }
      batches := batches[b := batches[b].(rounds := 1, probeToken := Some(token))];
    }

    method OpenDocument(w: Caller, b: Id, token: Id) returns (e: Error)
      modifies this
      ensures e.NoError? <==> CanOpenInProbe(old(State()), w, b, token)
      ensures State() == Apply(old(State()), OfWorker(DoOpenInProbe(w, b, token)))
    {
      e := OpenTransaction(w);
      if !e.NoError? { return; }
      if !ProbeAllowed(runs[w.run].contract) { return ProbeLimit; }
      e := CheckBatch(w, b);
      if !e.NoError? { return; }
      if batches[b].probeToken != Some(token) || batches[b].rounds != 1 { return PermissionDenied; }
      if batches[b].tools >= 4 { return ProbeLimit; }
      batches := batches[b := batches[b].(tools := batches[b].tools + 1)];
    }

    /** Conclude or release a job. The ledger and the deadline outrank the worker's proposed label. */
    method FinishJob(w: Caller, requested: JobState, reason: JobReason) returns (e: Error)
      modifies this
      ensures e.NoError? <==> CanFinish(old(State()), w, requested)
      ensures State() == Apply(old(State()), OfWorker(DoFinish(w, requested, reason)))
    {
      if !requested.Skipped? && !requested.Failed? && !requested.OutcomeUnknown? && !requested.ResultReady? {
        return InvalidRequest;
      }
      if !w.valid || !ConnLive(State(), w.conn) || w.run !in runs || w.job.None? || w.job.value !in jobs {
        return PermissionDenied;
      }
      var j := w.job.value;
      var job := jobs[j];
      if job.run != w.run || job.owner != w.owner || job.token != w.token || w.token == 0 { return FenceRejected; }
      if Terminal(job.state) {
        return if job.state == requested then NoError else AlreadyTerminal;
      }
      var state, why := requested, reason;
      if HasOpenCalls(calls, j, job.batch) {
        state, why := OutcomeUnknown, OtherReason;
      }
      if state.ResultReady? {
        if job.digest.None? { return CandidatesRequired; }
        e := ValidateJob(w);
        if !e.NoError? { return; }
        if !w.current { return Stale; }
      } else if !state.OutcomeUnknown? && job.deadline <= now {
        state, why := Skipped, OtherReason;
      }
      if !LeaseInstanceActive(State(), job, w.conn) { return OwnerLost; }
      job := job.(state := state, reason := why);
      if state.ResultReady? {
        job := job.(owner := None, leaseUntil := None, token := job.token + 1);
      }
      jobs := jobs[j := job];
      return NoError;
    }

    /** Cancel a run's background work: every unfinished job ends under a new fence, and no worker of the run is
        left. */
    method CancelJobs(r: Id)
      modifies this
      ensures State() == Apply(old(State()), OfJob(DoCancelJobs(r)))
      ensures r in old(runs) ==> Withdrawn(old(State()), State(), r)
    {
      if r !in runs { return; }
      CancelRows(r);
      runs := runs[r := runs[r].(cancelRequested := true)];
      CancelledIsWithdrawn(old(State()), r);
    }

    /** Job by job: revoke the lease, raise the fence, and label the job by its open calls. */
    method CancelRows(r: Id)
      requires r in runs
      modifies this`jobs
      ensures jobs == Jobs.CancelJobs(old(State()), r).jobs
    {
      ghost var start := jobs;
      var pending := UnfinishedOf(jobs, r);
      while pending != {}
        invariant pending <= UnfinishedOf(start, r) && jobs.Keys == start.Keys
        invariant forall j ::
                    j in start ==>
                      jobs[j]
                        == if j in UnfinishedOf(start, r) - pending then CancelledJob(calls, j, start[j]) else start[j]
        decreases |pending|
      {
        var j :| j in pending;
        var job := jobs[j];
        var state := Skipped;
        if HasOpenCalls(calls, j, job.batch) { state := OutcomeUnknown; }
        jobs := jobs[j := job.(cancelled := true, state := state, reason := OtherReason, owner := None,
                               leaseUntil := None, token := job.token + 1)];
        pending := pending - {j};
      }
    }

    /** The public cancellation ends the run too. */
    method CancelQuery(r: Id)
      modifies this
      ensures State() == Apply(old(State()), OfJob(DoCancelQuery(r)))
      ensures r in old(runs) ==>
                Withdrawn(old(State()), State(), r) && !runs[r].state.Queued? && !runs[r].state.RunRunning?
    {
      if r !in runs { return; }
      StopRows(r);
      runs := runs[r := runs[r].(cancelRequested := true)];
      if runs[r].state.Queued? || runs[r].state.RunRunning? {
        runs := runs[r := runs[r].(state := Cancelled)];
      }
      StoppedIsWithdrawn(old(State()), r);
    }

    /** It looks only at calls that carry the job's own id, and leaves the lease columns. */
    method StopRows(r: Id)
      requires r in runs
      modifies this`jobs
      ensures jobs == Jobs.CancelQuery(old(State()), r).jobs
    {
      ghost var start := jobs;
      var pending := UnfinishedOf(jobs, r);
      while pending != {}
        invariant pending <= UnfinishedOf(start, r) && jobs.Keys == start.Keys
        invariant forall j ::
                    j in start ==>
                      jobs[j]
                        == if j in UnfinishedOf(start, r) - pending then StoppedJob(calls, j, start[j]) else start[j]
        decreases |pending|
      {
        var j :| j in pending;
        var job := jobs[j];
        var state := Skipped;
        if exists i :: 0 <= i < |calls| && calls[i].job == Some(j) && !calls[i].state.Settled? {
          state := OutcomeUnknown;
        }
        jobs := jobs[j := job.(cancelled := true, state := state, reason := OtherReason, token := job.token + 1)];
        pending := pending - {j};
      }
    }

    // ------------------------------------------------------------------- recovery

    /** Give up the reserved calls of some kind, row by row; they keep their reserve and their place in the count. An
        experiment is then halted exactly if it was, or has an UNKNOWN paid call in scope. */
    method MarkUnresolved(lost: Call -> bool, scope: Call -> bool)
      modifies this`calls, this`budgets
      ensures State() == MarkLost(old(State()), lost, scope)
      ensures |calls| == |old(calls)|
      ensures forall i :: 0 <= i < |calls| ==> GivenUp(old(calls)[i], calls[i], lost)
      ensures forall e :: HaltedFor(old(budgets).Get(e), budgets.Get(e), UnknownInScope(calls, scope, e))
    {
      GiveUpRows(lost);
      assert calls == MarkLost(old(State()), lost, scope).calls;
      HaltForUnknown(scope);
    }

    method GiveUpRows(lost: Call -> bool)
      modifies this`calls
      ensures |calls| == |old(calls)| && forall i :: 0 <= i < |calls| ==> GivenUp(old(calls)[i], calls[i], lost)
    {
      ghost var start := calls;
      for n := 0 to |calls|
        invariant |calls| == |start|
        invariant forall i ::
                    0 <= i < |start| ==> if i < n then GivenUp(start[i], calls[i], lost) else calls[i] == start[i]
      {
        if lost(calls[n]) && calls[n].state.Reserved? {
          calls := calls[n := calls[n].(state := Unknown)];
        }
      }
    }

    method HaltForUnknown(scope: Call -> bool)
      modifies this`budgets
      ensures budgets
                == Budgets(HaltLost(calls, scope, M1, old(budgets).m1), HaltLost(calls, scope, M2, old(budgets).m2),
                           HaltLost(calls, scope, M3, old(budgets).m3))
      ensures forall e :: HaltedFor(old(budgets).Get(e), budgets.Get(e), UnknownInScope(calls, scope, e))
    {
      var unknown: set<Experiment> := {};
      for n := 0 to |calls|
        invariant forall e :: e in unknown
                    <==> exists i ::
                           0 <= i < n && scope(calls[i]) && Paid(calls[i]) && calls[i].state.Unknown?
                             && calls[i].experiment == e
        invariant budgets == old(budgets)
      {
        if scope(calls[n]) && Paid(calls[n]) && calls[n].state.Unknown? { unknown := unknown + {calls[n].experiment}; }
      }
      if M1 in unknown && budgets.m1.halted.None? { budgets := budgets.(m1 := budgets.m1.(halted := Some(OwnerLoss))); }
      if M2 in unknown && budgets.m2.halted.None? { budgets := budgets.(m2 := budgets.m2.(halted := Some(OwnerLoss))); }
      if M3 in unknown && budgets.m3.halted.None? { budgets := budgets.(m3 := budgets.m3.(halted := Some(OwnerLoss))); }
    }

    /** Recover one job whose worker is gone. */
    method RecoverJobLease(j: Id)
      requires RecoveryDue(State(), j)
      modifies this
      ensures State() == RecoverJob(old(State()), j)
    {
      var job := jobs[j];
      var b := job.batch;
      MarkUnresolved(TouchedBy(j, b), TouchedBy(j, b));
      var attempted, uncertain, saved := Touched(calls, j, b), HasOpenCalls(calls, j, b), AnySaved(calls, j, b);
      if saved {
        var raw := RecordedExtraction(j);
        saved := raw != "";
      }
      var state, reason := WaitingPrefix, AwaitingRecovery;
      if !recovery { state, reason := Skipped, OtherReason; }
      if job.digest.Some? { state, reason := ResultReady, AwaitingRecovery; }
      if uncertain || (job.digest.None? && attempted && !saved) { state, reason := OutcomeUnknown, OtherReason; }
      if saved && job.digest.None? && !uncertain && recovery { state, reason := WaitingPrefix, AwaitingRecovery; }
      jobs := jobs[j := job.(state := state, reason := reason, owner := None, leaseUntil := None, instance := None,
                             token := job.token + 1)];
    }

    /** Every due job of one run, except rows locked elsewhere, is recovered once. */
    method RecoverJobsOf(r: Id, locked: set<Id>) returns (order: seq<Id>)
      modifies this
      ensures SweptBy(old(State()), State(), order)
      ensures forall j :: j in order <==> RecoveryDue(old(State()), j) && old(jobs)[j].run == r && j !in locked
    {
      ghost var start := State();
      var pending := set j | j in jobs && jobs[j].run == r && j !in locked && RecoveryDue(State(), j);
      ghost var due := pending;
      order := [];
      while pending != {}
        invariant SweptBy(start, State(), order)
        invariant pending <= due && forall j :: j in order <==> j in due && j !in pending
        decreases |pending|
      {
        var j :| j in pending;
        SweptKeepsDue(start, State(), order, j);
        ghost var before := State();
        RecoverJobLease(j);
        RecoveredNext(start, order, j, before, State());
        order, pending := order + [j], pending - {j};
      }
    }

    /** The sweep over interrupted and abandoned work of the selected runs. It leaves every job of a live worker alone,
        and takes every other job that has a worker. */
    method RecoverJobLeases(picked: seq<Id>, locked: set<Id>) returns (order: seq<Id>)
      modifies this
      ensures State() == After(old(State()), Recoveries(order)) && SweptCalls(old(State()), State(), order)
      ensures forall j :: j in order <==> RecoveryDue(old(State()), j) && old(jobs)[j].run in picked && j !in locked
      ensures forall j :: HeldByLive(old(State()), j) ==> j !in order && j in jobs && jobs[j] == old(jobs)[j]
      ensures forall j :: Deserted(old(State()), j) && old(jobs)[j].run in old(runs) && old(jobs)[j].run in picked
                          && j !in locked ==>
                j in order && j in jobs && jobs[j].owner.None? && jobs[j].token == old(jobs)[j].token + 1
    {
      order := RecoverRuns(picked, locked);
      SweepIsExact(old(State()), State(), order, picked, locked);
    }

    /** Run after run. */
    method RecoverRuns(picked: seq<Id>, locked: set<Id>) returns (order: seq<Id>)
      modifies this
      ensures SweptBy(old(State()), State(), order)
      ensures forall j :: j in order <==> RecoveryDue(old(State()), j) && old(jobs)[j].run in picked && j !in locked
    {
      ghost var start := State();
      order := [];
      for n := 0 to |picked|
        invariant SweptBy(start, State(), order)
        invariant forall j :: j in order <==> RecoveryDue(start, j) && start.jobs[j].run in picked[..n] && j !in locked
      {
        ghost var before := State();
        var more := RecoverJobsOf(picked[n], locked);
        SweptAreNotDue(start, before, order);
        SweepsCompose(start, order, more, before, State());
        SweepsCover(start, order, more, before, State(), picked, n, locked);
        order := order + more;
      }
      assert picked[..|picked|] == picked;
    }

    /** End one job whose time, run or identity is over; its open calls are given up first. */
    method TerminateJobRow(j: Id, stale: bool)
      requires TerminationDue(State(), j, stale)
      modifies this
      ensures State() == TerminateJob(old(State()), j)
    {
      var job := jobs[j];
      var state := Skipped;
      if HasOpenCalls(calls, j, job.batch) {
        state := OutcomeUnknown;
        MarkUnresolved(RunTouchedBy(job.run, j, job.batch), RunTouchedBy(job.run, j, job.batch));
      }
      jobs := jobs[j := job.(state := state, reason := OtherReason, owner := None, leaseUntil := None,
                             token := job.token + 1,
                             cancelled := job.cancelled || runs[job.run].cancelRequested)];
    }

    /** Recovery that cannot run this job's configuration gives it up, unless a worker still holds it. */
    method FailRecoveryOf(j: Id) returns (pending: bool)
      modifies this
      ensures pending
              <==> j in old(jobs) && !Terminal(old(jobs)[j].state) && old(jobs)[j].leaseUntil.Some?
                   && now < old(jobs)[j].leaseUntil.value
      ensures State() == Apply(old(State()), OfJob(DoFailRecovery(j)))
    {
      if j !in jobs || Terminal(jobs[j].state) { return false; }
      var job := jobs[j];
      if job.leaseUntil.Some? && now < job.leaseUntil.value { return true; }
      var state := Failed;
      if HasOpenCalls(calls, j, job.batch) { state := OutcomeUnknown; }
      jobs := jobs[j := job.(state := state, reason := OtherReason, owner := None, leaseUntil := None, instance := None,
                             token := job.token + 1)];
      return false;
    }

    /** A late heartbeat cannot revive an expired process. */
    method HeartbeatInstance(i: Id, ttl: nat) returns (alive: bool)
      modifies this`instances
      ensures alive <==> Live(old(State()), i)
      ensures State() == Apply(old(State()), OfRun(DoHeartbeat(i, ttl)))
    {
      alive := i in instances && !instances[i].stopped && now < instances[i].leaseUntil;
      if alive {
        instances := instances[i := instances[i].(leaseUntil := now + ttl)];
      }
    }

    /** Interrupt, one by one, the open runs whose process has stopped. */
    method InterruptLostRuns()
      modifies this`runs
      ensures runs == InterruptedRuns(old(runs), instances)
    {
      ghost var start := runs;
      var lost := set r | r in runs && (runs[r].state.Queued? || runs[r].state.RunRunning?)
                    && OwnerStopped(instances, runs[r].owner);
      ghost var all := lost;
      while lost != {}
        invariant lost <= all && runs.Keys == start.Keys
        invariant forall r ::
                    r in start ==>
                      runs[r] == if r in all && r !in lost then start[r].(state := Interrupted) else start[r]
        decreases |lost|
      {
        var r :| r in lost;
        runs := runs[r := runs[r].(state := Interrupted)];
        lost := lost - {r};
      }
    }

    /** Stop expired processes, interrupt the runs they owned, and give up their calls. */
    method RecoverOwnedWork()
      modifies this
      ensures State() == SweepOwners(old(State()))
    {
      instances := map i | i in instances ::
                     if instances[i].leaseUntil <= now then instances[i].(stopped := true) else instances[i];
      InterruptLostRuns();
      MarkUnresolved(OwnedByStopped(instances), Anything());
    }

    /** End a run: its answer is kept only if it was validated in time and nobody cancelled it. */
    method FinishForeground(r: Id, answered: bool, late: bool) returns (done: bool)
      modifies this
      ensures done <==> CanFinishRun(old(State()), r, conn)
      ensures State() == Apply(old(State()), OfRun(DoFinishRun(r, conn, answered, late)))
    {
      if r !in runs || (!runs[r].state.RunRunning? && !runs[r].state.Queued?) { return false; }
      if runs[r].owner != conn || !ConnLive(State(), conn) { return false; }
      var state := Completed;
      if !answered { state := RunFailed; }
      if late || runs[r].deadline <= now { state := TimedOut; }
      if runs[r].cancelRequested { state := Cancelled; }
      runs := runs[r := runs[r].(state := state)];
      MarkUnresolved(ForegroundOf(r), ForegroundOf(r));
      return true;
    }
  }

  // ------------------------------------------------------------ what is withdrawn

  function UnfinishedOf(jobs: map<Id, Job>, r: Id): set<Id> {
    set j | j in jobs && jobs[j].run == r && !Terminal(jobs[j].state)
  }

  /** Every unfinished job of the run has ended under a new fence, all other jobs are as they were, and whatever
      capability a worker of the run still has is void. */
  ghost predicate Withdrawn(db: Db, after: Db, r: Id) {
    && after.jobs.Keys == db.jobs.Keys && after.calls == db.calls && after.budgets == db.budgets
    && (forall j :: j in db.jobs ==> EndedOrKept(db.jobs[j], after.jobs[j], j in UnfinishedOf(db.jobs, r)))
    && (forall w: Caller :: w.run == r ==> !HoldsJob(after, w))
  }

  predicate EndedOrKept(was: Job, job: Job, ended: bool) {
    if ended then (job.state.Skipped? || job.state.OutcomeUnknown?) && job.cancelled && job.token == was.token + 1
      else job == was
  }

  lemma CancelledIsWithdrawn(db: Db, r: Id)
    requires r in db.runs
    ensures Withdrawn(db, CancelJobs(db, r), r)
  {
  }

  lemma StoppedIsWithdrawn(db: Db, r: Id)
    requires r in db.runs
    ensures Withdrawn(db, CancelQuery(db, r), r)
  {
  }

  /** The row after the mark: a lost reserved call is UNKNOWN and otherwise unchanged, and so is every other row. */
  predicate GivenUp(was: Call, c: Call, lost: Call -> bool) {
    c == (if was.state.Reserved? && lost(was) then was.(state := Unknown) else was)
  }

  predicate UnknownInScope(calls: seq<Call>, scope: Call -> bool, e: Experiment) {
    exists i ::
      0 <= i < |calls| && scope(calls[i]) && Paid(calls[i]) && calls[i].state.Unknown? && calls[i].experiment == e
  }

  /** Money, counts and caps stay; a halt stays, and is added if there is a reason. */
  predicate HaltedFor(was: Budget, b: Budget, reason: bool) {
    b == was.(halted := b.halted) && (b.halted.Some? <==> was.halted.Some? || reason)
      && (was.halted.Some? ==> b.halted == was.halted)
  }

  // -------------------------------------------------------------------- validation

  datatype ItemStatus = IsValidated | IsInconclusive | IsRejected

  /** A source region and the hash of what was observed of it. */
  datatype Snapshot = Snapshot(region: Id, observation: Id)

  datatype CheckedItem = CheckedItem(status: ItemStatus, source: Option<Snapshot>)

  /** An observation of the candidate's region that is not the region's present one. An unreadable one says nothing. */
  predicate Contradicts(x: CheckedItem, o: Option<Snapshot>) {
    o.Some? && x.source.Some? && o.value.region == x.source.value.region
      && o.value.observation != x.source.value.observation
  }

  /** Observations are evidence, not authority: one that contradicts a candidate's source rejects the candidate, and
      no observation improves an outcome. */
  ghost predicate Rechecked(checked: seq<CheckedItem>, seen: seq<Option<Snapshot>>, items: seq<CheckedItem>) {
    && |items| == |checked|
    && forall i :: 0 <= i < |items| ==>
         && items[i].source == checked[i].source
         && items[i].status == if (exists o :: o in seen && Contradicts(checked[i], o)) then IsRejected
                               else checked[i].status
  }

  method Recheck(checked: seq<CheckedItem>, seen: seq<Option<Snapshot>>) returns (items: seq<CheckedItem>)
    ensures Rechecked(checked, seen, items)
  {
    items := [];
    for i := 0 to |checked|
      invariant Rechecked(checked[..i], seen, items)
    {
      var x := checked[i];
      if x.source.Some? && !x.status.IsRejected? {
        for k := 0 to |seen|
          invariant x == checked[i] && forall o :: o in seen[..k] ==> !Contradicts(x, o)
        {
          if Contradicts(x, seen[k]) {
            x := x.(status := IsRejected);
            break;
          }
        }
      }
      items := items + [x];
    }
    assert checked[..|checked|] == checked;
  }

  function Tally(items: seq<CheckedItem>, s: ItemStatus): nat {
    if items == [] then 0 else Tally(items[1..], s) + if items[0].status == s then 1 else 0
  }

  lemma {:induction false} TallyMeans(items: seq<CheckedItem>, s: ItemStatus)
    ensures Tally(items, s) > 0 <==> exists x :: x in items && x.status == s
  {
    if items != [] {
      TallyMeans(items[1..], s);
      if x :| x in items && x.status == s {
        assert x == items[0] || x in items[1..];
      }
    }
  }

  // ------------------------------------------------------------------- the sweep

  function Recoveries(order: seq<Id>): seq<Step> {
    if order == [] then [] else Recoveries(order[..|order| - 1]) + [OfJob(DoRecover(order[|order| - 1]))]
  }

  /** What recovery leaves of a job: over, or waiting to be claimed again. */
  predicate Rested(j: Job) { j.owner.None? && (Terminal(j.state) || j.reason.AwaitingRecovery?) }

  /** Only the jobs already swept, their calls and the budgets have moved; each swept job has a new fence and nobody
      holds it. */
  ghost predicate Swept(start: Db, db: Db, order: seq<Id>) {
    && db.now == start.now && db.runs == start.runs && db.instances == start.instances
    && db.jobs.Keys == start.jobs.Keys
    && (forall j :: j in db.jobs && j !in order ==> db.jobs[j] == start.jobs[j])
    && (forall j :: j in order ==> j in db.jobs && Rested(db.jobs[j]) && db.jobs[j].batch == start.jobs[j].batch
                                   && db.jobs[j].token == start.jobs[j].token + 1)
  }

  /** A reserved call that names a swept job or its batch has become UNKNOWN, and no other call has changed. */
  predicate SweptCall(start: Db, order: seq<Id>, was: Call, c: Call) {
    if was.state.Reserved? && Names(start, order, was) then c == was.(state := Unknown) else c == was
  }

  predicate Names(start: Db, order: seq<Id>, c: Call) {
    exists k :: k in order && k in start.jobs && (c.job == Some(k) || c.batch == Some(start.jobs[k].batch))
  }

  ghost predicate SweptCalls(start: Db, db: Db, order: seq<Id>) {
    |db.calls| == |start.calls|
    && forall i :: 0 <= i < |db.calls| ==> SweptCall(start, order, start.calls[i], db.calls[i])
  }

  lemma SweptCallsNext(start: Db, before: Db, order: seq<Id>, j: Id)
    requires SweptCalls(start, before, order) && j in start.jobs && j in before.jobs
             && before.jobs[j].batch == start.jobs[j].batch
    ensures SweptCalls(start, RecoverJob(before, j), order + [j])
  {
    var db := RecoverJob(before, j);
    forall i | 0 <= i < |db.calls| ensures SweptCall(start, order + [j], start.calls[i], db.calls[i]) {
      assert SweptCall(start, order, start.calls[i], before.calls[i]);
      NamesNext(start, order, j, start.calls[i]);
    }
  }

  lemma NamesNext(start: Db, order: seq<Id>, j: Id, c: Call)
    requires j in start.jobs
    ensures Names(start, order + [j], c)
            <==> Names(start, order, c) || c.job == Some(j) || c.batch == Some(start.jobs[j].batch)
  {
    assert j in order + [j];
  }

  lemma SweptCallsCompose(start: Db, before: Db, after: Db, order: seq<Id>, more: seq<Id>)
    requires SweptCalls(start, before, order) && SweptCalls(before, after, more)
    requires Swept(start, before, order)
    ensures SweptCalls(start, after, order + more)
  {
    forall i | 0 <= i < |after.calls| ensures SweptCall(start, order + more, start.calls[i], after.calls[i]) {
      assert SweptCall(start, order, start.calls[i], before.calls[i]);
      assert SweptCall(before, more, before.calls[i], after.calls[i]);
      NamesCompose(start, before, order, more, start.calls[i], before.calls[i]);
    }
  }

  lemma NamesCompose(start: Db, before: Db, order: seq<Id>, more: seq<Id>, was: Call, c: Call)
    requires Swept(start, before, order) && c.job == was.job && c.batch == was.batch
    ensures Names(start, order + more, was) <==> Names(start, order, was) || Names(before, more, c)
  {
    if k :| k in more && k in before.jobs && (c.job == Some(k) || c.batch == Some(before.jobs[k].batch)) {
      assert k in order + more && before.jobs[k].batch == start.jobs[k].batch;
    }
    if k :| k in order && k in start.jobs && (was.job == Some(k) || was.batch == Some(start.jobs[k].batch)) {
      assert k in order + more;
    }
    if k :| k in order + more && k in start.jobs && (was.job == Some(k) || was.batch == Some(start.jobs[k].batch)) {
      assert k in order || (k in more && before.jobs[k].batch == start.jobs[k].batch);
    }
  }

  lemma SweptKeepsDue(start: Db, db: Db, order: seq<Id>, j: Id)
    requires Swept(start, db, order) && j !in order
    ensures RecoveryDue(db, j) <==> RecoveryDue(start, j)
  {
  }

  lemma SweptAreNotDue(start: Db, db: Db, order: seq<Id>)
    requires Swept(start, db, order)
    ensures forall j :: j in order ==> !RecoveryDue(db, j)
  {
  }

  /** A job's call never carries another job's batch. */
  lemma BatchIsItsJobs(db: Db, i: nat, j: Id, k: Id)
    requires Sound(db) && i < |db.calls| && db.calls[i].job == Some(j) && k in db.jobs && k != j
    ensures db.calls[i].batch != Some(db.jobs[k].batch)
  {
    assert JobLaws.CallOk(db, db.calls[i]) && JobLaws.JobOk(db, k);
    assert JobLaws.JobOk(db, j);
  }

  /** The sweep gives up no call of a job that it does not sweep: only that job's own row could name it. */
  lemma CallsOfOthersStay(start: Db, db: Db, order: seq<Id>, j: Id, i: nat)
    requires Sound(start) && SweptCalls(start, db, order) && j !in order && i < |start.calls|
             && start.calls[i].job == Some(j)
    ensures db.calls[i] == start.calls[i]
  {
    NotNamed(start, order, j, i);
    assert SweptCall(start, order, start.calls[i], db.calls[i]);
  }

  lemma NotNamed(start: Db, order: seq<Id>, j: Id, i: nat)
    requires Sound(start) && j !in order && i < |start.calls| && start.calls[i].job == Some(j)
    ensures !Names(start, order, start.calls[i])
  {
    forall k | k in order && k in start.jobs ensures start.calls[i].batch != Some(start.jobs[k].batch) {
      BatchIsItsJobs(start, i, j, k);
    }
  }

  /** Live work is left alone and deserted work taken. */
  lemma SweepIsExact(start: Db, db: Db, order: seq<Id>, picked: seq<Id>, locked: set<Id>)
    requires Swept(start, db, order)
    requires forall j :: j in order <==> RecoveryDue(start, j) && start.jobs[j].run in picked && j !in locked
    ensures forall j :: HeldByLive(start, j) ==> j !in order && j in db.jobs && db.jobs[j] == start.jobs[j]
    ensures forall j :: Deserted(start, j) && start.jobs[j].run in start.runs && start.jobs[j].run in picked
                        && j !in locked ==>
              j in order && j in db.jobs && db.jobs[j].owner.None? && db.jobs[j].token == start.jobs[j].token + 1
  {
    forall j | HeldByLive(start, j) ensures j !in order { LiveWorkIsNotDue(start, j); }
    forall j | Deserted(start, j) && start.jobs[j].run in start.runs && start.jobs[j].run in picked && j !in locked
      ensures j in order
    {
      DesertedWorkIsDue(start, j);
    }
  }

  lemma {:induction false} RecoveriesAppend(a: seq<Id>, b: seq<Id>)
    ensures Recoveries(a + b) == Recoveries(a) + Recoveries(b)
  {
    if b == [] {
      assert a + b == a;
    } else {
      assert (a + b)[..|a + b| - 1] == a + b[..|b| - 1];
      RecoveriesAppend(a, b[..|b| - 1]);
    }
  }

  /** The state is what recovering these jobs one after the other makes of the start. */
  ghost predicate SweptBy(start: Db, db: Db, order: seq<Id>) {
    db == After(start, Recoveries(order)) && Swept(start, db, order) && SweptCalls(start, db, order)
  }

  lemma SweepsCompose(start: Db, order: seq<Id>, more: seq<Id>, before: Db, after: Db)
    requires SweptBy(start, before, order) && SweptBy(before, after, more) && forall j :: j in more ==> j !in order
    ensures SweptBy(start, after, order + more)
  {
    RecoveriesAppend(order, more);
    AfterAppend(start, Recoveries(order), Recoveries(more));
    SweptCallsCompose(start, before, after, order, more);
    RowsCompose(start, order, more, before, after);
  }

  lemma RowsCompose(start: Db, order: seq<Id>, more: seq<Id>, before: Db, after: Db)
    requires Swept(start, before, order) && Swept(before, after, more) && forall j :: j in more ==> j !in order
    ensures Swept(start, after, order + more)
  {
  }

  lemma SweepsCover(start: Db, order: seq<Id>, more: seq<Id>, before: Db, after: Db, picked: seq<Id>, n: nat,
                    locked: set<Id>)
    requires Swept(start, before, order) && Swept(before, after, more) && n < |picked|
    requires forall j :: j in order <==> RecoveryDue(start, j) && start.jobs[j].run in picked[..n] && j !in locked
    requires forall j :: j in more <==> RecoveryDue(before, j) && before.jobs[j].run == picked[n] && j !in locked
    ensures forall j :: j in order + more
              <==> RecoveryDue(start, j) && start.jobs[j].run in picked[..n + 1] && j !in locked
  {
    assert picked[..n + 1] == picked[..n] + [picked[n]];
    forall j ensures RecoveryDue(before, j) <==> RecoveryDue(start, j) && j !in order {
      if j !in order { SweptKeepsDue(start, before, order, j); }
    }
  }

  lemma SweptNext(start: Db, before: Db, order: seq<Id>, j: Id)
    requires Swept(start, before, order) && RecoveryDue(before, j)
    ensures Swept(start, RecoverJob(before, j), order + [j])
  {
  }

  lemma RecoveredNext(start: Db, order: seq<Id>, j: Id, before: Db, db: Db)
    requires SweptBy(start, before, order) && RecoveryDue(before, j) && db == RecoverJob(before, j)
    ensures SweptBy(start, db, order + [j])
  {
    SweptNext(start, before, order, j);
    SweptCallsNext(start, before, order, j);
    RecoveredIsNext(start, order, j, before, db);
  }

  lemma RecoveredIsNext(start: Db, order: seq<Id>, j: Id, before: Db, db: Db)
    requires before == After(start, Recoveries(order)) && RecoveryDue(before, j) && db == RecoverJob(before, j)
    ensures db == After(start, Recoveries(order + [j]))
  {
    var step := OfJob(DoRecover(j));
    assert (order + [j])[..|order|] == order;
    AfterAppend(start, Recoveries(order), [step]);
    assert After(before, [step]) == Apply(before, step);
  }
}
