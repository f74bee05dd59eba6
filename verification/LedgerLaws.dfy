/** What every step of the ledger keeps: conservation between rows and budgets, the nested limits,
    the exact meaning of a halt, and the request lanes. */
module LedgerLaws {
  import opened Types
  import opened Tariff
  import opened Table
  import opened Ledger

  // ------------------------------------------------------------------ invariants

  predicate RowOk(db: Db, c: Call) {
    && c.run in db.runs && c.experiment == ExperimentFor(db.runs[c.run].contract)
    && (c.experiment.M3? ==> StageLimitsValid(db.runs[c.run].contract) && c.sub == db.runs[c.run].contract.sub)
    && (c.job.Some? ==> c.job.value in db.jobs && db.jobs[c.job.value].run == c.run)
    && (c.amount.Some? <==> Paid(c) && c.state.Settled?)
    && (c.state.Reserved? ==> c.record.None?)
    && (!c.state.Settled? ==> c.receivedAt.None?)
    && (c.state.Unknown? && c.record.Some? ==> !ProvesNotDispatched(c.record.value, c.experiment))
    && (c.experiment.M3? && c.state.Unknown? && c.record.Some? ==> Unpriceable(db, c, c.record.value))
    && (Paid(c) ==> LimitOfCall(db, c).Some? && c.upper == ColdUpper(c.payload.bytes, LimitOfCall(db, c).value as int))
  }

  /** No tariff evidence can be read from this record. */
  predicate Unpriceable(db: Db, c: Call, r: Record) {
    var limit := LimitOfCall(db, c);
    limit.None? || VerifiedCost(r, limit.value).None?
  }

  ghost predicate RowsOk(db: Db) {
    && (forall i :: 0 <= i < |db.calls| ==> RowOk(db, db.calls[i]))
    && (forall i, j :: 0 <= i < j < |db.calls| ==> db.calls[i].attempt != db.calls[j].attempt)
  }

  /** Every budget row is exactly the sum of its calls. */
  predicate Conserved(db: Db, e: Experiment) {
    var b := db.budgets.Get(e);
    && b.reserved == Total(db.calls, HeldOf(e))
    && b.known == Total(db.calls, KnownOf(e))
    && b.attempted == Count(db, PaidIn(e))
  }

  /** The limit that stands for a group at all times, whoever asks. */
  ghost function StandingLimit(db: Db, g: Group): Limit {
    match g
    case RunAll(run) =>
      if run in db.runs then Limit(Some(db.runs[run].contract.costBudget), Some(db.runs[run].contract.maxModelCalls))
        else Limit(None, None)
    case RunForeground(run) =>
      if StagedRun(db, run) then
        Limit(None,
              Some(NarrowCount(db.runs[run].contract.maxForeground,
                               PolicyOf(db.runs[run].contract).value.maxForeground)))
      else Limit(None, None)
    case RunBackground(run) => if StagedRun(db, run) then BackgroundLimit(db.runs[run].contract) else Limit(None, None)
    case RunProbe(run) => if StagedRun(db, run) then ProbeLimit(db.runs[run].contract) else Limit(None, None)
    case JobAll(job) =>
      if job in db.jobs && StagedRun(db, db.jobs[job].run) then BackgroundLimit(db.runs[db.jobs[job].run].contract)
        else Limit(None, None)
    case JobProbe(job) =>
      if job in db.jobs && StagedRun(db, db.jobs[job].run) then ProbeLimit(db.runs[db.jobs[job].run].contract)
        else Limit(None, None)
    case PaidIn(e) => Limit(Some(db.budgets.Get(e).cap), Some(db.budgets.Get(e).maxRequests))
    case PaidProbe(e) => Limit(Some(if e.M3? then 10 * YUAN else YUAN / 10), None)
    case PaidSub(s) => if SubexperimentRow(s).Some? then SubexperimentRow(s).value else Limit(None, None)
    case InSession(d) => SessionLimit(db, d)
    case Project => if ReleasedLast(db) then Limit(Some(100 * YUAN - db.opening), None) else Limit(None, None)
  }

  ghost predicate StagedRun(db: Db, run: Id) {
    run in db.runs && db.runs[run].contract.m3 && StageLimitsValid(db.runs[run].contract)
  }

  predicate LastPaid(calls: seq<Call>, i: nat) {
    i < |calls| && Paid(calls[i]) && forall k :: i < k < |calls| ==> !Paid(calls[k])
  }

  /** The latest paid call was admitted under a live release session, which checked the whole project. */
  ghost predicate ReleasedLast(db: Db) {
    forall i :: 0 <= i < |db.calls| && LastPaid(db.calls, i) ==> db.calls[i].session.Some?
  }

  /** What a group's calls were foreseen to cost stays within its limit, and so does their number. */
  predicate Within(db: Db, g: Group, limit: Limit) {
    Count(db, g) > 0 ==>
      && (limit.money.Some? ==> Total(db.calls, ForeseenOf(g)) <= limit.money.value)
      && (limit.count.Some? ==> Count(db, g) <= limit.count.value)
  }

  ghost predicate AllWithin(db: Db) {
    forall g :: Within(db, g, StandingLimit(db, g))
  }

  /** An experiment is halted exactly while one of its paid calls is unknown or over its reservation. */
  predicate HaltExact(db: Db, e: Experiment) {
    var h := db.budgets.Get(e).halted;
    && (h.Some? <==> AnyStuck(db.calls, e))
    && (h == Some(CostExceededReservation) ==> AnyOvershoot(db.calls, e))
  }

  predicate AnyOvershoot(calls: seq<Call>, e: Experiment) {
    exists i :: 0 <= i < |calls| && Paid(calls[i]) && calls[i].experiment == e && Overshoots(calls[i])
  }

  predicate LanesExclusive(db: Db) {
    Lane(db, Deepseek, true) <= 1 && Lane(db, Deepseek, false) <= 1
  }

  function PendingOf(e: Experiment): Call -> nat {
    (c: Call) => if Member(PaidIn(e), c) && (!c.state.Settled? || Overshoots(c)) then 1 else 0
  }

  /** The two earlier experiments never have two open paid calls. */
  predicate Serial(db: Db) {
    Total(db.calls, PendingOf(M1)) <= 1 && Total(db.calls, PendingOf(M2)) <= 1
  }

  ghost predicate LedgerInv(db: Db) {
    && RowsOk(db) && AllWithin(db) && LanesExclusive(db) && Serial(db)
    && (forall e :: Conserved(db, e)) && (forall e :: HaltExact(db, e))
  }

  // --------------------------------------------------------------- reading a row

  /** Known plus reserved is what the experiment's calls occupy. */
  lemma BudgetIsOccupied(db: Db, e: Experiment)
    requires RowsOk(db) && Conserved(db, e)
    ensures db.budgets.Get(e).known + db.budgets.Get(e).reserved == Spent(db, PaidIn(e))
  {
    TotalSplit(db.calls, OccupiedOf(PaidIn(e)), KnownOf(e), HeldOf(e));
  }

  lemma OccupiedSplits(db: Db, g: Group)
    ensures Spent(db, g) == Total(db.calls, ForeseenOf(g)) + Total(db.calls, OvershootOf(g))
  {
    TotalSplit(db.calls, OccupiedOf(g), ForeseenOf(g), OvershootOf(g));
  }

  lemma CountPositive(db: Db, g: Group)
    ensures Count(db, g) > 0 <==> exists i :: 0 <= i < |db.calls| && Member(g, db.calls[i])
  {
    TotalPositive(db.calls, CountOf(g));
  }

  /** The spend bound: an experiment never occupies more than its cap plus the summed overshoot. */
  lemma SpendBound(db: Db, e: Experiment)
    requires LedgerInv(db)
    ensures db.budgets.Get(e).known + db.budgets.Get(e).reserved
         <= db.budgets.Get(e).cap + Total(db.calls, OvershootOf(PaidIn(e)))
  {
    var g := PaidIn(e);
    assert Conserved(db, e);
    BudgetIsOccupied(db, e);
    OccupiedSplits(db, g);
    assert Within(db, g, StandingLimit(db, g));
    if Count(db, g) == 0 {
      NothingForeseen(db, g);
    }
  }

  lemma NothingForeseen(db: Db, g: Group)
    requires Count(db, g) == 0
    ensures Total(db.calls, ForeseenOf(g)) == 0
  {
    CountPositive(db, g);
    TotalPositive(db.calls, ForeseenOf(g));
  }

  // -------------------------------------------------- one admission, every limit

  /** The limit that admission applies to each group the new call joins. */
  function LimitAt(db: Db, k: Contract, c: Call, g: Group): Limit {
    var none := Limit(None, None);
    if k.m3 && PolicyOf(k).None? then none else
    match g
    case RunAll(_) => Limit(Some(k.costBudget), Some(k.maxModelCalls))
    case RunForeground(_) =>
      if k.m3 then Limit(None, Some(NarrowCount(k.maxForeground, PolicyOf(k).value.maxForeground))) else none
    case RunBackground(_) => if k.m3 then BackgroundLimit(k) else none
    case JobAll(_) => if k.m3 then BackgroundLimit(k) else none
    case RunProbe(_) => if k.m3 then ProbeLimit(k) else none
    case JobProbe(_) => if k.m3 then ProbeLimit(k) else none
    case PaidIn(e) =>
      var b := db.budgets.Get(e);
      if k.m3
        then Limit(Some(Min(b.cap, PolicyOf(k).value.globalCap)),
                   Some(Min(b.maxRequests, PolicyOf(k).value.maxRequests)))
      else Limit(Some(b.cap), Some(b.maxRequests))
    case PaidProbe(_) => Limit(Some(if k.m3 then PolicyOf(k).value.globalProbeCap else YUAN / 10), None)
    case PaidSub(s) =>
      if SubexperimentRow(s).Some? && SubexperimentPolicy(k).Some?
        then Tighter(SubexperimentRow(s).value, SubexperimentPolicy(k).value) else none
    case InSession(d) => SessionLimit(db, d)
    case Project => if c.session.Some? then Limit(Some(100 * YUAN - db.opening), None) else none
  }

  /** The conditions of admission that are not about room in some group. */
  predicate Gates(db: Db, k: Contract, c: Call) {
    var b := db.budgets.Get(c.experiment);
    && Find(db.calls, c.attempt).None?
    && (k.m3 ==>
      && StageLimitsValid(k) && RunBudgetValid(k) && DiagnosticShape(k, c) && !k.sub.NoSubexperiment?
      && (Paid(c) ==> !AnyUnresolvedPaid(db.calls) && b.halted.None? && b.maxRequests <= 2000 && b.cap <= 100 * YUAN)
      && (Paid(c) ==> SubexperimentRow(k.sub).Some? && SubexperimentPolicy(k).Some?)
      && (Paid(c) && c.session.Some? ==> c.session.value in db.sessions)
      && LanesAllow(db, c))
    && (!k.m3 && Paid(c) ==>
      && b.halted.None? && b.maxRequests <= 20 && b.cap <= YUAN
      && forall i :: 0 <= i < |db.calls| ==> !(Paid(db.calls[i]) && db.calls[i].state.Reserved?))
  }

  /** The row that admission is about to insert. */
  predicate FreshRow(db: Db, k: Contract, c: Call) {
    && c.state.Reserved? && c.amount.None? && c.record.None? && c.receivedAt.None?
    && c.run in db.runs && k == db.runs[c.run].contract && c.experiment == ExperimentFor(k)
    && (k.m3 ==> c.sub == k.sub) && (c.session.Some? ==> k.m3 && Paid(c))
    && (Paid(c) ==> LimitOfCall(db, c).Some? && c.upper == ColdUpper(c.payload.bytes, LimitOfCall(db, c).value as int))
    && (c.job.Some? ==> c.job.value in db.jobs && db.jobs[c.job.value].run == c.run)
  }

  /** The whole branch structure of admission says exactly this: the gates are open, and every
      group the new call would join has room for its reservation. */
  lemma AdmissionIsRoomInEveryGroup(db: Db, k: Contract, c: Call)
    requires RowsOk(db) && Conserved(db, c.experiment) && FreshRow(db, k, c)
    ensures LedgerAllows(db, k, c) <==>
            Gates(db, k, c) && forall g :: Member(g, c) ==> Fits(db, g, LimitAt(db, k, c, g), c.upper)
  {
    BudgetIsOccupied(db, c.experiment);
    if LedgerAllows(db, k, c) {
      forall g | Member(g, c) ensures Fits(db, g, LimitAt(db, k, c, g), c.upper) {
        JoinedGroupFits(db, k, c, g);
      }
    }
    if Gates(db, k, c) && forall g :: Member(g, c) ==> Fits(db, g, LimitAt(db, k, c, g), c.upper) {
      RoomAdmits(db, k, c);
    }
  }

  lemma JoinedGroupFits(db: Db, k: Contract, c: Call, g: Group)
    requires RowsOk(db) && Conserved(db, c.experiment) && FreshRow(db, k, c) && LedgerAllows(db, k, c) && Member(g, c)
    ensures Fits(db, g, LimitAt(db, k, c, g), c.upper)
  {
    BudgetIsOccupied(db, c.experiment);
  }

  lemma RoomAdmits(db: Db, k: Contract, c: Call)
    requires RowsOk(db) && Conserved(db, c.experiment) && FreshRow(db, k, c) && Gates(db, k, c)
    requires forall g :: Member(g, c) ==> Fits(db, g, LimitAt(db, k, c, g), c.upper)
    ensures LedgerAllows(db, k, c)
  {
    assert Fits(db, RunAll(c.run), LimitAt(db, k, c, RunAll(c.run)), c.upper);
    RoomInStages(db, k, c);
    if k.m3 { RoomInM3Budget(db, k, c); } else { RoomInLegacyBudget(db, k, c); }
  }

  lemma RoomInStages(db: Db, k: Contract, c: Call)
    requires FreshRow(db, k, c) && Gates(db, k, c)
    requires forall g :: Member(g, c) ==> Fits(db, g, LimitAt(db, k, c, g), c.upper)
    ensures StageCapsAllow(db, k, c)
  {
    if k.m3 {
      assert c.stage.Answer? ==> Fits(db, RunForeground(c.run), LimitAt(db, k, c, RunForeground(c.run)), c.upper);
      assert !c.stage.Answer? ==> Fits(db, RunBackground(c.run), LimitAt(db, k, c, RunBackground(c.run)), c.upper);
      assert c.stage.Probe? ==> Fits(db, RunProbe(c.run), LimitAt(db, k, c, RunProbe(c.run)), c.upper);
      if c.job.Some? {
        assert Fits(db, JobAll(c.job.value), LimitAt(db, k, c, JobAll(c.job.value)), c.upper);
        assert c.stage.Probe? ==> Fits(db, JobProbe(c.job.value), LimitAt(db, k, c, JobProbe(c.job.value)), c.upper);
      }
    }
  }

  lemma RoomInM3Budget(db: Db, k: Contract, c: Call)
    requires RowsOk(db) && Conserved(db, M3) && FreshRow(db, k, c) && Gates(db, k, c) && k.m3
    requires forall g :: Member(g, c) ==> Fits(db, g, LimitAt(db, k, c, g), c.upper)
    ensures M3BudgetAllows(db, k, c)
  {
    if Paid(c) {
      BudgetIsOccupied(db, M3);
      assert Fits(db, PaidIn(M3), LimitAt(db, k, c, PaidIn(M3)), c.upper);
      assert Fits(db, PaidSub(k.sub), LimitAt(db, k, c, PaidSub(k.sub)), c.upper);
      assert c.stage.Probe? ==> Fits(db, PaidProbe(M3), LimitAt(db, k, c, PaidProbe(M3)), c.upper);
      RoomInSession(db, k, c);
    }
  }

  lemma RoomInSession(db: Db, k: Contract, c: Call)
    requires FreshRow(db, k, c) && Gates(db, k, c) && k.m3
    requires forall g :: Member(g, c) ==> Fits(db, g, LimitAt(db, k, c, g), c.upper)
    ensures SessionAllows(db, c)
  {
    if c.session.Some? {
      assert Fits(db, Project, LimitAt(db, k, c, Project), c.upper);
      assert Fits(db, InSession(c.session.value), LimitAt(db, k, c, InSession(c.session.value)), c.upper);
    }
  }

  lemma RoomInLegacyBudget(db: Db, k: Contract, c: Call)
    requires RowsOk(db) && Conserved(db, c.experiment) && FreshRow(db, k, c) && Gates(db, k, c) && !k.m3
    requires forall g :: Member(g, c) ==> Fits(db, g, LimitAt(db, k, c, g), c.upper)
    ensures LegacyBudgetAllows(db, c)
  {
    if Paid(c) {
      BudgetIsOccupied(db, c.experiment);
      assert Fits(db, PaidIn(c.experiment), LimitAt(db, k, c, PaidIn(c.experiment)), c.upper);
      assert c.stage.Probe? ==> Fits(db, PaidProbe(c.experiment), LimitAt(db, k, c, PaidProbe(c.experiment)), c.upper);
    }
  }

  // --------------------------------------------------------------------- inserts

  lemma InsertKeeps(db: Db, k: Contract, c: Call)
    requires LedgerInv(db) && FreshRow(db, k, c) && LedgerAllows(db, k, c)
    ensures LedgerInv(Insert(db, c))
  {
    InsertRowsOk(db, k, c);
    forall e ensures Conserved(Insert(db, c), e) && HaltExact(Insert(db, c), e) {
      assert Conserved(db, e) && HaltExact(db, e);
      InsertConserves(db, c, e);
      InsertHaltExact(db, c, e);
    }
    forall g ensures Within(Insert(db, c), g, StandingLimit(Insert(db, c), g)) {
      InsertWithin(db, k, c, g);
    }
    InsertLanes(db, k, c);
    InsertSerial(db, k, c, M1);
    InsertSerial(db, k, c, M2);
  }

  lemma InsertRowsOk(db: Db, k: Contract, c: Call)
    requires RowsOk(db) && FreshRow(db, k, c) && StageCapsAllow(db, k, c) && Find(db.calls, c.attempt).None?
    ensures RowsOk(Insert(db, c))
  {
    FindMeans(db.calls, c.attempt);
    var after := Insert(db, c);
    forall i | 0 <= i < |after.calls| ensures RowOk(after, after.calls[i]) {
      if i < |db.calls| {
        assert RowOk(db, db.calls[i]);
      }
    }
  }

  lemma InsertLanes(db: Db, k: Contract, c: Call)
    requires LanesExclusive(db) && FreshRow(db, k, c) && BudgetAllows(db, k, c)
    ensures LanesExclusive(Insert(db, c))
  {
    TotalAppend(db.calls, c, LaneOf(Deepseek, true));
    TotalAppend(db.calls, c, LaneOf(Deepseek, false));
    if !k.m3 && Paid(c) {
      NoLegacyLane(db, true);
      NoLegacyLane(db, false);
    }
  }

  lemma NoLegacyLane(db: Db, answer: bool)
    requires forall i :: 0 <= i < |db.calls| ==> !(Paid(db.calls[i]) && db.calls[i].state.Reserved?)
    ensures Lane(db, Deepseek, answer) == 0
  {
    TotalPositive(db.calls, LaneOf(Deepseek, answer));
  }

  lemma ReserveMovesOneBudget(bs: Budgets, c: Call, e: Experiment)
    ensures var b := bs.Get(e);
            Reserve(bs, c).Get(e)
              == if Member(PaidIn(e), c) then b.(reserved := b.reserved + c.upper, attempted := b.attempted + 1) else b
  {
  }

  lemma InsertConserves(db: Db, c: Call, e: Experiment)
    requires Conserved(db, e) && c.state.Reserved? && c.amount.None?
    ensures Conserved(Insert(db, c), e)
  {
    ReserveMovesOneBudget(db.budgets, c, e);
    TotalAppend(db.calls, c, HeldOf(e));
    TotalAppend(db.calls, c, KnownOf(e));
    TotalAppend(db.calls, c, CountOf(PaidIn(e)));
  }

  lemma InsertHaltExact(db: Db, c: Call, e: Experiment)
    requires HaltExact(db, e) && c.state.Reserved? && c.amount.None?
    ensures HaltExact(Insert(db, c), e)
  {
    ReserveMovesOneBudget(db.budgets, c, e);
    AppendStuck(db.calls, c, e);
  }

  lemma AppendStuck(calls: seq<Call>, c: Call, e: Experiment)
    requires !Stuck(e, c)
    ensures AnyStuck(calls + [c], e) <==> AnyStuck(calls, e)
    ensures AnyOvershoot(calls, e) ==> AnyOvershoot(calls + [c], e)
  {
    assert forall i :: 0 <= i < |calls| ==> (calls + [c])[i] == calls[i];
  }

  lemma InsertSerial(db: Db, k: Contract, c: Call, e: Experiment)
    requires HaltExact(db, e) && Total(db.calls, PendingOf(e)) <= 1
    requires FreshRow(db, k, c) && BudgetAllows(db, k, c) && !e.M3?
    ensures Total(Insert(db, c).calls, PendingOf(e)) <= 1
  {
    TotalAppend(db.calls, c, PendingOf(e));
    if Member(PaidIn(e), c) {
      TotalPositive(db.calls, PendingOf(e));
      forall i | 0 <= i < |db.calls| ensures PendingOf(e)(db.calls[i]) == 0 {
        assert !Stuck(e, db.calls[i]);
      }
    }
  }

  lemma InsertWithin(db: Db, k: Contract, c: Call, g: Group)
    requires LedgerInv(db) && FreshRow(db, k, c) && LedgerAllows(db, k, c)
    ensures Within(Insert(db, c), g, StandingLimit(Insert(db, c), g))
  {
    assert Within(db, g, StandingLimit(db, g));
    StandingAfterInsert(db, c, g);
    if Member(g, c) {
      assert Conserved(db, c.experiment);
      JoinedGroupFits(db, k, c, g);
      StandingIsLooser(db, k, c, g);
      FitsStaysWithin(db, c, g, LimitAt(db, k, c, g), StandingLimit(Insert(db, c), g));
    } else {
      TotalAppend(db.calls, c, CountOf(g));
      TotalAppend(db.calls, c, ForeseenOf(g));
    }
  }

  lemma FitsStaysWithin(db: Db, c: Call, g: Group, limit: Limit, standing: Limit)
    requires Fits(db, g, limit, c.upper) && Looser(standing, limit) && c.amount.None? && Member(g, c)
    ensures Within(Insert(db, c), g, standing)
  {
    TotalAppend(db.calls, c, CountOf(g));
    TotalAppend(db.calls, c, ForeseenOf(g));
    OccupiedSplits(db, g);
  }

  predicate Looser(standing: Limit, limit: Limit) {
    && (standing.money.Some? ==> limit.money.Some? && limit.money.value <= standing.money.value)
    && (standing.count.Some? ==> limit.count.Some? && limit.count.value <= standing.count.value)
  }

  /** An insertion moves no standing limit but the project's: a paid call sets it under a session and lifts it
      otherwise. */
  lemma StandingAfterInsert(db: Db, c: Call, g: Group)
    ensures StandingLimit(Insert(db, c), g) == StandingLimit(db, g) || (g.Project? && Paid(c))
    ensures g.Project? && Paid(c) && c.session.None? ==> StandingLimit(Insert(db, c), g) == Limit(None, None)
  {
    if g.Project? {
      LastPaidAfterInsert(db, c);
    } else {
      ReserveMovesOneBudget(db.budgets, c, if g.PaidIn? then g.experiment else M1);
    }
  }

  lemma LastPaidAfterInsert(db: Db, c: Call)
    ensures if Paid(c) then ReleasedLast(Insert(db, c)) <==> c.session.Some?
              else ReleasedLast(Insert(db, c)) <==> ReleasedLast(db)
  {
    var calls := db.calls + [c];
    assert Insert(db, c).calls == calls && calls[|db.calls|] == c;
    if Paid(c) {
      assert LastPaid(calls, |db.calls|);
    } else {
      forall i | 0 <= i < |db.calls|
        ensures (LastPaid(calls, i) <==> LastPaid(db.calls, i)) && calls[i] == db.calls[i]
      {
        LastPaidAppend(db.calls, c, i);
      }
    }
  }

  lemma LastPaidAppend(calls: seq<Call>, c: Call, i: nat)
    requires i < |calls| && !Paid(c)
    ensures LastPaid(calls + [c], i) <==> LastPaid(calls, i)
  {
    assert forall k :: 0 <= k < |calls| ==> (calls + [c])[k] == calls[k];
  }

  lemma StandingIsLooser(db: Db, k: Contract, c: Call, g: Group)
    requires FreshRow(db, k, c) && LedgerAllows(db, k, c) && Member(g, c)
    ensures Looser(StandingLimit(Insert(db, c), g), LimitAt(db, k, c, g))
  {
    StandingAfterInsert(db, c, g);
    match g
    case PaidIn(e) =>
    case PaidSub(s) => assert StandingLimit(db, g) == SubexperimentRow(s).value;
    case Project =>
    case JobAll(j) => assert db.jobs[j].run == c.run;
    case JobProbe(j) => assert db.jobs[j].run == c.run;
    case _ =>
  }

  // ----------------------------------------------------------------- row updates

  /** A step that touches rows keeps who they belong to and reserves nothing new. */
  predicate SameCall(c: Call, d: Call) {
    && d.attempt == c.attempt && d.run == c.run && d.provider == c.provider && d.experiment == c.experiment
    && d.stage == c.stage && d.upper == c.upper && d.payload == c.payload && d.snapshot == c.snapshot
    && d.job == c.job && d.batch == c.batch && d.sub == c.sub && d.session == c.session && d.prefix == c.prefix
    && (d.state.Reserved? ==> c.state.Reserved?)
  }

  predicate SameCalls(s: seq<Call>, t: seq<Call>) {
    |s| == |t| && forall i :: 0 <= i < |s| ==> SameCall(s[i], t[i])
  }

  /** The parts of the database that limits are read from. */
  predicate SameLimits(db: Db, after: Db) {
    && after.runs == db.runs && after.jobs == db.jobs && after.sessions == db.sessions && after.opening == db.opening
    && forall e ::
         after.budgets.Get(e).cap == db.budgets.Get(e).cap
           && after.budgets.Get(e).maxRequests == db.budgets.Get(e).maxRequests
  }

  lemma UpdateWithin(db: Db, after: Db)
    requires AllWithin(db) && SameLimits(db, after) && SameCalls(db.calls, after.calls)
    requires forall i :: 0 <= i < |db.calls| ==> Foreseen(after.calls[i]) <= Foreseen(db.calls[i])
    ensures AllWithin(after)
  {
    forall g ensures Within(after, g, StandingLimit(after, g)) {
      assert Within(db, g, StandingLimit(db, g));
      SameStanding(db, after, g);
      TotalSame(db.calls, after.calls, CountOf(g), CountOf(g));
      TotalMono(after.calls, db.calls, ForeseenOf(g), ForeseenOf(g));
    }
  }

  lemma SameStanding(db: Db, after: Db, g: Group)
    requires SameLimits(db, after) && SameCalls(db.calls, after.calls)
    ensures StandingLimit(after, g) == StandingLimit(db, g)
  {
    match g
    case Project =>
      assert forall i :: 0 <= i < |db.calls| ==> SameCall(db.calls[i], after.calls[i]);
      assert ReleasedLast(after) == ReleasedLast(db);
    case _ =>
  }

  lemma UpdateLanes(db: Db, after: Db)
    requires LanesExclusive(db) && SameCalls(db.calls, after.calls)
    ensures LanesExclusive(after)
  {
    TotalMono(after.calls, db.calls, LaneOf(Deepseek, true), LaneOf(Deepseek, true));
    TotalMono(after.calls, db.calls, LaneOf(Deepseek, false), LaneOf(Deepseek, false));
  }

  // ------------------------------------------------------------------ settlement

  /** One row of the table changes: an open call is priced, or found unknown. */
  predicate RowStep(db: Db, after: Db, i: nat) {
    && i < |db.calls| && |after.calls| == |db.calls| && after.calls == db.calls[i := after.calls[i]]
    && SameCall(db.calls[i], after.calls[i]) && SameLimits(db, after)
    && !db.calls[i].state.Settled? && !after.calls[i].state.Reserved? && RowOk(db, db.calls[i])
    && RowOk(after, after.calls[i])
  }

  lemma RowStepKeepsRows(db: Db, after: Db, i: nat)
    requires RowsOk(db) && RowStep(db, after, i)
    ensures RowsOk(after) && SameCalls(db.calls, after.calls)
    ensures forall j :: 0 <= j < |db.calls| ==> Foreseen(after.calls[j]) <= Foreseen(db.calls[j])
  {
    forall j | 0 <= j < |db.calls| ensures RowOk(after, after.calls[j]) {
      assert RowOk(db, db.calls[j]);
    }
  }

  lemma RowStepKeepsPending(db: Db, after: Db, i: nat, e: Experiment)
    requires RowStep(db, after, i) && Total(db.calls, PendingOf(e)) <= 1
    ensures Total(after.calls, PendingOf(e)) <= 1
  {
    TotalUpdate(db.calls, i, after.calls[i], PendingOf(e));
  }

  /** The budget moves with the row. */
  lemma RowStepConserves(db: Db, after: Db, i: nat, e: Experiment)
    requires RowStep(db, after, i) && Conserved(db, e)
    requires var b, a, c, d := db.budgets.Get(e), after.budgets.Get(e), db.calls[i], after.calls[i];
             && a.attempted == b.attempted
             && a.reserved == b.reserved - (if Member(PaidIn(e), c) && d.state.Settled? then c.upper else 0)
             && a.known == b.known + (if Member(PaidIn(e), c) && d.state.Settled? then d.amount.value else 0)
    ensures Conserved(after, e)
  {
    var d := after.calls[i];
    TotalUpdate(db.calls, i, d, HeldOf(e));
    TotalUpdate(db.calls, i, d, KnownOf(e));
    TotalUpdate(db.calls, i, d, CountOf(PaidIn(e)));
  }

  lemma RowStepKeeps(db: Db, after: Db, i: nat)
    requires LedgerInv(db) && RowStep(db, after, i)
    requires forall e :: Conserved(after, e)
    requires RowsOk(after) && AllWithin(after) ==> forall e :: HaltExact(after, e)
    ensures LedgerInv(after)
  {
    RowStepKeepsRows(db, after, i);
    UpdateWithin(db, after);
    UpdateLanes(db, after);
    RowStepKeepsPending(db, after, i, M1);
    RowStepKeepsPending(db, after, i, M2);
  }

  lemma ChargeMovesOneBudget(bs: Budgets, e: Experiment, x: Experiment, upper: nat, v: Verdict)
    ensures bs.Set(x, Charge(bs.Get(x), upper, v)).Get(e) == if e == x then Charge(bs.Get(e), upper, v) else bs.Get(e)
  {
  }

  lemma PriceIsRowStep(db: Db, i: nat, r: Record)
    requires LedgerInv(db) && i < |db.calls| && db.calls[i].state.Reserved? && !Judge(db, db.calls[i], r).AmountInvalid?
    ensures RowStep(db, Price(db, i, r), i)
  {
    assert RowOk(db, db.calls[i]);
    var c, v := db.calls[i], Judge(db, db.calls[i], r);
    forall e { ChargeMovesOneBudget(db.budgets, e, c.experiment, c.upper, v); }
  }

  lemma PriceKeeps(db: Db, i: nat, r: Record)
    requires LedgerInv(db) && i < |db.calls| && db.calls[i].state.Reserved? && !Judge(db, db.calls[i], r).AmountInvalid?
    ensures LedgerInv(Price(db, i, r))
  {
    var after := Price(db, i, r);
    PriceIsRowStep(db, i, r);
    forall e ensures Conserved(after, e) && HaltExact(after, e) {
      assert Conserved(db, e) && HaltExact(db, e);
      PriceConserves(db, i, r, e);
      PriceHaltExact(db, i, r, e);
    }
    RowStepKeeps(db, after, i);
  }

  lemma PriceConserves(db: Db, i: nat, r: Record, e: Experiment)
    requires i < |db.calls| && RowStep(db, Price(db, i, r), i) && Conserved(db, e) && db.calls[i].state.Reserved?
    ensures Conserved(Price(db, i, r), e)
  {
    var c, v := db.calls[i], Judge(db, db.calls[i], r);
    ChargeMovesOneBudget(db.budgets, e, c.experiment, c.upper, v);
    RowStepConserves(db, Price(db, i, r), i, e);
  }

  lemma PriceHaltExact(db: Db, i: nat, r: Record, e: Experiment)
    requires i < |db.calls| && RowStep(db, Price(db, i, r), i) && HaltExact(db, e) && db.calls[i].state.Reserved?
    ensures HaltExact(Price(db, i, r), e)
  {
    var c, d, v := db.calls[i], Price(db, i, r).calls[i], Judge(db, db.calls[i], r);
    ChargeMovesOneBudget(db.budgets, e, c.experiment, c.upper, v);
    OneRowStuck(db.calls, i, d, e);
  }

  /** Updating one unstuck row leaves an experiment stuck exactly if it was or the new row is. */
  lemma OneRowStuck(calls: seq<Call>, i: nat, d: Call, e: Experiment)
    requires i < |calls| && !Stuck(e, calls[i])
    ensures AnyStuck(calls[i := d], e) <==> AnyStuck(calls, e) || Stuck(e, d)
    ensures AnyOvershoot(calls, e) ==> AnyOvershoot(calls[i := d], e)
    ensures Paid(d) && d.experiment == e && Overshoots(d) ==> AnyOvershoot(calls[i := d], e)
  {
    var after := calls[i := d];
    assert after[i] == d;
    if AnyStuck(calls, e) {
      var j :| 0 <= j < |calls| && Stuck(e, calls[j]);
      assert after[j] == calls[j];
    }
    if AnyOvershoot(calls, e) {
      var j :| 0 <= j < |calls| && Paid(calls[j]) && calls[j].experiment == e && Overshoots(calls[j]);
      assert after[j] == calls[j];
    }
  }

  // ------------------------------------------------------------------ owner loss

  lemma MarkLostFrame(db: Db, lost: Call -> bool, scope: Call -> bool)
    requires RowsOk(db)
    ensures var after := MarkLost(db, lost, scope);
            && RowsOk(after) && SameLimits(db, after) && SameCalls(db.calls, after.calls)
            && forall i :: 0 <= i < |db.calls| ==>
              && after.calls[i].amount == db.calls[i].amount
              && after.calls[i].state.Settled? == db.calls[i].state.Settled?
  {
    var after := MarkLost(db, lost, scope);
    forall i | 0 <= i < |db.calls| ensures RowOk(after, after.calls[i]) && SameCall(db.calls[i], after.calls[i]) {
      assert RowOk(db, db.calls[i]);
    }
  }

  lemma MarkLostKeeps(db: Db, lost: Call -> bool, scope: Call -> bool)
    requires LedgerInv(db)
    requires forall i :: 0 <= i < |db.calls| && lost(db.calls[i]) && db.calls[i].state.Reserved?
                         ==> scope(db.calls[i].(state := Unknown))
    ensures LedgerInv(MarkLost(db, lost, scope))
  {
    var after := MarkLost(db, lost, scope);
    MarkLostFrame(db, lost, scope);
    UpdateWithin(db, after);
    UpdateLanes(db, after);
    MarkLostSerial(db, lost, scope, M1);
    MarkLostSerial(db, lost, scope, M2);
    forall e ensures Conserved(after, e) && HaltExact(after, e) {
      assert Conserved(db, e) && HaltExact(db, e);
      MarkLostConserves(db, lost, scope, e);
      MarkLostHaltExact(db, lost, scope, e);
    }
  }

  lemma MarkLostSerial(db: Db, lost: Call -> bool, scope: Call -> bool, e: Experiment)
    requires RowsOk(db) && Total(db.calls, PendingOf(e)) <= 1
    ensures Total(MarkLost(db, lost, scope).calls, PendingOf(e)) <= 1
  {
    MarkLostFrame(db, lost, scope);
    TotalSame(db.calls, MarkLost(db, lost, scope).calls, PendingOf(e), PendingOf(e));
  }

  lemma MarkLostConserves(db: Db, lost: Call -> bool, scope: Call -> bool, e: Experiment)
    requires RowsOk(db) && Conserved(db, e)
    ensures Conserved(MarkLost(db, lost, scope), e)
  {
    var after := MarkLost(db, lost, scope);
    MarkLostFrame(db, lost, scope);
    TotalSame(db.calls, after.calls, HeldOf(e), HeldOf(e));
    TotalSame(db.calls, after.calls, KnownOf(e), KnownOf(e));
    TotalSame(db.calls, after.calls, CountOf(PaidIn(e)), CountOf(PaidIn(e)));
  }

  lemma MarkLostHaltExact(db: Db, lost: Call -> bool, scope: Call -> bool, e: Experiment)
    requires HaltExact(db, e)
    requires forall i :: 0 <= i < |db.calls| && lost(db.calls[i]) && db.calls[i].state.Reserved?
                         ==> scope(db.calls[i].(state := Unknown))
    ensures HaltExact(MarkLost(db, lost, scope), e)
  {
    var after := MarkLost(db, lost, scope);
    if AnyStuck(db.calls, e) {
      var i :| 0 <= i < |db.calls| && Stuck(e, db.calls[i]);
      assert Stuck(e, after.calls[i]);
    }
    if AnyOvershoot(db.calls, e) {
      var i :| 0 <= i < |db.calls| && Paid(db.calls[i]) && db.calls[i].experiment == e && Overshoots(db.calls[i]);
      assert Overshoots(after.calls[i]);
    }
    if AnyStuck(after.calls, e) && !AnyStuck(db.calls, e) {
      var i :| 0 <= i < |db.calls| && Stuck(e, after.calls[i]);
      assert !Stuck(e, db.calls[i]);
      assert scope(after.calls[i]);
    }
  }

  // -------------------------------------------------------------- reconciliation

  predicate OpenM3(db: Db, i: nat) {
    i < |db.calls| && Paid(db.calls[i]) && db.calls[i].experiment.M3? && db.calls[i].state.Unknown?
  }

  /** Evidence that prices an UNKNOWN call lifts the halt exactly when no other call needs it. */
  lemma ResolveKeeps(db: Db, i: nat, kind: EvidenceKind, e: Record, amount: nat)
    requires LedgerInv(db) && OpenM3(db, i)
    ensures LedgerInv(Resolve(db, i, kind, e, amount))
  {
    var after := Resolve(db, i, kind, e, amount);
    assert RowOk(db, db.calls[i]);
    assert RowStep(db, after, i);
    forall x ensures Conserved(after, x) {
      assert Conserved(db, x);
      RowStepConserves(db, after, i, x);
    }
    if RowsOk(after) && AllWithin(after) {
      assert Conserved(after, M3);
      OverCapMeansOvershoot(after, M3);
      forall x ensures HaltExact(after, x) {
        assert HaltExact(db, x);
        if x.M3? {
          ResolveHaltExact(db, i, kind, e, amount);
        } else {
          OneRowStuck(db.calls, i, after.calls[i], x);
        }
      }
    }
    RowStepKeeps(db, after, i);
  }

  /** Money beyond a cap can only come from a call that cost more than was reserved for it. */
  lemma OverCapMeansOvershoot(db: Db, e: Experiment)
    requires RowsOk(db) && Conserved(db, e) && AllWithin(db)
    ensures db.budgets.Get(e).known + db.budgets.Get(e).reserved > db.budgets.Get(e).cap ==> AnyOvershoot(db.calls, e)
  {
    var g := PaidIn(e);
    BudgetIsOccupied(db, e);
    OccupiedSplits(db, g);
    assert Within(db, g, StandingLimit(db, g));
    if Count(db, g) == 0 {
      NothingForeseen(db, g);
    }
    TotalPositive(db.calls, OvershootOf(g));
  }

  lemma ResolveHaltExact(db: Db, i: nat, kind: EvidenceKind, e: Record, amount: nat)
    requires OpenM3(db, i) && HaltExact(db, M3) && RowsOk(db) && RowsOk(Resolve(db, i, kind, e, amount))
    requires var b := Resolve(db, i, kind, e, amount).budgets.m3;
             b.known + b.reserved > b.cap ==> AnyOvershoot(Resolve(db, i, kind, e, amount).calls, M3)
    ensures HaltExact(Resolve(db, i, kind, e, amount), M3)
  {
    var after := Resolve(db, i, kind, e, amount);
    var c, d, b := db.calls[i], after.calls[i], db.budgets.m3;
    var charged := ChargeLate(b, c.upper, amount);
    assert Stuck(M3, c);
    assert after.budgets.m3 == ClearResolvedHalt(after.calls, M3, charged);
    assert after.budgets.m3.known + after.budgets.m3.reserved == b.known + b.reserved + amount - c.upper;
    OvershootSurvives(db, i, d);
    KeepsHaltIsStuck(after, M3);
    OvershootSticks(after.calls, M3);
    assert AnyStuck(db.calls, M3);
    match charged.halted.value {
      case CostExceededReservation =>
      case CostUnknown =>
      case OwnerLoss =>
    }
  }

  lemma OvershootSticks(calls: seq<Call>, e: Experiment)
    ensures AnyOvershoot(calls, e) ==> AnyStuck(calls, e)
  {
    if AnyOvershoot(calls, e) {
      var j :| 0 <= j < |calls| && Paid(calls[j]) && calls[j].experiment == e && Overshoots(calls[j]);
      assert Stuck(e, calls[j]);
    }
  }

  lemma OvershootSurvives(db: Db, i: nat, d: Call)
    requires OpenM3(db, i) && RowsOk(db) && SameCall(db.calls[i], d)
    ensures AnyOvershoot(db.calls, M3) || Overshoots(d) ==> AnyOvershoot(db.calls[i := d], M3)
  {
    var calls := db.calls[i := d];
    assert calls[i] == d;
    assert RowOk(db, db.calls[i]);
    if AnyOvershoot(db.calls, M3) {
      var j :| 0 <= j < |db.calls| && Paid(db.calls[j]) && db.calls[j].experiment == M3 && Overshoots(db.calls[j]);
      assert calls[j] == db.calls[j];
    }
  }

  lemma KeepsHaltIsStuck(db: Db, e: Experiment)
    requires RowsOk(db)
    ensures (exists i :: 0 <= i < |db.calls| && KeepsHalt(e, db.calls[i])) <==> AnyStuck(db.calls, e)
  {
    forall i | 0 <= i < |db.calls| ensures KeepsHalt(e, db.calls[i]) == Stuck(e, db.calls[i]) {
      assert RowOk(db, db.calls[i]);
    }
    if AnyStuck(db.calls, e) {
      var i :| 0 <= i < |db.calls| && Stuck(e, db.calls[i]);
      assert KeepsHalt(e, db.calls[i]);
    }
  }

  lemma ResolveAtZeroKeeps(db: Db, i: nat)
    requires LedgerInv(db) && i < |db.calls| && ZeroChargeApplies(db, i)
    ensures LedgerInv(ResolveAtZero(db, i))
  {
    var after := ResolveAtZero(db, i);
    assert RowOk(db, db.calls[i]);
    assert RowStep(db, after, i);
    forall x ensures Conserved(after, x) && HaltExact(after, x) {
      assert Conserved(db, x) && HaltExact(db, x);
      RowStepConserves(db, after, i, x);
      if x.M2? {
        NothingPendingAfterZero(db, i);
      } else {
        OneRowStuck(db.calls, i, after.calls[i], x);
      }
    }
    RowStepKeeps(db, after, i);
  }

  lemma NothingPendingAfterZero(db: Db, i: nat)
    requires Serial(db) && i < |db.calls| && ZeroChargeApplies(db, i)
    ensures var calls := ResolveAtZero(db, i).calls;
            !AnyStuck(calls, M2) && !AnyOvershoot(calls, M2)
            && !exists k :: 0 <= k < |calls| && Paid(calls[k]) && calls[k].experiment.M2? && !calls[k].state.Settled?
  {
    var after := ResolveAtZero(db, i);
    TotalUpdate(db.calls, i, after.calls[i], PendingOf(M2));
    TotalPositive(after.calls, PendingOf(M2));
    forall k | 0 <= k < |after.calls| ensures PendingOf(M2)(after.calls[k]) == 0 {
    }
  }
}
