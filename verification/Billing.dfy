/** What a call is charged: the price its evidence proves and nothing else, in the fields of the record, the call row
    and the budget row, for one settlement and for every row of every reachable ledger. */
module Billing {
  import opened Types
  import opened Tariff
  import opened Table
  import opened Ledger
  import opened LedgerLaws
  import opened Settlement
  import opened JobLaws
  import opened Runs
  import opened Safety
  import Spending

  // ---------------------------------------------------------------------- a price

  /** Complete token counts that add up, within the call's output limit. */
  predicate Counted(u: UsageJson, maxOutput: int64) {
    && u.Usage? && u.input.Some? && u.output.Some? && u.total.Some? && u.hit.Some? && u.miss.Some?
    && u.hit.value >= 0 && u.miss.value >= 0 && 0 <= u.output.value <= maxOutput && maxOutput > 0
    && u.hit.value as int + u.miss.value as int == u.input.value as int
    && u.input.value as int + u.output.value as int == u.total.value as int
  }

  /** Tokens at CNY 1 / 0.02 / 4 per million of miss / hit / output, in units of 1e-8. */
  function PriceOf(u: UsageJson, factor: nat): int
    requires u.Usage? && u.output.Some? && u.hit.Some? && u.miss.Some?
  {
    factor * (100 * u.miss.value as int + 2 * u.hit.value as int + 400 * u.output.value as int)
  }

  /** A record proves an amount exactly if it is a CNY estimate of that amount, its counts add up, a recorded reply does
      not contradict them, the call ran under one rate throughout, and the amount is the price of the counts. */
  lemma VerifiedIsThePrice(r: Record, maxOutput: int64, v: nat)
    ensures VerifiedCost(r, maxOutput) == Some(v) <==>
            && r.status.Estimated? && r.cny && r.amount.Some? && AmountUnits(r.amount.value) == Some(v)
            && Counted(r.rawUsage, maxOutput)
            && !r.response.ResponseMalformed?
            && (r.response.Response? ==> r.response.usage.UsageAbsent? || r.response.usage == r.rawUsage)
            && r.started.Some? && r.finished.Some? && r.started.value <= r.finished.value
            && (forall u :: r.started.value <= u <= r.finished.value ==> Rate(u) == Rate(r.started.value))
            && v == PriceOf(r.rawUsage, Rate(r.started.value))
  {
    CountedIsRead(r.rawUsage, maxOutput);
    if r.started.Some? && r.finished.Some? && r.started.value <= r.finished.value {
      OneRateThroughout(r.started.value, r.finished.value);
    }
    if r.response.Response? {
      CountedIsRead(r.response.usage, maxOutput);
    }
  }

  lemma CountedIsRead(u: UsageJson, maxOutput: int64)
    ensures ReadUsage(u, maxOutput).Some? <==> Counted(u, maxOutput)
    ensures Counted(u, maxOutput) ==>
              ReadUsage(u, maxOutput)
              == Some(Tokens(u.input.value, u.output.value, u.total.value, u.hit.value, u.miss.value))
  {
    if u.Usage? && u.input.Some? && u.output.Some? && u.total.Some? && u.hit.Some? && u.miss.Some? {
      var t := Tokens(u.input.value, u.output.value, u.total.value, u.hit.value, u.miss.value);
      if UsageConsistent(t, maxOutput) {
        UsageAddsUp(t, maxOutput);
      }
    }
  }

  /** Nothing was sent exactly if the record says so in every field: refused before the request for a stale snapshot -
      or, in the third experiment, an expired window or a closed release gate - with that as the reason of its cost, a
      literal zero in CNY and no usage. Such a record proves no price. */
  lemma NothingSentMeans(r: Record, e: Experiment, maxOutput: int64)
    ensures ProvesNotDispatched(r, e) <==>
            && r.dispatched.Some? && !r.dispatched.value && r.status.NotDispatched? && r.rawUsage.UsageNull?
            && r.amount.Some? && r.amount.value.LiteralZero? && r.cny && r.costReason == r.transport
            && (r.transport.SnapshotStale? || (e.M3? && (r.transport.CacheWindowExpired? || r.transport.ReleaseGate?)))
    ensures ProvesNotDispatched(r, e) ==> VerifiedCost(r, maxOutput).None?
  {
  }

  // ----------------------------------------------------------------- a settlement

  /** The proved cost of a paid call's record under its own output limit. */
  function ProvedCost(db: Db, c: Call, r: Record): Option<nat> {
    if LimitOfCall(db, c).Some? then VerifiedCost(r, LimitOfCall(db, c).value) else None
  }

  /** Only this row and this experiment's budget have moved. */
  predicate OnlyRowAndBudget(db: Db, after: Db, i: nat, c: Call, e: Experiment, b: Budget)
    requires i < |db.calls|
  {
    after == db.(calls := db.calls[i := c], budgets := db.budgets.Set(e, b))
  }

  /** The halt after a priced settlement: for excess if the price exceeds what was reserved, else as it was. */
  function HaltAfter(was: Option<Halt>, cost: nat, upper: nat): Option<Halt> {
    if cost > upper then Some(CostExceededReservation) else was
  }

  /** A reserved paid call of the third experiment whose estimate is proved settles at exactly the proved cost: known
      money rises by that cost and the reserve falls by the reservation. */
  lemma ProvedEstimateIsBilled(db: Db, i: nat, r: Record)
    requires LedgerInv(db) && AuditsOk(db) && i < |db.calls|
    requires var c := db.calls[i];
             c.provider.Deepseek? && c.experiment.M3? && c.state.Reserved? && ProvedCost(db, c, r).Some?
    ensures var c, b, cost := db.calls[i], db.budgets.m3, ProvedCost(db, db.calls[i], r).value;
            var (reply, after) := Settle(db, c.run, c.attempt, r);
            && reply.Accepted?
            && OnlyRowAndBudget(db, after, i,
                                c.(state := Settled, amount := Some(cost), record := Some(r),
                                   receivedAt := Some(db.now)),
                                M3, b.(known := b.known + cost, reserved := b.reserved - c.upper,
                                       halted := HaltAfter(b.halted, cost, c.upper)))
  {
    RowIsFound(db, i);
    NoAuditOfOpenCall(db, i);
    assert r.status.Estimated?;
  }

  /** Every other record of such a call: a proof that nothing was sent settles it at zero and frees the reserve, and
      anything else leaves it UNKNOWN with its reserve, and the experiment halted. */
  lemma UnprovedIsFreeOrUnknown(db: Db, i: nat, r: Record)
    requires LedgerInv(db) && AuditsOk(db) && i < |db.calls|
    requires var c := db.calls[i];
             c.provider.Deepseek? && c.experiment.M3? && c.state.Reserved? && ProvedCost(db, c, r).None?
    ensures var c, b := db.calls[i], db.budgets.m3;
            var (reply, after) := Settle(db, c.run, c.attempt, r);
            && reply.Accepted?
            && (if ProvesNotDispatched(r, M3) then
                  OnlyRowAndBudget(db, after, i,
                                   c.(state := Settled, amount := Some(0), record := Some(r),
                                      receivedAt := Some(db.now)),
                                   M3, b.(reserved := b.reserved - c.upper))
                else
                  OnlyRowAndBudget(db, after, i, c.(state := Unknown, amount := None, record := Some(r)),
                                   M3, b.(halted := Some(CostUnknown))))
  {
    RowIsFound(db, i);
    NoAuditOfOpenCall(db, i);
    assert RowOk(db, db.calls[i]);
  }

  lemma NoAuditOfOpenCall(db: Db, i: nat)
    requires LedgerInv(db) && AuditsOk(db) && i < |db.calls| && !db.calls[i].state.Settled?
    ensures db.calls[i].attempt !in db.audits
  {
    RowIsFound(db, i);
  }

  /** The earlier experiments charge the record's own amount. */
  lemma EarlierEstimateIsBilled(db: Db, i: nat, r: Record, amount: nat)
    requires LedgerInv(db) && i < |db.calls|
    requires var c := db.calls[i]; c.provider.Deepseek? && !c.experiment.M3? && c.state.Reserved?
    requires r.status.Estimated? && r.cny && r.amount.Some? && AmountUnits(r.amount.value) == Some(amount)
             && !r.rawUsage.UsageAbsent? && !r.rawUsage.UsageNull?
    ensures var c, b := db.calls[i], db.budgets.Get(db.calls[i].experiment);
            var (reply, after) := Settle(db, c.run, c.attempt, r);
            && reply.Accepted?
            && OnlyRowAndBudget(db, after, i,
                                c.(state := Settled, amount := Some(amount), record := Some(r),
                                   receivedAt := Some(db.now)),
                                c.experiment, b.(known := b.known + amount, reserved := b.reserved - c.upper,
                                                 halted := HaltAfter(b.halted, amount, c.upper)))
  {
    RowIsFound(db, i);
  }

  /** Their other records: an estimate that is no amount is rejected outright; a proof that nothing was sent is free;
      the rest leaves the call UNKNOWN and halts the experiment. */
  lemma EarlierOtherRecords(db: Db, i: nat, r: Record)
    requires LedgerInv(db) && i < |db.calls|
    requires var c := db.calls[i]; c.provider.Deepseek? && !c.experiment.M3? && c.state.Reserved?
    ensures var c, b := db.calls[i], db.budgets.Get(db.calls[i].experiment);
            var estimate := r.status.Estimated? && r.cny && r.amount.Some? && !r.rawUsage.UsageAbsent?
                            && !r.rawUsage.UsageNull?;
            var (reply, after) := Settle(db, c.run, c.attempt, r);
            && (estimate && (AmountUnits(r.amount.value).None? || AmountUnits(r.amount.value).value < 0) ==>
                  reply.AmountRejected? && after == db)
            && (!estimate && ProvesNotDispatched(r, c.experiment) ==>
                  reply.Accepted?
                  && OnlyRowAndBudget(db, after, i, c.(state := Settled, amount := Some(0), record := Some(r),
                                                       receivedAt := Some(db.now)),
                                      c.experiment, b.(reserved := b.reserved - c.upper)))
            && (!estimate && !ProvesNotDispatched(r, c.experiment) ==>
                  reply.Accepted?
                  && OnlyRowAndBudget(db, after, i, c.(state := Unknown, amount := None, record := Some(r)),
                                      c.experiment, b.(halted := Some(CostUnknown))))
  {
    RowIsFound(db, i);
    assert RowOk(db, db.calls[i]);
  }

  /** A simulated call costs nothing, whatever its record says. */
  lemma SimulatedIsFree(db: Db, i: nat, r: Record)
    requires LedgerInv(db) && i < |db.calls| && db.calls[i].provider.Mock? && db.calls[i].state.Reserved?
    ensures var c := db.calls[i];
            Settle(db, c.run, c.attempt, r)
            == (Accepted, db.(calls := db.calls[i := c.(state := Settled, record := Some(r),
                                                        receivedAt := Some(db.now))]))
  {
    RowIsFound(db, i);
    assert RowOk(db, db.calls[i]);
  }

  /** Late evidence of an UNKNOWN call: it is charged its proved cost, and what was reserved is freed. */
  lemma LateEvidenceIsBilled(db: Db, attempt: Id, kind: EvidenceKind, e: Record)
    requires LedgerInv(db) && AuditsOk(db) && Reconcile(db, attempt, kind, e, true).0.Applied?
    ensures exists i ::
              && 0 <= i < |db.calls| && db.calls[i].attempt == attempt && db.calls[i].state.Unknown?
              && db.calls[i].provider.Deepseek? && db.calls[i].experiment.M3?
              && var c, b, after := db.calls[i], db.budgets.m3, Reconcile(db, attempt, kind, e, true).1;
              && ProvedCost(db, c, e).Some?
              && var cost := ProvedCost(db, c, e).value;
              && after.calls == db.calls[i := c.(state := Settled, amount := Some(cost))]
              && after.budgets == db.budgets.(m3 := b.(known := b.known + cost, reserved := b.reserved - c.upper,
                                                       halted := after.budgets.m3.halted))
              && after.audits == db.audits[attempt := Audit(LateUsage, e, cost)]
  {
    var i := AppliedMeans(db, attempt, kind, e, true);
    NonDispatchNeverResolves(db, attempt, e, true);
    assert db.calls[i].attempt == attempt;
  }

  /** The evidence is about this very call - its attempt, run, stage, frozen request, snapshot and reservation - and
      contradicts nothing that its record says already. */
  predicate About(c: Call, e: Record) {
    && e.attempt == Some(c.attempt) && e.run == Some(c.run) && e.stage == Some(c.stage)
    && e.wire == Some(c.payload.content) && e.wireSha == c.payload.content && e.payloadSha == c.payload.content
    && e.snapshot == Some(c.snapshot) && e.claimedUpper == Some(c.upper)
    && (c.record.Some? ==>
          && (c.record.value.attempt.Some? ==> c.record.value.attempt.value == c.attempt)
          && (c.record.value.run.Some? ==> c.record.value.run.value == c.run)
          && (c.record.value.requestId.Some? ==> c.record.value.requestId == e.requestId)
          && (c.record.value.completionId.Some? ==> c.record.value.completionId == e.completionId)
          && (c.record.value.started.Some? ==> c.record.value.started == e.started)
          && (c.record.value.dispatched.Some? ==> c.record.value.dispatched == e.dispatched))
  }

  /** It is the record of one real, answered request to the production model. */
  predicate OfARealReply(e: Record) {
    && e.deepseekFlash && e.simulated == Some(false) && e.retries == Some(0) && e.dispatched == Some(true)
    && 200 <= e.httpStatus < 300 && e.requestId.Some? && e.completionId.Some? && e.response.Response?
    && e.response.id == e.completionId && e.response.modelMatches && e.response.usage == e.rawUsage
    && e.started.Some? && e.finished.Some? && e.started.value <= e.finished.value
  }

  /** An UNKNOWN paid call is resolved by later evidence exactly if that is about this very call, comes from a real
      reply, and proves a cost; it is then charged that cost. */
  lemma UnknownCallResolves(db: Db, i: nat, e: Record)
    requires LedgerInv(db) && AuditsOk(db) && i < |db.calls|
    requires db.calls[i].provider.Deepseek? && db.calls[i].experiment.M3? && db.calls[i].state.Unknown?
    ensures var c := db.calls[i];
            var reply := Reconcile(db, c.attempt, LateUsage, e, true).0;
            && (reply.Applied? <==> About(c, e) && OfARealReply(e) && ProvedCost(db, c, e).Some?)
            && (reply.Applied? ==> Some(reply.amount) == ProvedCost(db, c, e))
            && !reply.Replayed? && !reply.Previewed?
  {
    RowIsFound(db, i);
    NoAuditOfOpenCall(db, i);
    ReserveCoversOpenCalls(db, i);
  }

  /** The runtime's own late settlement of such a call does just that, and may be repeated. */
  lemma LateSettlementResolves(db: Db, i: nat, r: Record)
    requires LedgerInv(db) && AuditsOk(db) && i < |db.calls|
    requires db.calls[i].provider.Deepseek? && db.calls[i].experiment.M3? && db.calls[i].state.Unknown?
    requires About(db.calls[i], r) && OfARealReply(r) && ProvedCost(db, db.calls[i], r).Some?
    ensures var c := db.calls[i];
            var after := Settle(db, c.run, c.attempt, r).1;
            && Settle(db, c.run, c.attempt, r) == (Accepted, Reconcile(db, c.attempt, LateUsage, r, true).1)
            && Settle(after, c.run, c.attempt, r) == (Accepted, after)
  {
    var c := db.calls[i];
    UnknownCallResolves(db, i, r);
    RowIsFound(db, i);
    LateIsReconciled(db, i, r);
    var after := Resolve(db, i, LateUsage, r, ProvedCost(db, c, r).value);
    AppliedToRow(db, i, r);
    ResolvedIsLate(db, i, r, ProvedCost(db, c, r).value);
    LateIsReconciled(after, i, r);
    EvidenceReplayIsAccepted(db, c.attempt, LateUsage, r);
  }

  lemma LateIsReconciled(db: Db, i: nat, r: Record)
    requires i < |db.calls| && Find(db.calls, db.calls[i].attempt) == Some(i) && Late(db, db.calls[i], r)
    requires r.dispatched == Some(true)
    ensures var c := db.calls[i];
            var (reply, after) := Reconcile(db, c.attempt, LateUsage, r, true);
            Settle(db, c.run, c.attempt, r) == if reply.Refused? then (EvidenceRejected, db) else (Accepted, after)
  {
  }

  lemma AppliedToRow(db: Db, i: nat, r: Record)
    requires i < |db.calls| && Find(db.calls, db.calls[i].attempt) == Some(i)
    requires Reconcile(db, db.calls[i].attempt, LateUsage, r, true).0.Applied?
    ensures var (reply, after) := Reconcile(db, db.calls[i].attempt, LateUsage, r, true);
            after == Resolve(db, i, LateUsage, r, reply.amount)
  {
  }

  /** After an applied reconciliation the same record is late evidence again. */
  lemma ResolvedIsLate(db: Db, i: nat, r: Record, amount: nat)
    requires i < |db.calls| && Find(db.calls, db.calls[i].attempt) == Some(i)
    requires db.calls[i].provider.Deepseek? && db.calls[i].experiment.M3?
    ensures var after := Resolve(db, i, LateUsage, r, amount);
            && after.calls[i].attempt == db.calls[i].attempt && after.calls[i].run == db.calls[i].run
            && Find(after.calls, after.calls[i].attempt) == Some(i) && Late(after, after.calls[i], r)
  {
    FindIsPositional(db.calls, Resolve(db, i, LateUsage, r, amount).calls, db.calls[i].attempt);
  }

  // ------------------------------------------------------------- every settled row

  /** Where a settled paid call's amount comes from. */
  predicate Charged(db: Db, c: Call) {
    c.provider.Deepseek? && c.state.Settled? ==>
      || (c.amount == Some(0) && c.record.Some? && ProvesNotDispatched(c.record.value, c.experiment))
      || (c.amount.Some? && c.experiment.M3? && c.record.Some? && ProvedCost(db, c, c.record.value) == c.amount)
      || (c.amount.Some? && c.experiment.M3? && c.attempt in db.audits && db.audits[c.attempt].kind.LateUsage?
          && Some(db.audits[c.attempt].amount) == c.amount
          && ProvedCost(db, c, db.audits[c.attempt].evidence) == c.amount)
      || (c.amount.Some? && !c.experiment.M3? && c.record.Some? && c.record.value.amount.Some?
          && AmountUnits(c.record.value.amount.value) == Some(c.amount.value))
      || (c.amount == Some(0) && c.experiment.M2? && c.record.Some? && c.record.value.httpStatus == 400
          && c.record.value.rawUsage.UsageNull?)
  }

  ghost predicate AllCharged(db: Db) { forall i :: 0 <= i < |db.calls| ==> Charged(db, db.calls[i]) }

  /** A row that is unchanged is still charged as it was. */
  lemma ChargeStands(db: Db, after: Db, c: Call)
    requires Charged(db, c) && c.run in db.runs && c.run in after.runs
             && after.runs[c.run].contract == db.runs[c.run].contract
    requires c.attempt in db.audits ==> c.attempt in after.audits && after.audits[c.attempt] == db.audits[c.attempt]
    ensures Charged(after, c)
  {
  }

  /** A step that writes no amount keeps every charge. */
  lemma NoAmountNoCharge(db: Db, after: Db)
    requires Sound(db) && Sound(after) && AllCharged(db) && Follows(db, after) && RunsKept(db, after)
             && after.audits == db.audits && Spending.AmountsKept(db.calls, after.calls)
    ensures AllCharged(after)
  {
    forall i | 0 <= i < |after.calls| ensures Charged(after, after.calls[i]) {
      assert RowOk(after, after.calls[i]);
      if i < |db.calls| {
        assert Evolves(db.calls[i], after.calls[i]) && RowOk(db, db.calls[i]);
        if after.calls[i].provider.Deepseek? && after.calls[i].state.Settled? {
          ChargeStands(db, after, db.calls[i]);
        }
      }
    }
  }

  lemma OneRowCharged(db: Db, after: Db, i: nat)
    requires RowsOk(db) && AllCharged(db) && i < |db.calls| && after.runs == db.runs
    requires |after.calls| == |db.calls| && forall k :: 0 <= k < |db.calls| && k != i ==> after.calls[k] == db.calls[k]
    requires forall a :: a in db.audits ==> a in after.audits && after.audits[a] == db.audits[a]
    requires Charged(after, after.calls[i])
    ensures AllCharged(after)
  {
    forall k | 0 <= k < |after.calls| ensures Charged(after, after.calls[k]) {
      if k != i {
        assert RowOk(db, db.calls[k]);
        ChargeStands(db, after, db.calls[k]);
      }
    }
  }

  lemma PricedIsCharged(db: Db, i: nat, r: Record)
    requires RowsOk(db) && i < |db.calls| && db.calls[i].state.Reserved?
    ensures Charged(Ledger.Price(db, i, r), Ledger.Price(db, i, r).calls[i])
  {
  }

  lemma SettleCharges(db: Db, run: Id, attempt: Id, r: Record)
    requires Sound(db) && AllCharged(db)
    ensures AllCharged(Settle(db, run, attempt, r).1)
  {
    var after := Settle(db, run, attempt, r).1;
    var i := SettleMeans(db, run, attempt, r);
    ReconcileCharges(db, attempt, KindOf(r), r, true);
    if after != db && after != Reconcile(db, attempt, KindOf(r), r, true).1 {
      PricedIsCharged(db, i, r);
      OneRowCharged(db, after, i);
    }
  }

  lemma ReconcileCharges(db: Db, attempt: Id, kind: EvidenceKind, e: Record, apply: bool)
    requires Sound(db) && AllCharged(db)
    ensures AllCharged(Reconcile(db, attempt, kind, e, apply).1)
  {
    if Reconcile(db, attempt, kind, e, apply).0.Applied? {
      var i := AppliedMeans(db, attempt, kind, e, apply);
      NonDispatchNeverResolves(db, attempt, e, apply);
      ResolvedIsCharged(db, i, kind, e, Reconcile(db, attempt, kind, e, apply).0.amount);
      OneRowCharged(db, Reconcile(db, attempt, kind, e, apply).1, i);
    }
  }

  lemma ResolvedIsCharged(db: Db, i: nat, kind: EvidenceKind, e: Record, amount: nat)
    requires OpenM3(db, i) && kind.LateUsage? && EvidenceAmount(db, db.calls[i], kind, e) == Some(amount)
    ensures Charged(Resolve(db, i, kind, e, amount), Resolve(db, i, kind, e, amount).calls[i])
  {
  }

  lemma ZeroChargeCharges(db: Db, i: nat)
    requires Sound(db) && AllCharged(db) && i < |db.calls| && ZeroChargeApplies(db, i)
    ensures AllCharged(ResolveAtZero(db, i))
  {
    OneRowCharged(db, ResolveAtZero(db, i), i);
  }

  lemma WorkerStepCharges(db: Db, x: WorkerStep)
    requires Sound(db) && AllCharged(db) && AcceptsWorker(db, x)
    ensures AllCharged(ApplyWorker(db, x))
  {
    WorkerStepKeeps(db, x);
    Spending.WorkerMoney(db, x);
    WorkerFrame(db, x);
    NoAmountNoCharge(db, ApplyWorker(db, x));
  }

  lemma WorkerFrame(db: Db, x: WorkerStep)
    requires AcceptsWorker(db, x)
    ensures ApplyWorker(db, x).audits == db.audits && ApplyWorker(db, x).runs == db.runs
  {
  }

  lemma JobStepCharges(db: Db, x: JobStep)
    requires Sound(db) && AllCharged(db) && AcceptsJob(db, x)
    ensures AllCharged(ApplyJob(db, x))
  {
    JobStepKeepsAll(db, x);
    Spending.JobMoney(db, x);
    JobFrame(db, x);
    NoAmountNoCharge(db, ApplyJob(db, x));
  }

  lemma JobFrame(db: Db, x: JobStep)
    requires AcceptsJob(db, x)
    ensures ApplyJob(db, x).audits == db.audits && RunsKept(db, ApplyJob(db, x))
  {
  }

  lemma RunStepCharges(db: Db, x: RunStep)
    requires Sound(db) && AllCharged(db) && AcceptsRun(db, x)
    ensures AllCharged(ApplyRun(db, x))
  {
    RunStepKeepsAll(db, x);
    Spending.RunMoney(db, x);
    RunFrame(db, x);
    NoAmountNoCharge(db, ApplyRun(db, x));
  }

  lemma RunFrame(db: Db, x: RunStep)
    requires AcceptsRun(db, x)
    ensures ApplyRun(db, x).audits == db.audits && RunsKept(db, ApplyRun(db, x))
  {
  }

  lemma StepCharges(db: Db, s: Step)
    requires Sound(db) && AllCharged(db)
    ensures AllCharged(Apply(db, s))
  {
    if Accepts(db, s) {
      match s
      case OfWorker(x) => WorkerStepCharges(db, x);
      case OfJob(x) => JobStepCharges(db, x);
      case OfRun(x) => RunStepCharges(db, x);
      case OfMoney(DoSettle(run, attempt, record)) => SettleCharges(db, run, attempt, record);
      case OfMoney(DoReconcile(attempt, kind, e, apply)) => ReconcileCharges(db, attempt, kind, e, apply);
      case OfMoney(DoZeroCharge(i)) => ZeroChargeCharges(db, i);
    }
  }

  lemma {:induction false} RunCharges(db: Db, steps: seq<Step>)
    requires Sound(db) && AllCharged(db)
    ensures AllCharged(After(db, steps))
    decreases |steps|
  {
    if steps != [] {
      StepKeeps(db, steps[0]);
      StepCharges(db, steps[0]);
      RunCharges(Apply(db, steps[0]), steps[1..]);
    }
  }

  /** In every reachable ledger a settled paid call of the third experiment was charged the cost its record or its late
      evidence proves, or nothing on a proof that it was never sent; one of the earlier experiments, the amount of its
      record, or nothing. */
  lemma EveryChargeIsProved(start: Db, steps: seq<Step>, i: nat)
    requires Initial(start) && i < |After(start, steps).calls|
    ensures Charged(After(start, steps), After(start, steps).calls[i])
  {
    InitialIsSound(start);
    RunCharges(start, steps);
  }
}
