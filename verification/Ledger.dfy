/** The paid-call ledger: server-owned limits, the groups of calls they bound, and the effect of
    admission, settlement, owner loss and reconciliation on the call and budget rows. */
module Ledger {
  import opened Types
  import opened Tariff
  import opened Table

  // -------------------------------------------------------------------- policies

  datatype Policy = Policy(maxOutput: nat, maxForeground: nat, maxBackground: nat, maxProbe: nat,
                           maxRun: nat, runCost: nat, backgroundCost: nat, probeCost: nat,
                           globalCap: nat, globalProbeCap: nat, maxRequests: nat)

  function PolicyOf(c: Contract): Option<Policy> {
    if c.m3 && c.policy.PolicyUnsupported? then None else
    var p :=
      if c.m3 && c.policy.PolicyV2? then
        Policy(2048, 3, 3, 2, 6, 2 * YUAN, YUAN, YUAN / 2, 100 * YUAN, 10 * YUAN, 2000)
      else
        Policy(512, 3, 3, 2, 6, 30 * YUAN / 100, 20 * YUAN / 100, 10 * YUAN / 100, 60 * YUAN, 6 * YUAN, 2000);
    Some(if c.m3 && (c.sub.CacheProtocol? || c.diagnostic) then p.(maxProbe := 0, probeCost := 0) else p)
  }

  /** A limit on a group of calls: the money its calls may occupy together and how many there may be. */
  datatype Limit = Limit(money: Option<int>, count: Option<int>)

  /** The stored row of a subexperiment. */
  function SubexperimentRow(s: Subexperiment): Option<Limit> {
    match s
    case CacheProtocol => Some(Limit(Some(20 * YUAN), Some(200)))
    case Quality => Some(Limit(Some(50 * YUAN), Some(1000)))
    case Sequence => Some(Limit(Some(30 * YUAN), Some(800)))
    case _ => None
  }

  /** What the selected policy adds to that row. */
  function SubexperimentPolicy(c: Contract): Option<Limit> {
    if c.policy.PolicyV2? then SubexperimentRow(c.sub)
    else match c.sub
      case CacheProtocol => Some(Limit(Some(2 * YUAN), Some(40)))
      case Quality => Some(Limit(Some(60 * YUAN), Some(2000)))
      case Sequence => Some(Limit(Some(60 * YUAN), Some(2000)))
      case _ => None
  }

  predicate ProbeAllowed(c: Contract) {
    !c.m3 || (PolicyOf(c).Some? && PolicyOf(c).value.maxProbe != 0 && c.probeEnabled && !c.probeCallsZero)
  }

  /** The output limit a request may claim under its run's contract. */
  function OutputLimit(c: Contract, maxTokens: int): Option<int64> {
    if c.m3 && PolicyOf(c).None? then None else
    var ceiling := if c.m3 then PolicyOf(c).value.maxOutput else 512;
    if 0 < c.maxOutputTokens <= ceiling && 0 < maxTokens <= c.maxOutputTokens then Some(maxTokens as int64) else None
  }

  predicate WholeWithin(v: Option<real>, limit: nat) {
    v.Some? ==> 0.0 <= v.value <= limit as real && v.value == v.value.Floor as real
  }

  /** A run's configuration may narrow the policy's stage limits, never widen them. */
  predicate StageLimitsValid(c: Contract) {
    && PolicyOf(c).Some?
    && WholeWithin(c.maxForeground, PolicyOf(c).value.maxForeground)
    && WholeWithin(c.maxBackground, PolicyOf(c).value.maxBackground)
    && (c.backgroundCost.Some? ==> c.backgroundCost.value >= 0)
    && (c.probeCost.Some? ==> c.probeCost.value >= 0)
  }

  function Min(a: int, b: int): int { if a < b then a else b }

  function NarrowCount(v: Option<real>, limit: nat): int { if v.Some? then v.value.Floor else limit }

  function NarrowMoney(v: Option<int>, limit: nat): int { if v.Some? then Min(limit, v.value) else limit }

  // ---------------------------------------------------------------------- groups

  predicate Paid(c: Call) { c.provider.Deepseek? }

  /** What a call counts for against money limits: its amount once known, its reservation until then. */
  function Occupied(c: Call): nat { if c.amount.Some? then c.amount.value else c.upper }

  predicate Overshoots(c: Call) { c.amount.Some? && c.amount.value > c.upper }

  /** The part of a call that its reservation foresaw, and the part it did not. */
  function Foreseen(c: Call): nat { if Overshoots(c) then c.upper else Occupied(c) }
  function Overshoot(c: Call): nat { if Overshoots(c) then c.amount.value - c.upper else 0 }

  /** Every set of calls that some limit bounds together. */
  datatype Group =
    | RunAll(run: Id) | RunForeground(run: Id) | RunBackground(run: Id) | RunProbe(run: Id)
    | JobAll(job: Id) | JobProbe(job: Id)
    | PaidIn(experiment: Experiment) | PaidProbe(experiment: Experiment) | PaidSub(sub: Subexperiment)
    | InSession(session: Id) | Project

  predicate Member(g: Group, c: Call) {
    match g
    case RunAll(run) => c.run == run
    case RunForeground(run) => c.run == run && c.stage.Answer?
    case RunBackground(run) => c.run == run && !c.stage.Answer?
    case RunProbe(run) => c.run == run && c.stage.Probe?
    case JobAll(job) => c.job == Some(job)
    case JobProbe(job) => c.job == Some(job) && c.stage.Probe?
    case PaidIn(e) => Paid(c) && c.experiment == e
    case PaidProbe(e) => Paid(c) && c.experiment == e && c.stage.Probe?
    case PaidSub(s) => Paid(c) && c.experiment.M3? && c.sub == s
    case InSession(d) => Paid(c) && c.session == Some(d)
    case Project => Paid(c)
  }

  function CountOf(g: Group): Call -> nat { (c: Call) => if Member(g, c) then 1 else 0 }
  function OccupiedOf(g: Group): Call -> nat { (c: Call) => if Member(g, c) then Occupied(c) else 0 }
  function ForeseenOf(g: Group): Call -> nat { (c: Call) => if Member(g, c) then Foreseen(c) else 0 }
  function OvershootOf(g: Group): Call -> nat { (c: Call) => if Member(g, c) then Overshoot(c) else 0 }
  function HeldOf(e: Experiment): Call -> nat {
    (c: Call) => if Member(PaidIn(e), c) && !c.state.Settled? then c.upper else 0
  }
  function KnownOf(e: Experiment): Call -> nat {
    (c: Call) => if Member(PaidIn(e), c) && c.state.Settled? then Occupied(c) else 0
  }

  function Count(db: Db, g: Group): nat { Total(db.calls, CountOf(g)) }
  function Spent(db: Db, g: Group): nat { Total(db.calls, OccupiedOf(g)) }

  // Reserved calls that occupy a request lane of a provider; paid calls occupy everyone's.
  function LaneOf(p: Provider, answer: bool): Call -> nat {
    (c: Call) => if (c.provider == p || Paid(c)) && c.state.Reserved? && c.stage.Answer? == answer then 1 else 0
  }

  function Lane(db: Db, p: Provider, answer: bool): nat { Total(db.calls, LaneOf(p, answer)) }

  // ----------------------------------------------------------------------- stuck

  /** A paid call that keeps its experiment halted. */
  predicate Stuck(e: Experiment, c: Call) {
    Paid(c) && c.experiment == e && (c.state.Unknown? || Overshoots(c))
  }

  predicate AnyStuck(calls: seq<Call>, e: Experiment) {
    exists i :: 0 <= i < |calls| && Stuck(e, calls[i])
  }

  predicate AnyUnresolvedPaid(calls: seq<Call>) {
    exists i :: 0 <= i < |calls| && Paid(calls[i]) && calls[i].state.Unknown?
  }

  // -------------------------------------------------------------- admission caps

  /** The contract itself is one the server can budget. */
  predicate RunBudgetValid(k: Contract) {
    && PolicyOf(k).Some? && 0 < k.costBudget <= PolicyOf(k).value.runCost
    && 0 < k.maxModelCalls <= PolicyOf(k).value.maxRun && k.cny
  }

  /** A diagnostic contract admits only stand-alone `other` calls of one fixed shape. */
  predicate DiagnosticShape(k: Contract, c: Call) {
    k.diagnostic ==>
      && PolicyOf(k).Some? && c.stage.Other? && c.job.None? && c.batch.None? && k.sub.CacheProtocol?
      && k.maxModelCalls == 3 && k.maxOutputTokens == PolicyOf(k).value.maxOutput
      && k.costBudget == PolicyOf(k).value.runCost
  }

  predicate Fits(db: Db, g: Group, limit: Limit, upper: nat) {
    && (limit.money.Some? ==> Spent(db, g) + upper <= limit.money.value)
    && (limit.count.Some? ==> Count(db, g) < limit.count.value)
  }

  function BackgroundLimit(k: Contract): Limit
    requires PolicyOf(k).Some?
  {
    Limit(Some(NarrowMoney(k.backgroundCost, PolicyOf(k).value.backgroundCost)),
          Some(NarrowCount(k.maxBackground, PolicyOf(k).value.maxBackground)))
  }

  function ProbeLimit(k: Contract): Limit
    requires PolicyOf(k).Some?
  {
    Limit(Some(NarrowMoney(k.probeCost, PolicyOf(k).value.probeCost)), Some(PolicyOf(k).value.maxProbe))
  }

  /** Stage limits of the run and, for a job's call, of the job. `c` is the row about to be inserted. */
  predicate StageCapsAllow(db: Db, k: Contract, c: Call) {
    k.m3 ==>
      && StageLimitsValid(k)
      && (c.stage.Answer? ==>
        Count(db, RunForeground(c.run)) < NarrowCount(k.maxForeground, PolicyOf(k).value.maxForeground))
      && (!c.stage.Answer? ==> Fits(db, RunBackground(c.run), BackgroundLimit(k), c.upper))
      && (c.stage.Probe? ==> Fits(db, RunProbe(c.run), ProbeLimit(k), c.upper))
      && (c.job.Some? ==> Fits(db, JobAll(c.job.value), BackgroundLimit(k), c.upper))
      && (c.job.Some? && c.stage.Probe? ==> Fits(db, JobProbe(c.job.value), ProbeLimit(k), c.upper))
  }

  predicate RunCapAllows(db: Db, k: Contract, c: Call) {
    Fits(db, RunAll(c.run), Limit(Some(k.costBudget), Some(k.maxModelCalls)), c.upper)
  }

  /** A live session's own limits, and the project total across every session and experiment. */
  predicate SessionAllows(db: Db, c: Call) {
    c.session.Some? ==>
      && c.session.value in db.sessions
      && db.opening + Spent(db, Project) + c.upper <= 100 * YUAN
      && Fits(db, InSession(c.session.value), SessionLimit(db, c.session.value), c.upper)
  }

  function SessionLimit(db: Db, d: Id): Limit {
    if d in db.sessions then Limit(Some(db.sessions[d].cap), Some(db.sessions[d].maxRequests)) else Limit(None, None)
  }

  /** The request lanes of the M3 experiment: one foreground and one background slot. */
  predicate LanesAllow(db: Db, c: Call) {
    && Lane(db, c.provider, true) + Lane(db, c.provider, false) < 2
    && Lane(db, c.provider, c.stage.Answer?) < 1
  }

  predicate M3BudgetAllows(db: Db, k: Contract, c: Call) {
    var b := db.budgets.m3;
    && RunBudgetValid(k) && DiagnosticShape(k, c) && !k.sub.NoSubexperiment?
    && (Paid(c) ==> !AnyUnresolvedPaid(db.calls))
    && LanesAllow(db, c)
    && (Paid(c) ==>
      && SessionAllows(db, c)
      && b.halted.None? && b.maxRequests <= 2000 && b.cap <= 100 * YUAN
      && b.attempted < Min(b.maxRequests, PolicyOf(k).value.maxRequests)
      && b.known + b.reserved + c.upper <= Min(b.cap, PolicyOf(k).value.globalCap)
      && SubexperimentRow(k.sub).Some? && SubexperimentPolicy(k).Some?
      && Fits(db, PaidSub(k.sub), Tighter(SubexperimentRow(k.sub).value, SubexperimentPolicy(k).value), c.upper)
      && (c.stage.Probe? ==> Spent(db, PaidProbe(M3)) + c.upper <= PolicyOf(k).value.globalProbeCap))
  }

  function Tighter(a: Limit, b: Limit): Limit
    requires a.money.Some? && a.count.Some? && b.money.Some? && b.count.Some?
  {
    Limit(Some(Min(a.money.value, b.money.value)), Some(Min(a.count.value, b.count.value)))
  }

  /** The earlier experiments run one paid call at a time, system-wide. */
  predicate LegacyBudgetAllows(db: Db, c: Call) {
    var b := db.budgets.Get(c.experiment);
    Paid(c) ==>
      && b.halted.None? && b.maxRequests <= 20 && b.cap <= YUAN && b.attempted < b.maxRequests
      && b.known + b.reserved + c.upper <= b.cap
      && (forall i :: 0 <= i < |db.calls| ==> !(Paid(db.calls[i]) && db.calls[i].state.Reserved?))
      && (c.stage.Probe? ==> Spent(db, PaidProbe(c.experiment)) + c.upper <= YUAN / 10)
  }

  predicate BudgetAllows(db: Db, k: Contract, c: Call) {
    if k.m3 then M3BudgetAllows(db, k, c) else LegacyBudgetAllows(db, c)
  }

  function ExperimentFor(k: Contract): Experiment { if k.m3 then M3 else if k.m2 then M2 else M1 }

  /** What the ledger alone demands of a row about to be inserted under contract k. */
  predicate LedgerAllows(db: Db, k: Contract, c: Call) {
    && StageCapsAllow(db, k, c) && RunCapAllows(db, k, c) && BudgetAllows(db, k, c)
    && Find(db.calls, c.attempt).None?
  }

  // ------------------------------------------------------------------- admission

  /** A paid call raises its experiment's reserve and attempt count. */
  function Reserve(bs: Budgets, c: Call): Budgets {
    if !Paid(c) then bs else
    var b := bs.Get(c.experiment);
    bs.Set(c.experiment, b.(reserved := b.reserved + c.upper, attempted := b.attempted + 1))
  }

  /** Insert an admitted call. */
  function Insert(db: Db, c: Call): Db {
    db.(calls := db.calls + [c], budgets := Reserve(db.budgets, c))
  }

  // ------------------------------------------------------------------ settlement

  datatype Verdict = Simulated | Free | Unresolved | Billed(amount: nat) | AmountInvalid

  function LimitOfCall(db: Db, c: Call): Option<int64> {
    if c.run in db.runs then OutputLimit(db.runs[c.run].contract, c.payload.maxTokens) else None
  }

  /** How a settlement record prices a reserved call. */
  function Judge(db: Db, c: Call, r: Record): Verdict {
    if c.provider.Mock? then Simulated else
    var limit := LimitOfCall(db, c);
    var invalid := c.experiment.M3? && r.status.Estimated? && (limit.None? || VerifiedCost(r, limit.value).None?);
    if ProvesNotDispatched(r, c.experiment) then Free
    else if invalid || r.amount.None? || !r.status.Estimated? || !r.cny || r.rawUsage.UsageAbsent?
           || r.rawUsage.UsageNull?
    then Unresolved
    else match AmountUnits(r.amount.value)
      case None => AmountInvalid
      case Some(v) => if v < 0 then AmountInvalid else Billed(v)
  }

  /** The budget row after a verdict on one of its reserved calls. */
  function Charge(b: Budget, upper: nat, v: Verdict): Budget {
    match v
    case Free => b.(reserved := b.reserved - upper)
    case Unresolved => b.(halted := Some(CostUnknown))
    case Billed(amount) =>
      b.(known := b.known + amount, reserved := b.reserved - upper,
         halted := if amount > upper then Some(CostExceededReservation) else b.halted)
    case _ => b
  }

  /** The call row after the verdict. Only a settled receipt carries a receipt time. */
  function Priced(c: Call, r: Record, v: Verdict, now: int): Call {
    match v
    case Unresolved => c.(state := Unknown, amount := None, record := Some(r), receivedAt := None)
    case Free => c.(state := Settled, amount := Some(0), record := Some(r), receivedAt := Some(now))
    case Billed(amount) => c.(state := Settled, amount := Some(amount), record := Some(r), receivedAt := Some(now))
    case Simulated => c.(state := Settled, amount := None, record := Some(r), receivedAt := Some(now))
    case AmountInvalid => c
  }

  function Price(db: Db, i: nat, r: Record): Db
    requires i < |db.calls|
  {
    var c := db.calls[i];
    var v := Judge(db, c, r);
    db.(calls := db.calls[i := Priced(c, r, v, db.now)],
        budgets := db.budgets.Set(c.experiment, Charge(db.budgets.Get(c.experiment), c.upper, v)))
  }

  // ------------------------------------------------------------------ owner loss

  /** Calls whose owner is lost keep their count and reserve but become UNKNOWN; every experiment with
      an unknown paid call in scope is halted unless it already was. */
  function MarkLost(db: Db, lost: Call -> bool, scope: Call -> bool): Db {
    var calls := seq(|db.calls|, i requires 0 <= i < |db.calls| =>
      if lost(db.calls[i]) && db.calls[i].state.Reserved? then db.calls[i].(state := Unknown) else db.calls[i]);
    var b := db.budgets;
    db.(calls := calls,
        budgets := Budgets(HaltLost(calls, scope, M1, b.m1), HaltLost(calls, scope, M2, b.m2),
                           HaltLost(calls, scope, M3, b.m3)))
  }

  function HaltLost(calls: seq<Call>, scope: Call -> bool, e: Experiment, b: Budget): Budget {
    if b.halted.None?
       && exists i ::
            0 <= i < |calls| && scope(calls[i]) && Paid(calls[i]) && calls[i].state.Unknown? && calls[i].experiment == e
    then b.(halted := Some(OwnerLoss)) else b
  }

  // -------------------------------------------------------------- reconciliation

  /** The conditions under which later evidence prices an UNKNOWN attempt, and the price it proves. */
  function EvidenceAmount(db: Db, c: Call, kind: EvidenceKind, e: Record): (amount: Option<nat>)
    ensures amount.Some? && kind.LateUsage? ==>
              LimitOfCall(db, c).Some? && VerifiedCost(e, LimitOfCall(db, c).value) == Some(amount.value)
    ensures amount.Some? && kind.NeverDispatched? ==> ProvesNotDispatched(e, M3) && c.record == Some(e)
  {
    if !EvidenceBinds(c, e) then None else
    match kind
    case NeverDispatched =>
      if && c.record == Some(e) && ProvesNotDispatched(e, M3) && e.dispatched == Some(false)
         && e.dispatchAt.None? && e.dispatchMonotonic.None? && e.httpStatus == 0
         && e.requestId.None? && e.completionId.None?
         && (e.response.ResponseNull? || e.response.ResponseAbsent?)
      then Some(0) else None
    case LateUsage =>
      var limit := LimitOfCall(db, c);
      if && e.dispatched == Some(true) && 200 <= e.httpStatus < 300 && e.requestId.Some? && e.completionId.Some?
         && e.response.Response? && e.response.id == e.completionId && e.response.modelMatches
         && e.response.usage == e.rawUsage && limit.Some?
      then VerifiedCost(e, limit.value) else None
  }

  /** The evidence names this very attempt, its frozen request, snapshot and reservation, and
      contradicts nothing that was recorded before. */
  predicate EvidenceBinds(c: Call, e: Record) {
    && e.attempt == Some(c.attempt) && e.run == Some(c.run) && e.stage == Some(c.stage) && e.deepseekFlash
    && e.snapshot == Some(c.snapshot) && e.simulated == Some(false) && e.retries == Some(0)
    && e.dispatched.Some? && e.started.Some? && (e.finished.Some? && e.finished.value >= e.started.value)
    && e.wire == Some(c.payload.content) && e.wireSha == c.payload.content && e.payloadSha == c.payload.content
    && e.claimedUpper == Some(c.upper)
    && (c.record.Some? ==>
      var prior := c.record.value;
      && (prior.attempt.Some? ==> prior.attempt == Some(c.attempt)) && (prior.run.Some? ==> prior.run == Some(c.run))
      && (prior.requestId.Some? ==> prior.requestId == e.requestId)
      && (prior.completionId.Some? ==> prior.completionId == e.completionId)
      && (prior.started.Some? ==> prior.started == e.started)
      && (prior.dispatched.Some? ==> prior.dispatched == e.dispatched))
  }

  /** The two queries that forbid lifting a halt: an unknown paid call, or any call over its reservation. */
  predicate KeepsHalt(e: Experiment, c: Call) {
    c.experiment == e && ((Paid(c) && c.state.Unknown?) || Overshoots(c))
  }

  /** Halts that a resolved cost may lift, and when it lifts them. */
  function ClearResolvedHalt(calls: seq<Call>, e: Experiment, b: Budget): Budget {
    if && (b.halted == Some(CostUnknown) || b.halted == Some(OwnerLoss)) && b.known + b.reserved <= b.cap
       && !exists i :: 0 <= i < |calls| && KeepsHalt(e, calls[i])
    then b.(halted := None) else b
  }

  function ChargeLate(b: Budget, upper: nat, amount: int): Budget {
    b.(known := b.known + amount, reserved := b.reserved - upper,
       halted := if amount > upper || b.known + b.reserved + amount - upper > b.cap then Some(CostExceededReservation)
                   else b.halted)
  }

  /** Apply accepted evidence: price the call, move the reserve, keep the original record, write the audit. */
  function Resolve(db: Db, i: nat, kind: EvidenceKind, e: Record, amount: nat): Db
    requires i < |db.calls|
  {
    var c := db.calls[i];
    var calls := db.calls[i := c.(state := Settled, amount := Some(amount))];
    var charged := ChargeLate(db.budgets.Get(M3), c.upper, amount);
    db.(calls := calls, budgets := db.budgets.Set(M3, ClearResolvedHalt(calls, M3, charged)),
        audits := db.audits[c.attempt := Audit(kind, e, amount)])
  }

  /** The hourly billing export left nothing over: settle the one unresolved M2 call at zero. */
  function ResolveAtZero(db: Db, i: nat): Db
    requires i < |db.calls|
  {
    var c := db.calls[i];
    var calls := db.calls[i := c.(state := Settled, amount := Some(0))];
    var b := db.budgets.m2;
    var open := exists k :: 0 <= k < |calls| && Paid(calls[k]) && calls[k].experiment.M2? && !calls[k].state.Settled?;
    db.(calls := calls,
        budgets := db.budgets.(m2 := b.(reserved := b.reserved - c.upper, halted := if open then b.halted else None)))
  }

  predicate ZeroChargeApplies(db: Db, i: nat)
    requires i < |db.calls|
  {
    var c := db.calls[i];
    && Paid(c) && c.experiment.M2? && c.state.Unknown? && c.record.Some? && c.record.value.httpStatus == 400
    && c.record.value.dispatched == Some(true) && c.record.value.rawUsage.UsageNull? && c.record.value.started.Some?
    && (db.budgets.m2.halted == Some(CostUnknown) || db.budgets.m2.halted == Some(OwnerLoss))
    && (forall k :: 0 <= k < |db.calls| ==> !(Paid(db.calls[k]) && db.calls[k].state.Reserved?))
    && db.budgets.m2.reserved >= c.upper
  }
}
