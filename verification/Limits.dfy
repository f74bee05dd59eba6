/** The limits of the ledger as numbers: what a run's contract, the policies and the stored rows allow, told in their
    own fields and summed over the call rows directly. */
module Limits {
  import opened Types
  import opened Table
  import opened Ledger
  import opened LedgerLaws
  import opened Jobs
  import opened Runs
  import Spending

  // ------------------------------------------------------------------------ sums

  /** A call costs its amount once that is known, and its reservation until then. */
  function Cost(c: Call): nat { if c.amount.Some? then c.amount.value else c.upper }

  function CostWhere(p: Call -> bool): Call -> nat { (c: Call) => if p(c) then Cost(c) else 0 }
  function OneWhere(p: Call -> bool): Call -> nat { (c: Call) => if p(c) then 1 else 0 }
  function ExcessWhere(p: Call -> bool): Call -> nat {
    (c: Call) => if p(c) && c.amount.Some? && c.amount.value > c.upper then c.amount.value - c.upper else 0
  }

  function Money(calls: seq<Call>, p: Call -> bool): nat { Total(calls, CostWhere(p)) }
  function Number(calls: seq<Call>, p: Call -> bool): nat { Total(calls, OneWhere(p)) }

  /** By how much settled calls cost more than was reserved for them. */
  function Excess(calls: seq<Call>, p: Call -> bool): nat { Total(calls, ExcessWhere(p)) }

  function OfRun(r: Id): Call -> bool { (c: Call) => c.run == r }
  function AnswersOf(r: Id): Call -> bool { (c: Call) => c.run == r && c.stage.Answer? }
  function BackgroundOf(r: Id): Call -> bool { (c: Call) => c.run == r && !c.stage.Answer? }
  function ProbesOf(r: Id): Call -> bool { (c: Call) => c.run == r && c.stage.Probe? }
  function OfJob(j: Id): Call -> bool { (c: Call) => c.job == Some(j) }
  function ProbesOfJob(j: Id): Call -> bool { (c: Call) => c.job == Some(j) && c.stage.Probe? }
  function PaidOf(e: Experiment): Call -> bool { (c: Call) => c.provider.Deepseek? && c.experiment == e }
  function PaidProbesOf(e: Experiment): Call -> bool {
    (c: Call) => c.provider.Deepseek? && c.experiment == e && c.stage.Probe?
  }
  function PaidUnder(s: Subexperiment): Call -> bool {
    (c: Call) => c.provider.Deepseek? && c.experiment.M3? && c.sub == s
  }
  function PaidInSession(d: Id): Call -> bool { (c: Call) => c.provider.Deepseek? && c.session == Some(d) }
  function EveryPaid(): Call -> bool { (c: Call) => c.provider.Deepseek? }

  function Chosen(g: Group): Call -> bool {
    match g
    case RunAll(run) => OfRun(run)
    case RunForeground(run) => AnswersOf(run)
    case RunBackground(run) => BackgroundOf(run)
    case RunProbe(run) => ProbesOf(run)
    case JobAll(job) => OfJob(job)
    case JobProbe(job) => ProbesOfJob(job)
    case PaidIn(e) => PaidOf(e)
    case PaidProbe(e) => PaidProbesOf(e)
    case PaidSub(s) => PaidUnder(s)
    case InSession(d) => PaidInSession(d)
    case Project => EveryPaid()
  }

  lemma SumsOfGroup(calls: seq<Call>, g: Group)
    ensures Money(calls, Chosen(g)) == Total(calls, OccupiedOf(g))
    ensures Number(calls, Chosen(g)) == Total(calls, CountOf(g))
    ensures Excess(calls, Chosen(g)) == Total(calls, OvershootOf(g))
  {
    TotalSame(calls, calls, CostWhere(Chosen(g)), OccupiedOf(g));
    TotalSame(calls, calls, OneWhere(Chosen(g)), CountOf(g));
    TotalSame(calls, calls, ExcessWhere(Chosen(g)), OvershootOf(g));
  }

  // ---------------------------------------------------------------- stage budgets

  /** What the policies grant a run's background and its probes. */
  function BackgroundMoney(k: Contract): nat { if k.policy.PolicyV2? then YUAN else YUAN / 5 }
  function ProbeMoney(k: Contract): nat {
    if k.sub.CacheProtocol? || k.diagnostic then 0 else if k.policy.PolicyV2? then YUAN / 2 else YUAN / 10
  }
  function ProbeCalls(k: Contract): nat { if k.sub.CacheProtocol? || k.diagnostic then 0 else 2 }

  /** Within what the policy grants and, if the contract states less, within that. */
  predicate MoneyFits(spent: int, granted: int, own: Option<int>) {
    spent <= granted && (own.Some? ==> spent <= own.value)
  }

  predicate CountFits(n: nat, granted: nat, own: Option<real>) {
    n <= granted && (own.Some? ==> n as real <= own.value)
  }

  /** A contract states its own counts as whole numbers within the policy's, and no negative money. */
  predicate OwnLimitsMakeSense(k: Contract) {
    && (k.maxForeground.Some? ==> Whole(k.maxForeground.value) && 0.0 <= k.maxForeground.value <= 3.0)
    && (k.maxBackground.Some? ==> Whole(k.maxBackground.value) && 0.0 <= k.maxBackground.value <= 3.0)
    && (k.backgroundCost.Some? ==> k.backgroundCost.value >= 0) && (k.probeCost.Some? ==> k.probeCost.value >= 0)
  }

  predicate Whole(x: real) { x == x.Floor as real }

  /** The run's and the job's calls of this kind, with the new one, stay within their stage's budget. */
  predicate BackgroundRoom(calls: seq<Call>, k: Contract, p: Call -> bool, upper: nat) {
    && CountFits(Number(calls, p) + 1, 3, k.maxBackground)
    && MoneyFits(Money(calls, p) + upper, BackgroundMoney(k), k.backgroundCost)
  }

  predicate ProbeRoom(calls: seq<Call>, k: Contract, p: Call -> bool, upper: nat) {
    Number(calls, p) + 1 <= ProbeCalls(k) && MoneyFits(Money(calls, p) + upper, ProbeMoney(k), k.probeCost)
  }

  /** The stage budgets of the third experiment refuse exactly a call for which the policy, or the contract's own lower
      figure, has no room: in the run's stage, and for a job's call in the job. */
  lemma StageBudgetsInNumbers(db: Db, k: Contract, c: Call)
    requires k.m3
    ensures StageCapsAllow(db, k, c) <==>
            && !k.policy.PolicyUnsupported? && OwnLimitsMakeSense(k)
            && (c.stage.Answer? ==> CountFits(Number(db.calls, AnswersOf(c.run)) + 1, 3, k.maxForeground))
            && (!c.stage.Answer? ==> BackgroundRoom(db.calls, k, BackgroundOf(c.run), c.upper))
            && (c.stage.Probe? ==> ProbeRoom(db.calls, k, ProbesOf(c.run), c.upper))
            && (c.job.Some? ==> BackgroundRoom(db.calls, k, OfJob(c.job.value), c.upper))
            && (c.job.Some? && c.stage.Probe? ==> ProbeRoom(db.calls, k, ProbesOfJob(c.job.value), c.upper))
  {
    OwnLimitsAreValid(k);
    if StageLimitsValid(k) {
      AnswerRoomIsFit(db, k, c.run);
      BackgroundRoomIsFit(db, k, RunBackground(c.run), c.upper);
      ProbeRoomIsFit(db, k, RunProbe(c.run), c.upper);
      if c.job.Some? {
        BackgroundRoomIsFit(db, k, JobAll(c.job.value), c.upper);
        ProbeRoomIsFit(db, k, JobProbe(c.job.value), c.upper);
      }
    }
  }

  lemma OwnLimitsAreValid(k: Contract)
    requires k.m3
    ensures StageLimitsValid(k) <==> !k.policy.PolicyUnsupported? && OwnLimitsMakeSense(k)
  {
  }

  lemma AnswerRoomIsFit(db: Db, k: Contract, r: Id)
    requires k.m3 && StageLimitsValid(k)
    ensures Count(db, RunForeground(r)) < NarrowCount(k.maxForeground, PolicyOf(k).value.maxForeground)
            <==> CountFits(Number(db.calls, AnswersOf(r)) + 1, 3, k.maxForeground)
  {
    SumsOfGroup(db.calls, RunForeground(r));
  }

  lemma BackgroundRoomIsFit(db: Db, k: Contract, g: Group, upper: nat)
    requires k.m3 && StageLimitsValid(k)
    ensures Fits(db, g, BackgroundLimit(k), upper) <==> BackgroundRoom(db.calls, k, Chosen(g), upper)
  {
    SumsOfGroup(db.calls, g);
  }

  lemma ProbeRoomIsFit(db: Db, k: Contract, g: Group, upper: nat)
    requires k.m3 && StageLimitsValid(k)
    ensures Fits(db, g, Ledger.ProbeLimit(k), upper) <==> ProbeRoom(db.calls, k, Chosen(g), upper)
  {
    SumsOfGroup(db.calls, g);
  }

  /** After an accepted admission of a run of the third experiment, its background calls, its probes, and those of the
      job, occupy no more than the policy grants and no more than the contract states. */
  lemma AdmissionKeepsStageBudgets(db: Db, w: Caller, q: Request)
    requires Accepts(db, OfWorker(DoReserve(w, q))) && db.runs[w.run].contract.m3 && !q.stage.Answer?
    ensures var k, calls := db.runs[w.run].contract, Apply(db, OfWorker(DoReserve(w, q))).calls;
            && MoneyFits(Money(calls, BackgroundOf(w.run)), BackgroundMoney(k), k.backgroundCost)
            && (w.job.Some? ==> MoneyFits(Money(calls, OfJob(w.job.value)), BackgroundMoney(k), k.backgroundCost))
            && (q.stage.Probe? ==> MoneyFits(Money(calls, ProbesOf(w.run)), ProbeMoney(k), k.probeCost))
            && (q.stage.Probe? && w.job.Some? ==>
                  MoneyFits(Money(calls, ProbesOfJob(w.job.value)), ProbeMoney(k), k.probeCost))
  {
    var k, c := db.runs[w.run].contract, RowFor(db, w, q);
    StageBudgetsInNumbers(db, k, c);
    RoomIsKept(db.calls, c, BackgroundOf(w.run), BackgroundMoney(k), k.backgroundCost);
    RoomIsKept(db.calls, c, ProbesOf(w.run), ProbeMoney(k), k.probeCost);
    if w.job.Some? {
      RoomIsKept(db.calls, c, OfJob(w.job.value), BackgroundMoney(k), k.backgroundCost);
      RoomIsKept(db.calls, c, ProbesOfJob(w.job.value), ProbeMoney(k), k.probeCost);
    }
  }

  lemma RoomIsKept(calls: seq<Call>, c: Call, p: Call -> bool, granted: int, own: Option<int>)
    requires c.amount.None?
    ensures MoneyFits(Money(calls, p) + c.upper, granted, own) ==> MoneyFits(Money(calls + [c], p), granted, own)
  {
    TotalAppend(calls, c, CostWhere(p));
    assert Cost(c) == c.upper;
    assert CostWhere(p)(c) == if p(c) then Cost(c) else 0;
  }

  // ----------------------------------------------------------------- over any run

  /** What calls of this kind cost, less the excess of the settled ones over their reservations. */
  function Foreseen(calls: seq<Call>, p: Call -> bool): int { Money(calls, p) - Excess(calls, p) }

  lemma StandingLimitHolds(db: Db, g: Group)
    requires Sound(db) && Number(db.calls, Chosen(g)) > 0
    ensures var limit := StandingLimit(db, g);
            && (limit.money.Some? ==> Foreseen(db.calls, Chosen(g)) <= limit.money.value)
            && (limit.count.Some? ==> Number(db.calls, Chosen(g)) <= limit.count.value)
  {
    SumsOfGroup(db.calls, g);
    Spending.EveryCapHoldsTogether(db, g);
  }

  lemma ACallIsStaged(db: Db, g: Group, r: Id)
    requires Sound(db) && r in db.runs && db.runs[r].contract.m3 && Number(db.calls, Chosen(g)) > 0
    requires forall i :: 0 <= i < |db.calls| && Chosen(g)(db.calls[i]) ==> db.calls[i].run == r
    ensures StagedRun(db, r)
  {
    TotalPositive(db.calls, OneWhere(Chosen(g)));
    var i :| 0 <= i < |db.calls| && OneWhere(Chosen(g))(db.calls[i]) > 0;
    assert RowOk(db, db.calls[i]);
  }

  predicate BackgroundHolds(calls: seq<Call>, k: Contract, p: Call -> bool) {
    Number(calls, p) > 0 ==>
      CountFits(Number(calls, p), 3, k.maxBackground)
      && MoneyFits(Foreseen(calls, p), BackgroundMoney(k), k.backgroundCost)
  }

  predicate ProbesHold(calls: seq<Call>, k: Contract, p: Call -> bool) {
    Number(calls, p) > 0 ==>
      Number(calls, p) <= ProbeCalls(k) && MoneyFits(Foreseen(calls, p), ProbeMoney(k), k.probeCost)
  }

  lemma NarrowedBackground(k: Contract, number: nat, spent: int)
    requires k.m3 && StageLimitsValid(k)
    requires spent <= BackgroundLimit(k).money.value && number <= BackgroundLimit(k).count.value
    ensures CountFits(number, 3, k.maxBackground) && MoneyFits(spent, BackgroundMoney(k), k.backgroundCost)
  {
  }

  lemma NarrowedProbes(k: Contract, number: nat, spent: int)
    requires k.m3 && StageLimitsValid(k)
    requires spent <= Ledger.ProbeLimit(k).money.value && number <= Ledger.ProbeLimit(k).count.value
    ensures number <= ProbeCalls(k) && MoneyFits(spent, ProbeMoney(k), k.probeCost)
  {
  }

  /** The group is bounded as the background of run r, or of one of its jobs. */
  predicate InBackground(db: Db, g: Group, r: Id) {
    g == RunBackground(r) || (g.JobAll? && g.job in db.jobs && db.jobs[g.job].run == r)
  }

  predicate InProbes(db: Db, g: Group, r: Id) {
    g == RunProbe(r) || (g.JobProbe? && g.job in db.jobs && db.jobs[g.job].run == r)
  }

  lemma StagedLimits(db: Db, g: Group, r: Id)
    requires StagedRun(db, r)
    ensures InBackground(db, g, r) ==> StandingLimit(db, g) == BackgroundLimit(db.runs[r].contract)
    ensures InProbes(db, g, r) ==> StandingLimit(db, g) == Ledger.ProbeLimit(db.runs[r].contract)
  {
  }

  lemma BackgroundGroupHolds(db: Db, g: Group, r: Id)
    requires Sound(db) && r in db.runs && db.runs[r].contract.m3 && InBackground(db, g, r)
    ensures BackgroundHolds(db.calls, db.runs[r].contract, Chosen(g))
  {
    if Number(db.calls, Chosen(g)) > 0 {
      MembersAreOfRun(db, g, r);
      ACallIsStaged(db, g, r);
      StagedLimits(db, g, r);
      StandingLimitHolds(db, g);
      NarrowedBackground(db.runs[r].contract, Number(db.calls, Chosen(g)), Foreseen(db.calls, Chosen(g)));
    }
  }

  lemma ProbeGroupHolds(db: Db, g: Group, r: Id)
    requires Sound(db) && r in db.runs && db.runs[r].contract.m3 && InProbes(db, g, r)
    ensures ProbesHold(db.calls, db.runs[r].contract, Chosen(g))
  {
    if Number(db.calls, Chosen(g)) > 0 {
      MembersAreOfRun(db, g, r);
      ACallIsStaged(db, g, r);
      StagedLimits(db, g, r);
      StandingLimitHolds(db, g);
      NarrowedProbes(db.runs[r].contract, Number(db.calls, Chosen(g)), Foreseen(db.calls, Chosen(g)));
    }
  }

  lemma MembersAreOfRun(db: Db, g: Group, r: Id)
    requires Sound(db)
    requires InBackground(db, g, r) || InProbes(db, g, r)
    ensures forall i :: 0 <= i < |db.calls| && Chosen(g)(db.calls[i]) ==> db.calls[i].run == r
  {
    forall i | 0 <= i < |db.calls| && Chosen(g)(db.calls[i]) ensures db.calls[i].run == r {
      assert RowOk(db, db.calls[i]);
    }
  }

  /** In every sound ledger, hence in every reachable one, the stage budgets of a run of the third experiment hold, up
      to the excess of settled calls over their reservations. */
  lemma StageBudgetsHold(db: Db, r: Id)
    requires Sound(db) && r in db.runs && db.runs[r].contract.m3
    ensures BackgroundHolds(db.calls, db.runs[r].contract, BackgroundOf(r))
    ensures ProbesHold(db.calls, db.runs[r].contract, ProbesOf(r))
  {
    assert Chosen(RunBackground(r)) == BackgroundOf(r) && Chosen(RunProbe(r)) == ProbesOf(r);
    BackgroundGroupHolds(db, RunBackground(r), r);
    ProbeGroupHolds(db, RunProbe(r), r);
  }

  /** And so do those of each of its jobs. */
  lemma JobBudgetsHold(db: Db, j: Id)
    requires Sound(db) && j in db.jobs && db.jobs[j].run in db.runs && db.runs[db.jobs[j].run].contract.m3
    ensures BackgroundHolds(db.calls, db.runs[db.jobs[j].run].contract, OfJob(j))
    ensures ProbesHold(db.calls, db.runs[db.jobs[j].run].contract, ProbesOfJob(j))
  {
    assert Chosen(JobAll(j)) == OfJob(j) && Chosen(JobProbe(j)) == ProbesOfJob(j);
    BackgroundGroupHolds(db, JobAll(j), db.jobs[j].run);
    ProbeGroupHolds(db, JobProbe(j), db.jobs[j].run);
  }

  /** The other limits of every sound ledger, as numbers: a run's own, an experiment's, the probes', a subexperiment's
      and a live session's. */
  lemma RunBudgetHolds(db: Db, r: Id)
    requires Sound(db) && r in db.runs && Number(db.calls, OfRun(r)) > 0
    ensures Foreseen(db.calls, OfRun(r)) <= db.runs[r].contract.costBudget
    ensures Number(db.calls, OfRun(r)) <= db.runs[r].contract.maxModelCalls
  {
    StandingLimitHolds(db, RunAll(r));
  }

  lemma ExperimentBudgetHolds(db: Db, e: Experiment)
    requires Sound(db)
    ensures Number(db.calls, PaidOf(e)) > 0 ==>
              Foreseen(db.calls, PaidOf(e)) <= db.budgets.Get(e).cap
              && Number(db.calls, PaidOf(e)) <= db.budgets.Get(e).maxRequests
    ensures Number(db.calls, PaidProbesOf(e)) > 0 ==>
              Foreseen(db.calls, PaidProbesOf(e)) <= if e.M3? then 10 * YUAN else YUAN / 10
  {
    if Number(db.calls, PaidOf(e)) > 0 { StandingLimitHolds(db, PaidIn(e)); }
    if Number(db.calls, PaidProbesOf(e)) > 0 { StandingLimitHolds(db, PaidProbe(e)); }
  }

  lemma SubexperimentBudgetHolds(db: Db, s: Subexperiment)
    requires Sound(db) && Number(db.calls, PaidUnder(s)) > 0
    ensures s.CacheProtocol? ==>
              Foreseen(db.calls, PaidUnder(s)) <= 20 * YUAN && Number(db.calls, PaidUnder(s)) <= 200
    ensures s.Quality? ==>
              Foreseen(db.calls, PaidUnder(s)) <= 50 * YUAN && Number(db.calls, PaidUnder(s)) <= 1000
    ensures s.Sequence? ==>
              Foreseen(db.calls, PaidUnder(s)) <= 30 * YUAN && Number(db.calls, PaidUnder(s)) <= 800
  {
    StandingLimitHolds(db, PaidSub(s));
  }

  lemma SessionBudgetHolds(db: Db, d: Id)
    requires Sound(db) && d in db.sessions && Number(db.calls, PaidInSession(d)) > 0
    ensures Foreseen(db.calls, PaidInSession(d)) <= db.sessions[d].cap
    ensures Number(db.calls, PaidInSession(d)) <= db.sessions[d].maxRequests
  {
    StandingLimitHolds(db, InSession(d));
  }

  /** Whenever the latest paid call was admitted under a session, the whole project is within 100 CNY. */
  lemma ProjectBudgetHolds(db: Db, i: nat)
    requires Sound(db) && i < |db.calls| && db.calls[i].provider.Deepseek? && db.calls[i].session.Some?
    requires forall k :: i < k < |db.calls| ==> !db.calls[k].provider.Deepseek?
    ensures db.opening + Foreseen(db.calls, EveryPaid()) <= 100 * YUAN
  {
    TotalPositive(db.calls, OneWhere(EveryPaid()));
    assert OneWhere(EveryPaid())(db.calls[i]) > 0;
    OnlyLastPaid(db, i);
    StandingLimitHolds(db, Project);
  }

  lemma OnlyLastPaid(db: Db, i: nat)
    requires i < |db.calls| && db.calls[i].provider.Deepseek? && db.calls[i].session.Some?
    requires forall k :: i < k < |db.calls| ==> !db.calls[k].provider.Deepseek?
    ensures ReleasedLast(db)
  {
  }

  // -------------------------------------------------------------- paid admissions

  function OpenOf(p: Provider, answer: bool): Call -> bool {
    (c: Call) => (c.provider == p || c.provider.Deepseek?) && c.state.Reserved? && c.stage.Answer? == answer
  }

  /** One lane for answers and one for everything else, and never more than two requests in flight. */
  predicate LaneFree(calls: seq<Call>, c: Call) {
    && Number(calls, OpenOf(c.provider, c.stage.Answer?)) == 0
    && Number(calls, OpenOf(c.provider, !c.stage.Answer?)) <= 1
  }

  lemma LanesInNumbers(db: Db, c: Call)
    ensures LanesAllow(db, c) <==> LaneFree(db.calls, c)
  {
    TotalSame(db.calls, db.calls, OneWhere(OpenOf(c.provider, true)), LaneOf(c.provider, true));
    TotalSame(db.calls, db.calls, OneWhere(OpenOf(c.provider, false)), LaneOf(c.provider, false));
  }

  /** A contract whose budget the server accepts; a diagnostic one has one fixed shape. */
  predicate ContractInNumbers(k: Contract, c: Call) {
    && !k.policy.PolicyUnsupported? && k.cny && 0 < k.maxModelCalls <= 6
    && 0 < k.costBudget <= (if k.policy.PolicyV2? then 2 * YUAN else 30 * YUAN / 100)
    && (k.diagnostic ==>
          && c.stage.Other? && c.job.None? && c.batch.None? && k.sub.CacheProtocol? && k.maxModelCalls == 3
          && k.maxOutputTokens == (if k.policy.PolicyV2? then 2048 else 512)
          && k.costBudget == (if k.policy.PolicyV2? then 2 * YUAN else 30 * YUAN / 100))
  }

  /** What a subexperiment may spend and how often it may call, by its stored row and by the selected policy. */
  predicate SubexperimentRoom(money: int, number: int, k: Contract) {
    match k.sub
    case CacheProtocol =>
      money <= 20 * YUAN && number <= 200 && (k.policy.PolicyV2? || (money <= 2 * YUAN && number <= 40))
    case Quality =>
      money <= 50 * YUAN && number <= 1000 && (k.policy.PolicyV2? || (money <= 60 * YUAN && number <= 2000))
    case Sequence =>
      money <= 30 * YUAN && number <= 800 && (k.policy.PolicyV2? || (money <= 60 * YUAN && number <= 2000))
    case _ => false
  }

  /** A live session's own limits, and the project's. */
  predicate SessionRoom(db: Db, c: Call) {
    c.session.Some? ==>
      && c.session.value in db.sessions
      && db.opening + Money(db.calls, EveryPaid()) + c.upper <= 100 * YUAN
      && Money(db.calls, PaidInSession(c.session.value)) + c.upper <= db.sessions[c.session.value].cap
      && Number(db.calls, PaidInSession(c.session.value)) + 1 <= db.sessions[c.session.value].maxRequests
  }

  predicate ExperimentRoom(b: Budget, k: Contract, upper: nat) {
    && b.halted.None? && b.maxRequests <= 2000 && b.cap <= 100 * YUAN
    && b.attempted + 1 <= b.maxRequests
    && b.known + b.reserved + upper <= b.cap
    && (k.policy.PolicyV2? || b.known + b.reserved + upper <= 60 * YUAN)
  }

  /** The experiment's own admission of a paid call accepts exactly what its numbers allow. */
  lemma PaidAdmissionInNumbers(db: Db, k: Contract, c: Call)
    requires k.m3 && c.provider.Deepseek? && c.experiment.M3?
    ensures M3BudgetAllows(db, k, c) <==>
            && ContractInNumbers(k, c)
            && (forall i :: 0 <= i < |db.calls| ==> !(db.calls[i].provider.Deepseek? && db.calls[i].state.Unknown?))
            && LaneFree(db.calls, c) && SessionRoom(db, c) && ExperimentRoom(db.budgets.m3, k, c.upper)
            && SubexperimentRoom(Money(db.calls, PaidUnder(k.sub)) + c.upper, Number(db.calls, PaidUnder(k.sub)) + 1, k)
            && (c.stage.Probe? ==> Money(db.calls, PaidProbesOf(M3)) + c.upper
                                   <= if k.policy.PolicyV2? then 10 * YUAN else 6 * YUAN)
  {
    LanesInNumbers(db, c);
    ContractIsValid(k, c);
    SessionIsRoom(db, c);
    SumsOfGroup(db.calls, PaidSub(k.sub));
    SumsOfGroup(db.calls, PaidProbe(M3));
  }

  lemma ContractIsValid(k: Contract, c: Call)
    requires k.m3
    ensures RunBudgetValid(k) && DiagnosticShape(k, c) <==> ContractInNumbers(k, c)
  {
  }

  lemma SessionIsRoom(db: Db, c: Call)
    ensures SessionAllows(db, c) <==> SessionRoom(db, c)
  {
    SumsOfGroup(db.calls, Project);
    if c.session.Some? { SumsOfGroup(db.calls, InSession(c.session.value)); }
  }

  /** A request's output limit: what it asks for, within its contract's, within the policy's. */
  lemma OutputInNumbers(k: Contract, maxTokens: int)
    ensures OutputLimit(k, maxTokens).Some? <==>
            && 0 < maxTokens <= k.maxOutputTokens && !(k.m3 && k.policy.PolicyUnsupported?)
            && k.maxOutputTokens <= (if k.m3 && k.policy.PolicyV2? then 2048 else 512)
    ensures OutputLimit(k, maxTokens).Some? ==> OutputLimit(k, maxTokens).value as int == maxTokens
  {
  }
}
