/** HOT dispatch over whole runs: observations, requests, reservations, dispatches and every other transaction in
    any order, on clocks that run at the same rate but need not agree. */
module HotRuns {
  import opened Types
  import opened LedgerLaws
  import opened Settlement
  import opened Jobs
  import opened JobLaws
  import opened Runs
  import opened HotWindow
  import Safety

  datatype World = World(db: Db, decisions: seq<Decision>, flights: map<Id, Flight>, read: Reader)

  datatype Event =
    | Transact(s: Step)
    | Observed(w: Caller, id: Id, calibration: Id, configured: bool, history: seq<Call>, row: nat)
    | Prepare(w: Caller, q: Request, evidence: Option<Id>, hotPolicy: bool, skew: int)
    | Admitted(attempt: Id, history: seq<Call>, configured: bool)
    | Dispatch(attempt: Id)

  function Check(v: World, f: Flight, history: seq<Call>, configured: bool): HotCheck {
    ForReserve(v.read, v.db, v.decisions, f.w, f.q, f.ask.evidence, history, configured)
  }

  /** The reservation step of a flight; the check's answer is the request's `hot` condition. */
  function Reservation(v: World, f: Flight, history: seq<Call>, configured: bool): Step {
    OfWorker(DoReserve(f.w, f.q.(hot := Check(v, f, history, configured).Granted?)))
  }

  ghost predicate Possible(v: World, e: Event) {
    match e
    case Transact(s) => !(s.OfWorker? && s.x.DoReserve?)
    case Observed(w, id, _, configured, history, row) =>
      && FindId(v.decisions, id).None? && CanObserve(v.read, v.db, w, configured, history, Candidate(row))
      && History(v.db.calls, v.db.jobs[w.job.value].prefix, v.db.runs[w.run].provider, v.db.now, history)
    case Prepare(_, q, _, _, _) => q.attempt !in v.flights
    case Admitted(a, history, configured) =>
      && a in v.flights && !v.flights[a].admitted
      && var f := v.flights[a];
      && f.q.attempt == a && f.w.run in v.db.runs && !Check(v, f, history, configured).Denied?
      && Accepts(v.db, Reservation(v, f, history, configured))
    case Dispatch(a) =>
      a in v.flights && v.flights[a].admitted && v.flights[a].sentAt.None?
        && MayDispatch(v.flights[a].ask, v.db.now + v.flights[a].skew)
  }

  function Admit(v: World, a: Id, history: seq<Call>, configured: bool): World
    requires a in v.flights && v.flights[a].w.run in v.db.runs
  {
    var f := v.flights[a];
    var check := Check(v, f, history, configured);
    v.(db := Apply(v.db, Reservation(v, f, history, configured)),
       flights := v.flights[a := Cleared(f, check, NeedsHot(v.db.runs[f.w.run].contract, f.q))])
  }

  ghost function Next(v: World, e: Event): World {
    if !Possible(v, e) then v else
    match e
    case Transact(s) => v.(db := Apply(v.db, s))
    case Observed(w, id, calibration, _, history, row) =>
      v.(decisions := Issue(v.decisions, Proposal(v.db, id, w, calibration, history[row])).1)
    case Prepare(w, q, evidence, hotPolicy, skew) =>
      v.(flights := v.flights[q.attempt := Flight(w, q, skew,
                                                  Ask(q.stage, evidence, hotPolicy, v.db.now + skew, None, 0), false,
                                                  false, None)])
    case Admitted(a, history, configured) => Admit(v, a, history, configured)
    case Dispatch(a) => v.(flights := v.flights[a := v.flights[a].(sentAt := Some(v.db.now))])
  }

  ghost function Later(v: World, events: seq<Event>): World
    decreases |events|
  {
    if events == [] then v else Later(Next(v, events[0]), events[1..])
  }

  // ------------------------------------------------------------------- invariants

  ghost predicate HotInv(v: World) {
    Sound(v.db) && DecisionsOk(v.read, v.db, v.decisions) && FlightsOk(v.db.now, v.decisions, v.flights)
  }

  predicate Start(v: World) { Safety.Initial(v.db) && v.decisions == [] && v.flights == map[] }

  lemma TimeAdvances(db: Db, s: Step)
    ensures Apply(db, s).now >= db.now
  {
    if Accepts(db, s) {
      match s
      case OfWorker(x) => WorkerKeepsTime(db, x);
      case OfJob(x) => JobKeepsTime(db, x);
      case OfMoney(x) => MoneyKeepsTime(db, x);
      case OfRun(x) => RunKeepsTime(db, x);
    }
  }

  lemma WorkerKeepsTime(db: Db, x: WorkerStep)
    requires AcceptsWorker(db, x)
    ensures ApplyWorker(db, x).now == db.now
  {
  }

  lemma JobKeepsTime(db: Db, x: JobStep)
    requires AcceptsJob(db, x)
    ensures ApplyJob(db, x).now == db.now
  {
  }

  lemma RunKeepsTime(db: Db, x: RunStep)
    requires AcceptsRun(db, x)
    ensures ApplyRun(db, x).now >= db.now
  {
  }

  lemma MoneyKeepsTime(db: Db, x: MoneyStep)
    requires AcceptsMoney(db, x)
    ensures ApplyMoney(db, x).now == db.now
  {
    match x
    case DoSettle(r, attempt, record) => SettleFrame(db, r, attempt, record);
    case DoReconcile(attempt, kind, e, apply) => ReconcileFrame(db, attempt, kind, e, apply);
    case DoZeroCharge(_) =>
  }

  lemma DecisionSurvives(read: Reader, db: Db, after: Db, d: Decision)
    requires DecisionOk(read, db, d) && Follows(db, after) && after.now >= db.now
    ensures DecisionOk(read, after, d)
  {
    var i :| 0 <= i < |db.calls| && IsSeed(read, db.calls[i], d);
    assert Evolves(db.calls[i], after.calls[i]);
    assert JobEvolves(db.jobs[d.job], after.jobs[d.job]);
  }

  lemma ServiceStepKeeps(v: World, s: Step)
    requires HotInv(v)
    ensures HotInv(v.(db := Apply(v.db, s))) && Follows(v.db, Apply(v.db, s)) && v.db.now <= Apply(v.db, s).now
  {
    var after := Apply(v.db, s);
    StepKeeps(v.db, s);
    TimeAdvances(v.db, s);
    FlightsSurvive(v.db.now, v.decisions, v.flights, after.now, []);
    assert v.decisions + [] == v.decisions;
    forall d | d in v.decisions ensures DecisionOk(v.read, after, d) { DecisionSurvives(v.read, v.db, after, d); }
  }

  lemma ObservedKeeps(v: World, e: Event)
    requires HotInv(v) && e.Observed? && Possible(v, e)
    ensures HotInv(Next(v, e)) && v.decisions <= Next(v, e).decisions
  {
    ProposalIsOk(v.read, v.db, e.w, e.id, e.calibration, e.history, e.row, v.db.runs[e.w.run].provider);
    IssuedIsOk(v.read, v.db, v.decisions, v.flights, Proposal(v.db, e.id, e.w, e.calibration, e.history[e.row]));
  }

  lemma AdmittedKeeps(v: World, a: Id, history: seq<Call>, configured: bool)
    requires HotInv(v) && Possible(v, Admitted(a, history, configured))
    ensures HotInv(Admit(v, a, history, configured))
  {
    var f := v.flights[a];
    var s := Reservation(v, f, history, configured);
    ServiceStepKeeps(v, s);
    ClearedIsOk(v.read, v.db, v.decisions, f, history, configured, Apply(v.db, s).now);
    OneFlightChanges(Apply(v.db, s).now, v.decisions, v.flights, a, Admit(v, a, history, configured).flights[a]);
  }

  lemma DispatchKeeps(v: World, a: Id)
    requires HotInv(v) && Possible(v, Dispatch(a))
    ensures HotInv(Next(v, Dispatch(a)))
  {
    SentIsOk(v.read, v.db, v.decisions, v.flights[a], a);
    OneFlightChanges(v.db.now, v.decisions, v.flights, a, v.flights[a].(sentAt := Some(v.db.now)));
  }

  lemma PrepareKeeps(v: World, e: Event)
    requires HotInv(v) && e.Prepare? && Possible(v, e)
    ensures HotInv(Next(v, e))
  {
    OneFlightChanges(v.db.now, v.decisions, v.flights, e.q.attempt, Next(v, e).flights[e.q.attempt]);
  }

  lemma EventKeeps(v: World, e: Event)
    requires HotInv(v)
    ensures HotInv(Next(v, e)) && v.decisions <= Next(v, e).decisions && Follows(v.db, Next(v, e).db)
    ensures Next(v, e).read == v.read
  {
    NothingFollows(v.db);
    if Possible(v, e) {
      match e
      case Transact(s) => ServiceStepKeeps(v, s);
      case Observed(_, _, _, _, _, _) => ObservedKeeps(v, e);
      case Prepare(_, _, _, _, _) => PrepareKeeps(v, e);
      case Admitted(a, history, configured) =>
        ServiceStepKeeps(v, Reservation(v, v.flights[a], history, configured));
        AdmittedKeeps(v, a, history, configured);
      case Dispatch(a) => DispatchKeeps(v, a);
    }
  }

  /** Decisions are only ever added, and nothing later moves one: not a repeated observation, not a replayed
      settlement, not a reconciliation. */
  lemma {:induction false} LaterKeeps(v: World, events: seq<Event>)
    requires HotInv(v)
    ensures HotInv(Later(v, events)) && v.decisions <= Later(v, events).decisions && Follows(v.db, Later(v, events).db)
    ensures Later(v, events).read == v.read
    decreases |events|
  {
    if events == [] {
      NothingFollows(v.db);
    } else {
      EventKeeps(v, events[0]);
      LaterKeeps(Next(v, events[0]), events[1..]);
      Safety.FollowsIsTransitive(v.db, Next(v, events[0]).db, Later(v, events).db);
    }
  }

  lemma StartIsSound(v: World)
    requires Start(v)
    ensures HotInv(v)
  {
    Safety.InitialIsSound(v.db);
  }

  // ----------------------------------------------------------------- main results

  ghost predicate SentInWindow(read: Reader, db: Db, a: Id, f: Flight, d: Decision, i: nat) {
    && i < |db.calls| && IsSeed(read, db.calls[i], d) && d.seed != a
    && f.q.prefix == db.calls[i].prefix
    && f.sentAt.Some? && d.observed <= f.sentAt.value < d.deadline <= db.calls[i].receivedAt.value + WINDOW
    && d.job in db.jobs && f.w.job == Some(d.job) && d.deadline <= db.jobs[d.job].deadline
  }

  /** Every request that was admitted under a HOT_ONLY contract, or that its runtime treats as one, and crossed the
      dispatch boundary did so strictly before the soft deadline of a stored decision, which is at most five
      seconds after the settled receipt of a different, genuine call with the same prefix, whatever the client's clock
      shows. */
  lemma HotDispatchIsInTime(v: World, events: seq<Event>, a: Id) returns (d: Decision, i: nat)
    requires Start(v) && var after := Later(v, events); a in after.flights && after.flights[a].sentAt.Some?
    requires var f := Later(v, events).flights[a]; f.guarded || HotAsk(f.ask)
    ensures var after := Later(v, events);
            d in after.decisions && SentInWindow(v.read, after.db, a, after.flights[a], d, i)
  {
    var after := Later(v, events);
    StartIsSound(v);
    LaterKeeps(v, events);
    assert FlightOk(after.db.now, after.decisions, after.flights[a], a);
    d := after.flights[a].ask.decision.value;
    assert DecisionOk(v.read, after.db, d);
    i :| 0 <= i < |after.db.calls| && IsSeed(v.read, after.db.calls[i], d);
  }

  /** A call that is ever UNKNOWN supports no decision, before or after its cost is resolved. */
  lemma UnknownNeverSeeds(v: World, events: seq<Event>, i: nat, d: Decision)
    requires HotInv(v) && i < |v.db.calls| && v.db.calls[i].state.Unknown? && d in Later(v, events).decisions
    ensures d.seed != v.db.calls[i].attempt
  {
    var after := Later(v, events);
    LaterKeeps(v, events);
    UnreceivedStays(v.db, after.db, i);
    OneReceipt(v.read, after.db, d, i);
  }

  lemma UnreceivedStays(db: Db, after: Db, i: nat)
    requires i < |db.calls| && db.calls[i].state.Unknown? && CallsEvolve(db.calls, after.calls)
    ensures i < |after.calls| && after.calls[i].receivedAt.None? && after.calls[i].attempt == db.calls[i].attempt
  {
    assert Evolves(db.calls[i], after.calls[i]);
  }

  lemma OneReceipt(read: Reader, db: Db, d: Decision, i: nat)
    requires RowsOk(db) && DecisionOk(read, db, d) && i < |db.calls| && db.calls[i].receivedAt.None?
    ensures d.seed != db.calls[i].attempt
  {
    var k :| 0 <= k < |db.calls| && IsSeed(read, db.calls[k], d);
    assert k != i && db.calls[k].attempt != db.calls[i].attempt;
  }

  /** Observing again for the same job, seed, calibration and fence answers with the first decision, after any
      events. */
  lemma RepeatIsTheFirst(v: World, events: seq<Event>, first: Decision, again: Decision)
    requires HotInv(v) && FindKey(v.decisions, first) == Some(first) && SameKey(first, again)
    ensures Issue(Later(v, events).decisions, again) == (first, Later(v, events).decisions)
  {
    LaterKeeps(v, events);
    IssueAgain(v.decisions, Later(v, events).decisions, first, again);
  }
}
