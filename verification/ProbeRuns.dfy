/** The probe round over whole runs of the service: worker processes that claim a job, begin or rejoin its one round,
    ask its phases and crash, interleaved with every other transaction. The phase of a call is read from its
    request. */
module ProbeRuns {
  import opened Types
  import opened Table
  import opened LedgerLaws
  import opened Settlement
  import opened Jobs
  import opened JobLaws
  import opened Runs
  import opened Probe
  import Resumption
  import Safety

  /** How far a worker is: before its grant, about to ask a phase, waiting for an attempt, or finished. */
  datatype Progress = NoGrant | MayChoose | MayLook | Waiting(attempt: Id) | Over

  /** A worker process with the job it claimed and the fence it was given. Superseded ones keep running. */
  datatype Worker = Worker(job: Id, token: nat, at: Progress)

  /** `phase` reads a phase back from a request's content. */
  datatype World = World(db: Db, workers: map<Id, Worker>, phase: Id -> Option<Phase>)

  datatype Event =
    | Transact(s: Step)
    | Take(w: Id, caller: Caller, job: Id, owner: Id, duration: int)
    | Begin(w: Id, caller: Caller, token: Id, doubts: nat)
    | Rejoin(w: Id, caller: Caller)
    | Ask(w: Id, caller: Caller, q: Request)
    | Receive(w: Id)
    | Crash(w: Id)

  // ------------------------------------------------------------------- probe calls

  predicate ProbeOf(c: Call, b: Id) { CallIn(c, b, Probe) }

  function RowOf(c: Call, phase: Id -> Option<Phase>): ProbeRow {
    ProbeRow(phase(c.payload.content), c.state, if Content(c.record).Some? then Some(c.attempt) else None)
  }

  /** The probe rows of a batch, in the order of the call table. */
  function RowsOf(calls: seq<Call>, b: Id, phase: Id -> Option<Phase>): seq<ProbeRow> {
    if calls == [] then [] else
    var last := calls[|calls| - 1];
    RowsOf(calls[..|calls| - 1], b, phase) + if ProbeOf(last, b) then [RowOf(last, phase)] else []
  }

  /** Where the grant for a settled round puts a worker. */
  function Rejoined(rows: seq<ProbeRow>): Progress {
    if Has(rows, Look) then Over else if Has(rows, Choose) then MayLook else MayChoose
  }

  function PhaseAt(p: Progress): Phase { if p.MayLook? then Look else Choose }

  // ------------------------------------------------------------------------ events

  /** The worker's own capability: its job and its fence. */
  predicate Owns(v: World, w: Id, caller: Caller) {
    w in v.workers && caller.job == Some(v.workers[w].job) && caller.token == v.workers[w].token
      && v.workers[w].job in v.db.jobs
  }

  /** Every probe call and every round belongs to some worker; all other transactions are anybody's. */
  predicate IsProbing(s: Step) {
    s.OfWorker? && ((s.x.DoReserve? && s.x.q.stage.Probe?) || s.x.DoBeginProbe?) && s.x.w.job.Some?
  }

  predicate Possible(v: World, e: Event) {
    match e
    case Transact(s) => !IsProbing(s)
    case Take(w, caller, j, owner, duration) => w !in v.workers && CanClaim(v.db, caller, j, duration)
    case Begin(w, caller, token, doubts) =>
      && Owns(v, w, caller) && v.workers[w].at.NoGrant?
      && CanBeginProbe(v.db, caller, v.db.jobs[v.workers[w].job].batch, doubts)
    case Rejoin(w, caller) =>
      && Owns(v, w, caller) && v.workers[w].at.NoGrant? && HoldsJob(v.db, caller)
      && v.db.jobs[v.workers[w].job].batch in v.db.batches
      && var b := v.db.jobs[v.workers[w].job].batch;
      && v.db.batches[b].rounds == 1 && Resolved(RowsOf(v.db.calls, b, v.phase), v.db.batches[b].models)
    case Ask(w, caller, q) =>
      && Owns(v, w, caller) && (v.workers[w].at.MayChoose? || v.workers[w].at.MayLook?) && q.stage.Probe?
      && v.phase(q.payload.content) == Some(PhaseAt(v.workers[w].at)) && CanReserve(v.db, caller, q)
    case Receive(w) =>
      && w in v.workers && v.workers[w].at.Waiting? && Find(v.db.calls, v.workers[w].at.attempt).Some?
      && !CallOf(v.db.calls, v.workers[w].at.attempt).state.Reserved?
    case Crash(w) => true
  }

  function CallOf(calls: seq<Call>, attempt: Id): Call
    requires Find(calls, attempt).Some?
  {
    FindMeans(calls, attempt);
    calls[Find(calls, attempt).value]
  }

  function Moved(v: World, w: Id, at: Progress): map<Id, Worker>
    requires w in v.workers
  {
    v.workers[w := v.workers[w].(at := at)]
  }

  function Next(v: World, e: Event): World {
    if !Possible(v, e) then v else
    match e
    case Transact(s) => v.(db := Apply(v.db, s))
    case Take(w, caller, j, owner, duration) =>
      v.(db := Claim(v.db, caller, j, owner, duration),
         workers := v.workers[w := Worker(j, v.db.jobs[j].token + 1, NoGrant)])
    case Begin(w, caller, token, doubts) =>
      v.(db := BeginProbe(v.db, v.db.jobs[v.workers[w].job].batch, token), workers := Moved(v, w, MayChoose))
    case Rejoin(w, caller) =>
      v.(workers := Moved(v, w, Rejoined(RowsOf(v.db.calls, v.db.jobs[v.workers[w].job].batch, v.phase))))
    case Ask(w, caller, q) => v.(db := ReserveCall(v.db, caller, q), workers := Moved(v, w, Waiting(q.attempt)))
    case Receive(w) =>
      v.(workers := Moved(v, w,
                          if v.phase(CallOf(v.db.calls, v.workers[w].at.attempt).payload.content) == Some(Choose)
                            then MayLook else Over))
    case Crash(w) => v.(workers := v.workers - {w})
  }

  function After(v: World, events: seq<Event>): World
    decreases |events|
  {
    if events == [] then v else After(Next(v, events[0]), events[1..])
  }

  // --------------------------------------------------------------------- invariant

  /** The probe calls of a batch are the choice, and then the look once the choice is no longer in flight. */
  ghost predicate InOrder(calls: seq<Call>, b: Id, phase: Id -> Option<Phase>) {
    && (forall i :: 0 <= i < |calls| && ProbeOf(calls[i], b) ==>
          phase(calls[i].payload.content) == Some(Choose)
            || (phase(calls[i].payload.content) == Some(Look) && exists h :: 0 <= h < i && ProbeOf(calls[h], b)))
    && (forall i, k :: 0 <= i < k < |calls| && ProbeOf(calls[i], b) && ProbeOf(calls[k], b) ==>
          && phase(calls[i].payload.content) == Some(Choose) && phase(calls[k].payload.content) == Some(Look)
          && !calls[i].state.Reserved?)
  }

  predicate NoProbe(calls: seq<Call>, b: Id) { forall i :: 0 <= i < |calls| ==> !ProbeOf(calls[i], b) }

  /** Call i is the batch's latest probe call. */
  predicate Latest(calls: seq<Call>, b: Id, i: nat) {
    i < |calls| && ProbeOf(calls[i], b) && forall k :: i < k < |calls| ==> !ProbeOf(calls[k], b)
  }

  /** A worker's own idea of the round is the ledger's. */
  ghost predicate AtOk(calls: seq<Call>, b: Id, phase: Id -> Option<Phase>, at: Progress) {
    match at
    case MayChoose => NoProbe(calls, b)
    case MayLook =>
      exists i: nat ::
        Latest(calls, b, i) && phase(calls[i].payload.content) == Some(Choose) && !calls[i].state.Reserved?
    case Waiting(a) => exists i: nat :: Latest(calls, b, i) && calls[i].attempt == a
    case _ => true
  }

  ghost predicate WorkerOk(v: World, w: Id)
    requires w in v.workers
  {
    var worker := v.workers[w];
    && worker.job in v.db.jobs && worker.token <= v.db.jobs[worker.job].token
    && (worker.token == v.db.jobs[worker.job].token ==>
          AtOk(v.db.calls, v.db.jobs[worker.job].batch, v.phase, worker.at))
  }

  ghost predicate WorkersOk(v: World) { forall w :: w in v.workers ==> WorkerOk(v, w) }

  ghost predicate OneHolder(v: World) {
    forall u, w ::
      u in v.workers && w in v.workers && v.workers[u].job == v.workers[w].job
        && v.workers[u].token == v.workers[w].token ==>
        u == w
  }

  ghost predicate Ordered(v: World) { forall j :: j in v.db.jobs ==> InOrder(v.db.calls, v.db.jobs[j].batch, v.phase) }

  ghost predicate RoundInv(v: World) {
    Sound(v.db) && Ordered(v) && WorkersOk(v) && OneHolder(v)
  }

  // ------------------------------------------------------- everybody else's transactions

  predicate NoneAdded(s: seq<Call>, t: seq<Call>, b: Id) {
    |s| <= |t| && forall i :: |s| <= i < |t| ==> !ProbeOf(t[i], b)
  }

  lemma SameProbes(s: seq<Call>, t: seq<Call>, b: Id)
    requires CallsEvolve(s, t) && NoneAdded(s, t, b)
    ensures forall i :: 0 <= i < |t| && ProbeOf(t[i], b) ==> i < |s| && ProbeOf(s[i], b)
    ensures forall i ::
              0 <= i < |s| ==>
                (ProbeOf(s[i], b) <==> ProbeOf(t[i], b)) && t[i].payload == s[i].payload && t[i].attempt == s[i].attempt
    ensures forall i :: 0 <= i < |s| && !s[i].state.Reserved? ==> !t[i].state.Reserved?
  {
    forall i | 0 <= i < |s| ensures Evolves(s[i], t[i]) {
    }
  }

  lemma InOrderStays(s: seq<Call>, t: seq<Call>, b: Id, phase: Id -> Option<Phase>)
    requires CallsEvolve(s, t) && NoneAdded(s, t, b) && InOrder(s, b, phase)
    ensures InOrder(t, b, phase)
  {
    SameProbes(s, t, b);
  }

  lemma AtOkStays(s: seq<Call>, t: seq<Call>, b: Id, phase: Id -> Option<Phase>, at: Progress)
    requires CallsEvolve(s, t) && NoneAdded(s, t, b) && AtOk(s, b, phase, at)
    ensures AtOk(t, b, phase, at)
  {
    SameProbes(s, t, b);
    if at.MayLook? || at.Waiting? {
      var i: nat :| Latest(s, b, i)
        && (at.MayLook? ==> phase(s[i].payload.content) == Some(Choose) && !s[i].state.Reserved?)
                    && (at.Waiting? ==> s[i].attempt == at.attempt);
      assert Latest(t, b, i);
    }
  }

  /** What leaves every round as it is: calls only move forward, and none is added to a job's probe. */
  ghost predicate Drifts(db: Db, after: Db) {
    && Follows(db, after)
    && (forall j :: j in db.jobs ==> NoneAdded(db.calls, after.calls, db.jobs[j].batch))
    && (forall j :: j in after.jobs && j !in db.jobs ==> NoProbe(after.calls, after.jobs[j].batch))
  }

  lemma OrderedStays(v: World, after: Db)
    requires Ordered(v) && Drifts(v.db, after)
    ensures Ordered(v.(db := after))
  {
    forall j | j in after.jobs ensures InOrder(after.calls, after.jobs[j].batch, v.phase) {
      if j in v.db.jobs {
        assert JobEvolves(v.db.jobs[j], after.jobs[j]);
        InOrderStays(v.db.calls, after.calls, v.db.jobs[j].batch, v.phase);
      }
    }
  }

  lemma WorkerStays(v: World, after: Db, w: Id)
    requires w in v.workers && WorkerOk(v, w) && Drifts(v.db, after)
    ensures WorkerOk(v.(db := after), w)
  {
    var worker := v.workers[w];
    assert JobEvolves(v.db.jobs[worker.job], after.jobs[worker.job]);
    if worker.token == after.jobs[worker.job].token {
      AtOkStays(v.db.calls, after.calls, v.db.jobs[worker.job].batch, v.phase, worker.at);
    }
  }

  lemma DriftKeeps(v: World, after: Db)
    requires RoundInv(v) && Sound(after) && Drifts(v.db, after)
    ensures RoundInv(v.(db := after))
  {
    OrderedStays(v, after);
    forall w | w in v.workers ensures WorkerOk(v.(db := after), w) {
      assert WorkerOk(v, w);
      WorkerStays(v, after, w);
    }
  }

  /** A probe call is in the batch of its job, and a batch without a job is no job's. */
  lemma ProbeIsOfItsJob(db: Db, c: Call, j: Id)
    requires j in db.jobs && JobOk(db, j) && CallOk(db, c) && ProbeOf(c, db.jobs[j].batch)
    ensures c.job == Some(j)
  {
  }

  /** Only a probe reservation of the job itself can disturb its round. */
  lemma NothingProbedDrifts(db: Db, after: Db)
    requires Sound(db) && Sound(after) && Follows(db, after)
    requires NoProbeForAJob(db.calls, after.calls)
    ensures Drifts(db, after)
  {
    forall j | j in db.jobs ensures NoneAdded(db.calls, after.calls, db.jobs[j].batch) {
      BatchStays(db, after, j);
      NoneAddedTo(db, after, j);
    }
    forall j | j in after.jobs && j !in db.jobs ensures NoProbe(after.calls, after.jobs[j].batch) {
      NewJobHasNoProbe(db, after, j);
    }
  }

  predicate NoProbeForAJob(s: seq<Call>, t: seq<Call>) {
    forall i :: |s| <= i < |t| ==> !t[i].stage.Probe? || t[i].job.None?
  }

  lemma NoneAddedTo(db: Db, after: Db, j: Id)
    requires JobsInv(db) && JobsInv(after) && CallsEvolve(db.calls, after.calls) && j in after.jobs
             && NoProbeForAJob(db.calls, after.calls)
    ensures NoneAdded(db.calls, after.calls, after.jobs[j].batch)
  {
    forall i | |db.calls| <= i < |after.calls| ensures !ProbeOf(after.calls[i], after.jobs[j].batch) {
      if ProbeOf(after.calls[i], after.jobs[j].batch) { ProbeWasThere(db, after, j, i); }
    }
  }

  lemma NewJobHasNoProbe(db: Db, after: Db, j: Id)
    requires JobsInv(db) && JobsInv(after) && CallsEvolve(db.calls, after.calls) && j in after.jobs && j !in db.jobs
             && NoProbeForAJob(db.calls, after.calls)
    ensures NoProbe(after.calls, after.jobs[j].batch)
  {
    forall i | 0 <= i < |after.calls| ensures !ProbeOf(after.calls[i], after.jobs[j].batch) {
      if ProbeOf(after.calls[i], after.jobs[j].batch) { ProbeWasThere(db, after, j, i); }
    }
  }

  lemma BatchStays(db: Db, after: Db, j: Id)
    requires Follows(db, after) && j in db.jobs
    ensures j in after.jobs && after.jobs[j].batch == db.jobs[j].batch
  {
    assert JobEvolves(db.jobs[j], after.jobs[j]);
  }

  lemma ProbeWasThere(db: Db, after: Db, j: Id, i: nat)
    requires JobsInv(db) && JobsInv(after) && CallsEvolve(db.calls, after.calls) && j in after.jobs && i < |after.calls|
    requires ProbeOf(after.calls[i], after.jobs[j].batch)
             && (i >= |db.calls| ==> !after.calls[i].stage.Probe? || after.calls[i].job.None?)
    ensures j in db.jobs && i < |db.calls|
  {
    assert CallOk(after, after.calls[i]) && JobOk(after, j);
    ProbeIsOfItsJob(after, after.calls[i], j);
    if i < |db.calls| { OldCallsJob(db, after, i); }
  }

  lemma OldCallsJob(db: Db, after: Db, i: nat)
    requires JobsInv(db) && CallsEvolve(db.calls, after.calls) && i < |db.calls|
    ensures after.calls[i].job == db.calls[i].job && (db.calls[i].job.Some? ==> db.calls[i].job.value in db.jobs)
  {
    assert Evolves(db.calls[i], after.calls[i]) && CallOk(db, db.calls[i]);
  }

  lemma WhatIsAppended(db: Db, s: Step)
    requires Sound(db)
    ensures |db.calls| <= |Apply(db, s).calls|
    ensures forall i ::
              |db.calls| <= i < |Apply(db, s).calls| ==>
                Accepts(db, s) && s.OfWorker? && s.x.DoReserve? && Apply(db, s).calls[i] == RowFor(db, s.x.w, s.x.q)
  {
    if Accepts(db, s) {
      match s
      case OfWorker(x) => WorkerAppends(db, x);
      case OfJob(x) => Resumption.JobStepsAddNoCall(db, x);
      case OfMoney(x) => Resumption.MoneyStepsAddNoCall(db, x);
      case OfRun(x) => Resumption.RunStepsAddNoCall(db, x);
    }
  }

  lemma WorkerAppends(db: Db, x: WorkerStep)
    requires AcceptsWorker(db, x)
    ensures ApplyWorker(db, x).calls == if x.DoReserve? then db.calls + [RowFor(db, x.w, x.q)] else db.calls
  {
  }

  lemma TransactKeeps(v: World, s: Step)
    requires RoundInv(v) && !(s.OfWorker? && s.x.DoReserve? && s.x.q.stage.Probe? && s.x.w.job.Some?)
    ensures RoundInv(v.(db := Apply(v.db, s)))
  {
    StepKeeps(v.db, s);
    WhatIsAppended(v.db, s);
    NothingProbedDrifts(v.db, Apply(v.db, s));
    DriftKeeps(v, Apply(v.db, s));
  }

  // ------------------------------------------------------------------ the worker's moves

  lemma TakeKeeps(v: World, w: Id, caller: Caller, j: Id, owner: Id, duration: int)
    requires RoundInv(v) && Possible(v, Take(w, caller, j, owner, duration))
    ensures RoundInv(Next(v, Take(w, caller, j, owner, duration)))
  {
    var claimed := Apply(v.db, OfJob(DoClaim(caller, j, owner, duration)));
    TransactKeeps(v, OfJob(DoClaim(caller, j, owner, duration)));
    ClaimRaisesToken(v.db, caller, j, owner, duration);
    TakenKeeps(v, claimed, w, j);
    NextTake(v, w, caller, j, owner, duration);
  }

  lemma TakenKeeps(v: World, claimed: Db, w: Id, j: Id)
    requires RoundInv(v.(db := claimed)) && WorkersOk(v) && w !in v.workers && j in v.db.jobs
    requires j in claimed.jobs && claimed.jobs[j].token == v.db.jobs[j].token + 1
    ensures RoundInv(v.(db := claimed).(workers := v.workers[w := Worker(j, v.db.jobs[j].token + 1, NoGrant)]))
  {
    TokensAreBelow(v, j);
    NewWorkerKeeps(v.(db := claimed), w, j, v.db.jobs[j].token + 1);
  }

  lemma NextTake(v: World, w: Id, caller: Caller, j: Id, owner: Id, duration: int)
    requires Possible(v, Take(w, caller, j, owner, duration))
    ensures Next(v, Take(w, caller, j, owner, duration))
         == v.(db := Apply(v.db, OfJob(DoClaim(caller, j, owner, duration))),
               workers := v.workers[w := Worker(j, v.db.jobs[j].token + 1, NoGrant)])
  {
    ClaimRaisesToken(v.db, caller, j, owner, duration);
  }

  lemma TokensAreBelow(v: World, j: Id)
    requires WorkersOk(v) && j in v.db.jobs
    ensures forall u :: u in v.workers && v.workers[u].job == j ==> v.workers[u].token <= v.db.jobs[j].token
  {
    forall u | u in v.workers && v.workers[u].job == j ensures v.workers[u].token <= v.db.jobs[j].token {
      assert WorkerOk(v, u);
    }
  }

  lemma ClaimRaisesToken(db: Db, caller: Caller, j: Id, owner: Id, duration: int)
    requires CanClaim(db, caller, j, duration)
    ensures Apply(db, OfJob(DoClaim(caller, j, owner, duration))) == Claim(db, caller, j, owner, duration)
    ensures var claimed := Claim(db, caller, j, owner, duration);
            j in claimed.jobs && claimed.jobs[j].token == db.jobs[j].token + 1
  {
  }

  lemma NewWorkerKeeps(v: World, w: Id, j: Id, token: nat)
    requires RoundInv(v) && w !in v.workers && j in v.db.jobs && token == v.db.jobs[j].token
    requires forall u :: u in v.workers && v.workers[u].job == j ==> v.workers[u].token < token
    ensures RoundInv(v.(workers := v.workers[w := Worker(j, token, NoGrant)]))
  {
    NewWorkerOk(v, w, j, token);
    NewWorkerIsOnlyHolder(v, w, j, token);
  }

  lemma NewWorkerOk(v: World, w: Id, j: Id, token: nat)
    requires WorkersOk(v) && j in v.db.jobs && token <= v.db.jobs[j].token
    ensures WorkersOk(v.(workers := v.workers[w := Worker(j, token, NoGrant)]))
  {
    var next := v.(workers := v.workers[w := Worker(j, token, NoGrant)]);
    forall u | u in next.workers ensures WorkerOk(next, u) {
      if u != w { assert WorkerOk(v, u); }
    }
  }

  lemma NewWorkerIsOnlyHolder(v: World, w: Id, j: Id, token: nat)
    requires OneHolder(v) && forall u :: u in v.workers && v.workers[u].job == j ==> v.workers[u].token < token
    ensures OneHolder(v.(workers := v.workers[w := Worker(j, token, NoGrant)]))
  {
  }

  lemma BeginKeeps(v: World, w: Id, caller: Caller, token: Id, doubts: nat)
    requires RoundInv(v) && Possible(v, Begin(w, caller, token, doubts))
    ensures RoundInv(Next(v, Begin(w, caller, token, doubts)))
  {
    var b := v.db.jobs[v.workers[w].job].batch;
    var step := OfWorker(DoBeginProbe(caller, b, token, doubts));
    TransactKeeps(v, step);
    NoRoundNoProbe(v.db, b);
    assert Apply(v.db, step) == BeginProbe(v.db, b, token);
    MoveKeeps(v.(db := Apply(v.db, step)), w, MayChoose);
  }

  lemma NoRoundNoProbe(db: Db, b: Id)
    requires b in db.batches && BatchOk(db, b) && db.batches[b].rounds == 0
    ensures NoProbe(db.calls, b)
  {
    forall i | 0 <= i < |db.calls| ensures !ProbeOf(db.calls[i], b) {
      RowWithinTotal(db.calls, i, CountIn(b, Probe));
    }
  }

  /** A worker may move to whatever place the ledger confirms. */
  lemma MoveKeeps(v: World, w: Id, at: Progress)
    requires RoundInv(v) && w in v.workers && v.workers[w].job in v.db.jobs
    requires v.workers[w].token == v.db.jobs[v.workers[w].job].token ==>
               AtOk(v.db.calls, v.db.jobs[v.workers[w].job].batch, v.phase, at)
    ensures RoundInv(v.(workers := Moved(v, w, at)))
  {
    assert WorkerOk(v, w) && v.(db := v.db) == v;
    MovedWorkersOk(v, v.db, w, at);
    OneHolderMoves(v, w, at);
  }

  lemma MovedWorkersOk(v: World, after: Db, w: Id, at: Progress)
    requires w in v.workers && v.workers[w].job in after.jobs
    requires forall u :: u in v.workers && u != w ==> WorkerOk(v.(db := after), u)
    requires v.workers[w].token <= after.jobs[v.workers[w].job].token
    requires v.workers[w].token == after.jobs[v.workers[w].job].token ==>
               AtOk(after.calls, after.jobs[v.workers[w].job].batch, v.phase, at)
    ensures WorkersOk(v.(db := after, workers := Moved(v, w, at)))
  {
    var next := v.(db := after, workers := Moved(v, w, at));
    forall u | u in next.workers ensures WorkerOk(next, u) {
      if u != w { assert WorkerOk(v.(db := after), u); }
    }
  }

  lemma OneHolderMoves(v: World, w: Id, at: Progress)
    requires OneHolder(v) && w in v.workers
    ensures OneHolder(v.(workers := Moved(v, w, at)))
  {
  }

  lemma {:induction false} RowsAreCalls(calls: seq<Call>, b: Id, phase: Id -> Option<Phase>)
    ensures |RowsOf(calls, b, phase)| == Total(calls, CountIn(b, Probe))
    ensures forall i: nat :: i < |calls| && ProbeOf(calls[i], b) ==> RowOf(calls[i], phase) in RowsOf(calls, b, phase)
    ensures forall r :: r in RowsOf(calls, b, phase) ==> IsRow(calls, b, phase, r)
  {
    if calls != [] {
      var front, last := calls[..|calls| - 1], calls[|calls| - 1];
      RowsAreCalls(front, b, phase);
      assert calls == front + [last];
      forall r | r in RowsOf(calls, b, phase) ensures IsRow(calls, b, phase, r) {
        if r in RowsOf(front, b, phase) {
          var i: nat :| i < |front| && ProbeOf(front[i], b) && r == RowOf(front[i], phase);
          assert calls[i] == front[i];
        } else {
          assert calls[|calls| - 1] == last;
        }
      }
    }
  }

  predicate IsRow(calls: seq<Call>, b: Id, phase: Id -> Option<Phase>, r: ProbeRow) {
    exists i: nat :: i < |calls| && ProbeOf(calls[i], b) && r == RowOf(calls[i], phase)
  }

  lemma HasPhase(calls: seq<Call>, b: Id, phase: Id -> Option<Phase>, i: nat)
    requires i < |calls|
    ensures ProbeOf(calls[i], b) && phase(calls[i].payload.content).Some? ==>
              Has(RowsOf(calls, b, phase), phase(calls[i].payload.content).value)
  {
    RowsAreCalls(calls, b, phase);
    if ProbeOf(calls[i], b) {
      var k :| 0 <= k < |RowsOf(calls, b, phase)| && RowsOf(calls, b, phase)[k] == RowOf(calls[i], phase);
    }
  }

  lemma PhaseOfSome(calls: seq<Call>, b: Id, phase: Id -> Option<Phase>, p: Phase) returns (i: nat)
    requires Has(RowsOf(calls, b, phase), p)
    ensures i < |calls| && ProbeOf(calls[i], b) && phase(calls[i].payload.content) == Some(p)
    ensures RowOf(calls[i], phase) in RowsOf(calls, b, phase)
  {
    RowsAreCalls(calls, b, phase);
    var k :| 0 <= k < |RowsOf(calls, b, phase)| && RowsOf(calls, b, phase)[k].phase == Some(p);
    assert IsRow(calls, b, phase, RowsOf(calls, b, phase)[k]);
    i :| i < |calls| && ProbeOf(calls[i], b) && RowsOf(calls, b, phase)[k] == RowOf(calls[i], phase);
  }

  /** A settled round is where its grant says. */
  lemma ResolvedMeans(calls: seq<Call>, b: Id, phase: Id -> Option<Phase>, models: nat)
    requires Resolved(RowsOf(calls, b, phase), models) && InOrder(calls, b, phase)
    ensures AtOk(calls, b, phase, Rejoined(RowsOf(calls, b, phase)))
  {
    var rows := RowsOf(calls, b, phase);
    if !Has(rows, Look) {
      if Has(rows, Choose) {
        OnlyTheChoice(calls, b, phase);
      } else {
        forall i: nat | i < |calls| ensures !ProbeOf(calls[i], b) {
          HasPhase(calls, b, phase, i);
        }
      }
    }
  }

  lemma OnlyTheChoice(calls: seq<Call>, b: Id, phase: Id -> Option<Phase>)
    requires var rows := RowsOf(calls, b, phase);
             (forall r :: r in rows ==> Usable(r)) && Has(rows, Choose) && !Has(rows, Look)
    requires InOrder(calls, b, phase)
    ensures AtOk(calls, b, phase, MayLook)
  {
    var i := PhaseOfSome(calls, b, phase, Choose);
    forall m: nat | i < m < |calls| ensures !ProbeOf(calls[m], b) {
      HasPhase(calls, b, phase, m);
    }
    assert Latest(calls, b, i);
  }

  lemma RejoinKeeps(v: World, w: Id, caller: Caller)
    requires RoundInv(v) && Possible(v, Rejoin(w, caller))
    ensures RoundInv(Next(v, Rejoin(w, caller)))
  {
    var b := v.db.jobs[v.workers[w].job].batch;
    ResolvedMeans(v.db.calls, b, v.phase, v.db.batches[b].models);
    MoveKeeps(v, w, Rejoined(RowsOf(v.db.calls, b, v.phase)));
  }

  lemma ReceiveKeeps(v: World, w: Id)
    requires RoundInv(v) && Possible(v, Receive(w))
    ensures RoundInv(Next(v, Receive(w)))
  {
    assert WorkerOk(v, w);
    var a := v.workers[w].at.attempt;
    if v.workers[w].token == v.db.jobs[v.workers[w].job].token {
      ReceivedIsInPlace(v.db, v.db.jobs[v.workers[w].job].batch, v.phase, a);
    }
    MoveKeeps(v, w, if v.phase(CallOf(v.db.calls, a).payload.content) == Some(Choose) then MayLook else Over);
  }

  lemma ReceivedIsInPlace(db: Db, b: Id, phase: Id -> Option<Phase>, a: Id)
    requires RowsOk(db) && AtOk(db.calls, b, phase, Waiting(a)) && Find(db.calls, a).Some?
             && !CallOf(db.calls, a).state.Reserved?
    ensures phase(CallOf(db.calls, a).payload.content) == Some(Choose) ==> AtOk(db.calls, b, phase, MayLook)
  {
    var i: nat :| Latest(db.calls, b, i) && db.calls[i].attempt == a;
    RowIsFound(db, i);
  }

  // ------------------------------------------------------------------------- asking

  lemma AskedInOrder(calls: seq<Call>, b: Id, phase: Id -> Option<Phase>, at: Progress, c: Call)
    requires InOrder(calls, b, phase) && (at.MayChoose? || at.MayLook?) && AtOk(calls, b, phase, at)
    requires ProbeOf(c, b) && phase(c.payload.content) == Some(PhaseAt(at))
    ensures InOrder(calls + [c], b, phase) && AtOk(calls + [c], b, phase, Waiting(c.attempt))
  {
    var after := calls + [c];
    assert forall i :: 0 <= i < |calls| ==> after[i] == calls[i];
    assert after[|calls|] == c && Latest(after, b, |calls|);
    if at.MayLook? {
      var i: nat :| Latest(calls, b, i) && phase(calls[i].payload.content) == Some(Choose) && !calls[i].state.Reserved?;
      assert ProbeOf(after[i], b);
    }
  }

  lemma AskKeeps(v: World, w: Id, caller: Caller, q: Request)
    requires RoundInv(v) && Possible(v, Ask(w, caller, q))
    ensures RoundInv(Next(v, Ask(w, caller, q)))
  {
    var step := OfWorker(DoReserve(caller, q));
    var c := RowFor(v.db, caller, q);
    StepKeeps(v.db, step);
    AskAppends(v.db, caller, q);
    Safety.AcceptedWriterHoldsFence(v.db, DoReserve(caller, q));
    AskedIsSound(v, Apply(v.db, step), w, c);
    OneHolderMoves(v, w, Waiting(q.attempt));
  }

  lemma AskAppends(db: Db, caller: Caller, q: Request)
    requires CanReserve(db, caller, q)
    ensures var after := Apply(db, OfWorker(DoReserve(caller, q)));
            after == ReserveCall(db, caller, q) && after.calls == db.calls + [RowFor(db, caller, q)]
              && after.jobs == db.jobs
  {
  }

  lemma AskedIsSound(v: World, after: Db, w: Id, c: Call)
    requires RoundInv(v) && Sound(after) && w in v.workers && after.calls == v.db.calls + [c] && after.jobs == v.db.jobs
    requires CallsEvolve(v.db.calls, after.calls)
    requires var at := v.workers[w].at;
             (at.MayChoose? || at.MayLook?) && v.phase(c.payload.content) == Some(PhaseAt(at))
    requires v.workers[w].job in v.db.jobs && v.workers[w].token == v.db.jobs[v.workers[w].job].token
             && c.job == Some(v.workers[w].job) && c.stage.Probe?
    ensures Ordered(v.(db := after)) && WorkersOk(v.(db := after, workers := Moved(v, w, Waiting(c.attempt))))
  {
    var j := v.workers[w].job;
    assert WorkerOk(v, w);
    ProbeOnlyIn(after, c, j);
    AskedInOrder(v.db.calls, v.db.jobs[j].batch, v.phase, v.workers[w].at, c);
    OthersUntouched(v, after, j, c);
    AskedOrdered(v, after, j);
    AskedWorkers(v, after, w, c);
  }

  lemma OthersUntouched(v: World, after: Db, j: Id, c: Call)
    requires after.calls == v.db.calls + [c]
             && forall k :: k in after.jobs && k != j ==> !ProbeOf(c, after.jobs[k].batch)
    ensures forall k :: k in after.jobs && k != j ==> NoneAdded(v.db.calls, after.calls, after.jobs[k].batch)
  {
  }

  lemma AskedOrdered(v: World, after: Db, j: Id)
    requires Ordered(v) && after.jobs == v.db.jobs && CallsEvolve(v.db.calls, after.calls)
    requires j in after.jobs && InOrder(after.calls, after.jobs[j].batch, v.phase)
    requires forall k :: k in after.jobs && k != j ==> NoneAdded(v.db.calls, after.calls, after.jobs[k].batch)
    ensures Ordered(v.(db := after))
  {
    forall k | k in after.jobs ensures InOrder(after.calls, after.jobs[k].batch, v.phase) {
      if k != j { InOrderStays(v.db.calls, after.calls, v.db.jobs[k].batch, v.phase); }
    }
  }

  lemma AskedWorkers(v: World, after: Db, w: Id, c: Call)
    requires WorkersOk(v) && OneHolder(v) && w in v.workers && after.jobs == v.db.jobs
             && CallsEvolve(v.db.calls, after.calls)
    requires v.workers[w].job in v.db.jobs && v.workers[w].token == v.db.jobs[v.workers[w].job].token
    requires AtOk(after.calls, after.jobs[v.workers[w].job].batch, v.phase, Waiting(c.attempt))
    requires forall k ::
               k in after.jobs && k != v.workers[w].job ==> NoneAdded(v.db.calls, after.calls, after.jobs[k].batch)
    ensures WorkersOk(v.(db := after, workers := Moved(v, w, Waiting(c.attempt))))
  {
    forall u | u in v.workers && u != w ensures WorkerOk(v.(db := after), u) {
      OtherWorkerStays(v, after, w, u);
    }
    MovedWorkersOk(v, after, w, Waiting(c.attempt));
  }

  lemma OtherWorkerStays(v: World, after: Db, w: Id, u: Id)
    requires WorkersOk(v) && OneHolder(v) && w in v.workers && u in v.workers && u != w && after.jobs == v.db.jobs
             && CallsEvolve(v.db.calls, after.calls)
    requires v.workers[w].job in v.db.jobs && v.workers[w].token == v.db.jobs[v.workers[w].job].token
    requires forall k ::
               k in after.jobs && k != v.workers[w].job ==> NoneAdded(v.db.calls, after.calls, after.jobs[k].batch)
    ensures WorkerOk(v.(db := after), u)
  {
    assert WorkerOk(v, u);
    var k := v.workers[u].job;
    if v.workers[u].token == v.db.jobs[k].token {
      AtOkStays(v.db.calls, after.calls, v.db.jobs[k].batch, v.phase, v.workers[u].at);
    }
  }

  /** A job's probe call is in its own batch and in no other job's. */
  lemma ProbeOnlyIn(db: Db, c: Call, j: Id)
    requires Sound(db) && j in db.jobs && c.job == Some(j) && c.stage.Probe? && |db.calls| > 0
             && db.calls[|db.calls| - 1] == c
    ensures ProbeOf(c, db.jobs[j].batch) && forall k :: k in db.jobs && k != j ==> !ProbeOf(c, db.jobs[k].batch)
  {
    assert CallOk(db, db.calls[|db.calls| - 1]);
    forall k | k in db.jobs && k != j ensures !ProbeOf(c, db.jobs[k].batch) {
      assert JobOk(db, k);
    }
  }

  // ----------------------------------------------------------------------- whole runs

  lemma NextKeeps(v: World, e: Event)
    requires RoundInv(v)
    ensures RoundInv(Next(v, e)) && Next(v, e).phase == v.phase
  {
    if Possible(v, e) {
      match e
      case Transact(s) => TransactKeeps(v, s);
      case Take(w, caller, j, owner, duration) => TakeKeeps(v, w, caller, j, owner, duration);
      case Begin(w, caller, token, doubts) => BeginKeeps(v, w, caller, token, doubts);
      case Rejoin(w, caller) => RejoinKeeps(v, w, caller);
      case Ask(w, caller, q) => AskKeeps(v, w, caller, q);
      case Receive(w) => ReceiveKeeps(v, w);
      case Crash(w) => CrashKeeps(v, w);
    }
  }

  lemma CrashKeeps(v: World, w: Id)
    requires RoundInv(v)
    ensures RoundInv(v.(workers := v.workers - {w}))
  {
    FewerWorkersOk(v, w);
    FewerHolders(v, w);
  }

  lemma FewerWorkersOk(v: World, w: Id)
    requires WorkersOk(v)
    ensures WorkersOk(v.(workers := v.workers - {w}))
  {
    forall u | u in v.workers && u != w ensures WorkerOk(v.(workers := v.workers - {w}), u) {
      assert WorkerOk(v, u);
    }
  }

  lemma FewerHolders(v: World, w: Id)
    requires OneHolder(v)
    ensures OneHolder(v.(workers := v.workers - {w}))
  {
  }

  lemma {:induction false} AfterKeeps(v: World, events: seq<Event>)
    requires RoundInv(v)
    ensures RoundInv(After(v, events)) && After(v, events).phase == v.phase
    decreases |events|
  {
    if events != [] {
      NextKeeps(v, events[0]);
      AfterKeeps(Next(v, events[0]), events[1..]);
    }
  }

  predicate Start(v: World) { Safety.Initial(v.db) && v.workers == map[] }

  /** Over any schedule of claims, crashes, lost leases, late settlements and resumptions, each job's probe asks its
      first phase at most once, and its second at most once and only when the first is no longer in flight. */
  lemma EachPhaseOnce(v: World, events: seq<Event>, j: Id)
    requires Start(v) && j in After(v, events).db.jobs
    ensures var after := After(v, events); InOrder(after.db.calls, after.db.jobs[j].batch, v.phase)
  {
    Safety.InitialIsSound(v.db);
    AfterKeeps(v, events);
  }

  /** A resuming worker asks what its place in the round allows, in that order. */
  lemma ResumeAsksInPlace(rows: seq<ProbeRow>, prior: map<Phase, Id>, asked: seq<Phase>)
    requires forall p :: p in prior <==> Has(rows, p)
    requires Look in prior ==> Choose in prior
    requires (asked <= [Choose, Look] || asked == [Look]) && (forall p :: p in asked ==> p !in prior)
    requires Look in asked ==> Choose in prior || asked[0] == Choose
    ensures asked != [] ==> Rejoined(rows) != Over && asked[0] == PhaseAt(Rejoined(rows))
    ensures |asked| == 2 ==> asked == [Choose, Look]
  {
    if asked != [] {
      assert asked[0] in asked;
    }
  }
}
