/** The durable background job: who may act for it, and the effect of every transaction on the job,
    batch and call rows. Each transaction is one guard and one effect on the database. */
module Jobs {
  import opened Types
  import opened Ledger
  import opened Tariff

  /** A caller's capability. `conn` is the API incarnation that relays the call (None for offline tools);
      `valid` stands for its token, tenant and unchanged contract; `current` for document scope and
      configuration being unchanged at this instant. */
  datatype Caller = Caller(run: Id, job: Option<Id>, owner: Option<Id>, token: nat, conn: Option<Id>, valid: bool,
                           current: bool)

  predicate Terminal(s: JobState) { s.Committed? || s.Skipped? || s.Failed? || s.OutcomeUnknown? }

  // -------------------------------------------------------------------- liveness

  predicate Live(db: Db, i: Id) {
    i in db.instances && !db.instances[i].stopped && db.now < db.instances[i].leaseUntil
  }

  predicate ConnLive(db: Db, conn: Option<Id>) { conn.Some? ==> Live(db, conn.value) }

  /** A lease belongs to a live process; only an offline tool may use a lease that names no process. */
  predicate LeaseInstanceActive(db: Db, j: Job, conn: Option<Id>) {
    if j.instance.None? then conn.None? else Live(db, j.instance.value)
  }

  predicate ForegroundOwned(db: Db, r: Run, conn: Option<Id>) {
    conn.Some? && r.owner.Some? ==> Live(db, r.owner.value)
  }

  // ------------------------------------------------------------- calls of a job

  predicate Touches(c: Call, job: Id, batch: Id) { c.job == Some(job) || c.batch == Some(batch) }

  predicate HasOpenCalls(calls: seq<Call>, job: Id, batch: Id) {
    exists i :: 0 <= i < |calls| && Touches(calls[i], job, batch) && !calls[i].state.Settled?
  }

  predicate Touched(calls: seq<Call>, job: Id, batch: Id) {
    exists i :: 0 <= i < |calls| && Touches(calls[i], job, batch)
  }

  predicate Attempted(calls: seq<Call>, job: Id) {
    exists i :: 0 <= i < |calls| && calls[i].job == Some(job)
  }

  /** The reusable content of a call record: the message of a reply with exactly one choice. */
  function Content(r: Option<Record>): Option<string> {
    if r.Some? && r.value.response.Response? && |r.value.response.choices| == 1 then r.value.response.choices[0]
      else None
  }

  predicate SettledExtraction(c: Call, job: Id) { c.job == Some(job) && c.stage.Extraction? && c.state.Settled? }

  function Extractions(calls: seq<Call>, job: Id): seq<Call> {
    if calls == [] then [] else
    var last := calls[|calls| - 1];
    Extractions(calls[..|calls| - 1], job) + if SettledExtraction(last, job) then [last] else []
  }

  /** The recorded answer of a job's one settled extraction, or nothing. */
  function Recorded(calls: seq<Call>, job: Id): string {
    var found := Extractions(calls, job);
    if |found| == 1 && Content(found[0].record).Some? then Content(found[0].record).value else ""
  }

  /** A weaker sign of a saved reply: any settled extraction whose first choice has content. */
  predicate AnySaved(calls: seq<Call>, job: Id, batch: Id) {
    exists i ::
      0 <= i < |calls| && Touches(calls[i], job, batch) && calls[i].stage.Extraction? && calls[i].state.Settled?
        && FirstContent(calls[i].record)
  }

  predicate FirstContent(r: Option<Record>) {
    r.Some? && r.value.response.Response? && |r.value.response.choices| > 0 && r.value.response.choices[0].Some?
  }

  // -------------------------------------------------------------- authorizations

  /** The caller holds the job's live lease and current fencing token. */
  predicate HoldsJob(db: Db, w: Caller) {
    && ConnLive(db, w.conn) && w.job.Some? && w.owner.Some? && w.token != 0 && w.job.value in db.jobs
    && w.run in db.runs
    && var j := db.jobs[w.job.value];
    && j.run == w.run && j.owner == w.owner && j.token == w.token
    && !j.cancelled && !j.state.Skipped? && !j.state.Failed? && !j.state.OutcomeUnknown?
    && RunAllowsJob(db.runs[w.run], j)
    && db.now < j.deadline && j.leaseUntil.Some? && db.now < j.leaseUntil.value
    && w.valid && LeaseInstanceActive(db, j, w.conn)
  }

  predicate RunAllowsJob(r: Run, j: Job) {
    && !r.cancelRequested
    && (r.state.RunRunning? || r.state.Completed?
        || (r.state.Interrupted? && (j.state.Running? || j.state.ResultReady? || j.state.Committed?)))
  }

  /** The common opening of every extraction transaction. */
  predicate InTransaction(db: Db, w: Caller) {
    && w.valid && w.current && ConnLive(db, w.conn) && w.run in db.runs
    && var r := db.runs[w.run];
    && r.contract.m2 && !r.contract.diagnostic
    && (r.state.RunRunning? || (w.job.Some? && (r.state.Completed? || r.state.Interrupted?)))
    && db.now < r.deadline
    && (if w.job.None? then ForegroundOwned(db, r, w.conn) else HoldsJob(db, w))
  }

  /** The batch belongs to the caller's run (or is the one its contract revalidates) and to its job. */
  predicate BatchOpen(db: Db, w: Caller, b: Id)
    requires w.run in db.runs
  {
    && b in db.batches && db.batches[b].job == w.job && !db.runs[w.run].contract.historical
    && (db.batches[b].run == w.run || db.runs[w.run].contract.revalidates == Some(b))
    && db.now < db.batches[b].deadline
  }

  // -------------------------------------------------------------------- creation

  predicate CanCreateJob(db: Db, w: Caller, key: Id, j: Id, b: Id) {
    && w.job.None? && InTransaction(db, w) && !db.runs[w.run].contract.historical
    && j !in db.jobs && b !in db.batches
    && (forall x :: x in db.jobs ==> !(db.jobs[x].run == w.run && db.jobs[x].key == key))
  }

  function NewBatch(r: Id, job: Option<Id>, deadline: int): Batch {
    Batch(r, job, Created, None, None, None, None, 0, 0, 0, deadline)
  }

  function CreateJob(db: Db, w: Caller, key: Id, identity: Id, prefix: Id, j: Id, b: Id): Db
    requires w.run in db.runs
  {
    var deadline := db.runs[w.run].deadline;
    db.(jobs := db.jobs[j := Job(w.run, key, identity, b, prefix, WaitingPrefix, None, None, None, 0, 0, deadline,
                                 false, None, NoReason)],
        batches := db.batches[b := NewBatch(w.run, Some(j), deadline)])
  }

  /** A batch outside any job, opened directly by the run's foreground. */
  predicate CanBeginExtraction(db: Db, w: Caller, b: Id) {
    w.job.None? && InTransaction(db, w) && !db.runs[w.run].contract.historical && b !in db.batches
  }

  function BeginExtraction(db: Db, w: Caller, b: Id): Db
    requires w.run in db.runs
  {
    db.(batches := db.batches[b := NewBatch(w.run, None, db.runs[w.run].deadline)])
  }

  // ----------------------------------------------------------------------- claim

  /** No earlier dispatch of this job can be repeated by claiming it. */
  predicate NothingToRepeat(db: Db, j: Id)
    requires j in db.jobs
  {
    && !HasOpenCalls(db.calls, j, db.jobs[j].batch)
    && (db.jobs[j].digest.None? && Attempted(db.calls, j) ==> db.recovery && Recorded(db.calls, j) != "")
  }

  function ClaimUntil(db: Db, j: Job, duration: int): int { Min(db.now + duration, j.deadline) }

  predicate CanClaim(db: Db, w: Caller, j: Id, duration: int) {
    && 0 < duration <= 180 * SECOND && w.valid && w.current && ConnLive(db, w.conn) && w.run in db.runs && j in db.jobs
    && var r, job := db.runs[w.run], db.jobs[j];
    && !r.cancelRequested && (r.state.RunRunning? || r.state.Completed? || r.state.Interrupted?) && job.run == w.run
    && (r.state.Interrupted? && !db.recovery ==> job.state.ResultReady? && job.digest.Some?)
    && !job.cancelled && db.now < job.deadline && db.now < r.deadline && !Terminal(job.state)
    && (job.leaseUntil.Some? ==> job.leaseUntil.value <= db.now)
    && NothingToRepeat(db, j)
  }

  function Claim(db: Db, w: Caller, j: Id, owner: Id, duration: int): Db
    requires j in db.jobs
  {
    var job := db.jobs[j];
    db.(jobs := db.jobs[j := job.(
      state := if job.digest.None? then Running else ResultReady, owner := Some(owner),
      leaseUntil := Some(ClaimUntil(db, job, duration)), instance := w.conn, token := job.token + 1,
      attempt := job.attempt + 1)])
  }

  predicate CanRenew(db: Db, w: Caller, duration: int) {
    && 0 < duration <= 20 * SECOND && InTransaction(db, w) && w.job.Some?
    && (db.jobs[w.job.value].state.Running? || db.jobs[w.job.value].state.ResultReady?)
    && w.conn.Some? && db.jobs[w.job.value].instance == w.conn
  }

  function Max(a: int, b: int): int { if a < b then b else a }

  function Renew(db: Db, j: Id, duration: int): Db
    requires j in db.jobs && db.jobs[j].leaseUntil.Some?
  {
    var job := db.jobs[j];
    db.(jobs := db.jobs[j := job.(leaseUntil := Some(Min(job.deadline, Max(job.leaseUntil.value, db.now + duration))))])
  }

  // --------------------------------------------------------------------- reserve

  /** A request to call the model. `wellFormed` stands for payload, price snapshot and release-freeze
      checks; `prefixMatches` for the native prefix comparison; `hot` for an unexpired HOT decision. */
  datatype Request = Request(
    attempt: Id, provider: Provider, payload: Payload, stage: Stage, batch: Option<Id>, probeToken: Option<Id>,
    prefix: Option<Id>, snapshot: Id, wellFormed: bool, prefixMatches: bool, hot: bool,
    budget: Subexperiment, refreshes: nat)

  predicate CallIn(c: Call, b: Id, stage: Stage) { c.batch == Some(b) && c.stage == stage }

  predicate AnyCallIn(calls: seq<Call>, b: Id, stage: Stage) {
    exists i :: 0 <= i < |calls| && CallIn(calls[i], b, stage)
  }

  /** One generation per stage and batch, and two probe calls under the batch's own capability. */
  predicate StageAllows(db: Db, w: Caller, q: Request)
    requires w.run in db.runs
  {
    if !db.runs[w.run].contract.m2 then q.stage.Answer?
    else if q.stage.Answer? || q.stage.Other? then q.batch.None?
    else
      && q.batch.Some? && BatchOpen(db, w, q.batch.value)
      && var b := db.batches[q.batch.value];
      if q.stage.Probe? then b.rounds == 1 && b.models < 2 && b.probeToken.Some? && b.probeToken == q.probeToken
      else !AnyCallIn(db.calls, q.batch.value, q.stage) && b.raw.None?
  }

  /** A job's call is bound to the job's own batch and prefix, in a state that may still call. */
  predicate BindingAllows(db: Db, w: Caller, q: Request)
    requires w.run in db.runs && (w.job.Some? ==> w.job.value in db.jobs)
  {
    var k := db.runs[w.run].contract;
    k.m3 ==>
      && (w.job.Some? ==>
        var j := db.jobs[w.job.value];
        && q.batch == Some(j.batch) && q.prefix == Some(j.prefix)
        && (j.state.Running? || (q.stage.Probe? && j.state.ResultReady?))
        && (q.stage.Extraction? && k.hotOnly ==> q.hot))
      && (w.job.None? && k.durable ==> q.stage.Answer? || q.stage.Other?)
      && (q.prefix.Some? && !q.stage.Probe? ==> q.prefixMatches)
      && (k.diagnostic ==> q.probeToken.None?)
  }

  function RowFor(db: Db, w: Caller, q: Request): Call
    requires w.run in db.runs && OutputLimit(db.runs[w.run].contract, q.payload.maxTokens).Some?
  {
    var k := db.runs[w.run].contract;
    var upper := if q.provider.Mock? then 0
                   else ColdUpper(q.payload.bytes, OutputLimit(k, q.payload.maxTokens).value as int);
    Call(q.attempt, w.run, q.provider, ExperimentFor(k), q.stage, Reserved, upper, None, q.payload, q.snapshot, w.job,
         q.batch,
         k.sub, if k.m3 && q.provider.Deepseek? then k.releaseSession else None, q.prefix, None, None, w.conn)
  }

  /** A request may repeat its contract's subexperiment and one refresh of its snapshot, no more. */
  predicate LabelAllows(k: Contract, q: Request) {
    k.m3 ==> (q.budget.NoSubexperiment? || q.budget == k.sub) && q.refreshes <= 1
  }

  predicate CanReserve(db: Db, w: Caller, q: Request) {
    && w.valid && w.current && q.wellFormed && ConnLive(db, w.conn) && w.run in db.runs
    && var r := db.runs[w.run];
    && q.provider == r.provider && OutputLimit(r.contract, q.payload.maxTokens).Some?
    && !r.cancelRequested && db.now < r.deadline
    && (r.state.RunRunning? || (w.job.Some? && (r.state.Completed? || (r.state.Interrupted? && db.recovery))))
    && (if w.job.None? then ForegroundOwned(db, r, w.conn) else HoldsJob(db, w))
    && (q.stage.Probe? ==> ProbeAllowed(r.contract))
    && StageAllows(db, w, q) && BindingAllows(db, w, q) && LabelAllows(r.contract, q)
    && LedgerAllows(db, r.contract, RowFor(db, w, q))
  }

  function CountProbe(batches: map<Id, Batch>, q: Request): map<Id, Batch> {
    if q.stage.Probe? && q.batch.Some? && q.batch.value in batches
    then batches[q.batch.value := batches[q.batch.value].(models := batches[q.batch.value].models + 1)] else batches
  }

  function ReserveCall(db: Db, w: Caller, q: Request): Db
    requires w.run in db.runs && OutputLimit(db.runs[w.run].contract, q.payload.maxTokens).Some?
  {
    Insert(db, RowFor(db, w, q)).(batches := CountProbe(db.batches, q))
  }

  // ------------------------------------------------------- candidates and reports

  predicate CanStore(db: Db, w: Caller, b: Id, raw: Id) {
    && InTransaction(db, w) && BatchOpen(db, w, b)
    && (db.batches[b].raw.Some? ==> db.batches[b].raw == Some(raw))
    && (db.batches[b].raw.None? && w.job.Some? ==> !db.jobs[w.job.value].state.Committed?)
  }

  /** First submission wins; the same text again is acknowledged without effect. */
  function Store(db: Db, w: Caller, b: Id, raw: Id, digest: Id): Db
    requires b in db.batches && (w.job.Some? ==> w.job.value in db.jobs)
  {
    if db.batches[b].raw.Some? then db else
    db.(batches := db.batches[b := db.batches[b].(raw := Some(raw), digest := Some(digest), state := BatchReady)],
        jobs := if w.job.None? then db.jobs else
                db.jobs[w.job.value := db.jobs[w.job.value].(state := ResultReady, digest := Some(digest))])
  }

  predicate CanValidate(db: Db, w: Caller, b: Id) {
    InTransaction(db, w) && BatchOpen(db, w, b) && db.batches[b].raw.Some? && db.batches[b].digest.Some?
      && !db.batches[b].state.BatchCommitted?
  }

  function Validate(db: Db, b: Id, report: Id, validated: nat, inconclusive: nat): Db
    requires b in db.batches
  {
    db.(batches := db.batches[b := db.batches[b].(
      latest := Some(report),
      state := if validated > 0 then Validated else if inconclusive > 0 then Inconclusive else Rejected)])
  }

  predicate CanCommit(db: Db, w: Caller, b: Id, report: Id) {
    InTransaction(db, w) && BatchOpen(db, w, b) && db.batches[b].latest == Some(report) && db.batches[b].digest.Some?
  }

  function Commit(db: Db, w: Caller, b: Id, published: nat): Db
    requires b in db.batches && (w.job.Some? ==> w.job.value in db.jobs)
  {
    db.(batches := if published > 0 then db.batches[b := db.batches[b].(state := BatchCommitted)] else db.batches,
        jobs := if w.job.None? || db.jobs[w.job.value].state.Committed? then db.jobs else
                db.jobs[w.job.value := db.jobs[w.job.value].(state := if published > 0 then Committed else Skipped,
                                                             reason := OtherReason)])
  }

  // ----------------------------------------------------------------------- probe

  predicate CanBeginProbe(db: Db, w: Caller, b: Id, doubts: nat) {
    && InTransaction(db, w) && ProbeAllowed(db.runs[w.run].contract) && BatchOpen(db, w, b)
    && db.batches[b].rounds == 0 && db.batches[b].latest.Some? && !db.batches[b].state.BatchCommitted? && doubts > 0
  }

  /** A recovering worker may resume the round that its job's batch already has, once nothing of the job is open. */
  predicate CanResumeProbe(db: Db, w: Caller, b: Id) {
    && InTransaction(db, w) && ProbeAllowed(db.runs[w.run].contract) && BatchOpen(db, w, b)
    && w.job.Some? && !HasOpenCalls(db.calls, w.job.value, b)
    && db.batches[b].rounds == 1 && db.batches[b].probeToken.Some? && db.batches[b].latest.Some?
    && !db.batches[b].state.BatchCommitted?
  }

  function BeginProbe(db: Db, b: Id, token: Id): Db
    requires b in db.batches
  {
    db.(batches := db.batches[b := db.batches[b].(rounds := 1, probeToken := Some(token))])
  }

  predicate CanOpenInProbe(db: Db, w: Caller, b: Id, token: Id) {
    && InTransaction(db, w) && ProbeAllowed(db.runs[w.run].contract) && BatchOpen(db, w, b)
    && db.batches[b].probeToken == Some(token) && db.batches[b].rounds == 1 && db.batches[b].tools < 4
  }

  function OpenInProbe(db: Db, b: Id): Db
    requires b in db.batches
  {
    db.(batches := db.batches[b := db.batches[b].(tools := db.batches[b].tools + 1)])
  }

  // ------------------------------------------------------------------------ ends

  /** A conclusion proposed after the deadline, other than an uncertain one or a release, only skips. */
  predicate Overdue(db: Db, j: Id, requested: JobState)
    requires j in db.jobs
  {
    !requested.ResultReady? && !requested.OutcomeUnknown? && db.jobs[j].deadline <= db.now
  }

  /** The state a finishing worker really gets: the ledger outranks its proposal, then the deadline does. */
  function Concluded(db: Db, j: Id, requested: JobState): JobState
    requires j in db.jobs
  {
    if HasOpenCalls(db.calls, j, db.jobs[j].batch) then OutcomeUnknown
    else if Overdue(db, j, requested) then Skipped
    else requested
  }

  predicate CanFinish(db: Db, w: Caller, requested: JobState) {
    && (requested.Skipped? || requested.Failed? || requested.OutcomeUnknown? || requested.ResultReady?)
    && w.valid && ConnLive(db, w.conn) && w.run in db.runs && w.job.Some? && w.job.value in db.jobs && w.token != 0
    && var j := db.jobs[w.job.value];
    && j.run == w.run && j.owner == w.owner && j.token == w.token
    && (if Terminal(j.state) then j.state == requested else
        && (Concluded(db, w.job.value, requested).ResultReady? ==> j.digest.Some? && HoldsJob(db, w) && w.current)
        && LeaseInstanceActive(db, j, w.conn))
  }

  function Finish(db: Db, j: Id, requested: JobState, reason: JobReason): Db
    requires j in db.jobs
  {
    var job := db.jobs[j];
    var state := Concluded(db, j, requested);
    if Terminal(job.state) then db else
    db.(jobs := db.jobs[j :=
      if state.ResultReady?
        then job.(state := state, reason := reason, owner := None, leaseUntil := None, token := job.token + 1)
      else job.(state := state,
                reason := if HasOpenCalls(db.calls, j, job.batch) || Overdue(db, j, requested) then OtherReason
                            else reason)])
  }

  /** Which terminal state an unfinished job gets when its work is revoked. */
  function Revoked(calls: seq<Call>, j: Id, batch: Id): JobState {
    if HasOpenCalls(calls, j, batch) then OutcomeUnknown else Skipped
  }

  function CancelledJob(calls: seq<Call>, j: Id, job: Job): Job {
    job.(cancelled := true, state := Revoked(calls, j, job.batch), owner := None, leaseUntil := None,
         token := job.token + 1, reason := OtherReason)
  }

  /** Cancel all background work of a run. */
  function CancelJobs(db: Db, r: Id): Db
    requires r in db.runs
  {
    db.(runs := db.runs[r := db.runs[r].(cancelRequested := true)],
        jobs := map j | j in db.jobs ::
                  if db.jobs[j].run == r && !Terminal(db.jobs[j].state) then CancelledJob(db.calls, j, db.jobs[j])
                    else db.jobs[j])
  }

  /** The public cancellation looks only at calls that carry the job's own id, and leaves the lease columns. */
  function StoppedJob(calls: seq<Call>, j: Id, job: Job): Job {
    job.(cancelled := true,
         state := if exists i :: 0 <= i < |calls| && calls[i].job == Some(j) && !calls[i].state.Settled?
                       then OutcomeUnknown else Skipped,
         token := job.token + 1, reason := OtherReason)
  }

  function CancelQuery(db: Db, r: Id): Db
    requires r in db.runs
  {
    var was := db.runs[r];
    db.(runs := db.runs[r := was.(cancelRequested := true,
                                  state := if was.state.Queued? || was.state.RunRunning? then Cancelled
                                             else was.state)],
        jobs := map j | j in db.jobs ::
                  if db.jobs[j].run == r && !Terminal(db.jobs[j].state) then StoppedJob(db.calls, j, db.jobs[j])
                    else db.jobs[j])
  }

  // -------------------------------------------------------------------- recovery

  predicate Abandoned(db: Db, j: Job) {
    j.owner.Some?
      && (j.instance.None? || (j.leaseUntil.Some? && j.leaseUntil.value <= db.now) || !Live(db, j.instance.value))
  }

  /** Work whose worker is gone, or that an interrupted run left behind and no sweep has looked at. */
  predicate RecoveryDue(db: Db, j: Id) {
    && j in db.jobs && db.jobs[j].run in db.runs
    && var job := db.jobs[j];
    && !Terminal(job.state)
    && (Abandoned(db, job) || (job.owner.None? && db.runs[job.run].state.Interrupted? && !job.reason.AwaitingRecovery?))
  }

  function TouchedBy(j: Id, b: Id): Call -> bool { (c: Call) => Touches(c, j, b) }

  function RunTouchedBy(r: Id, j: Id, b: Id): Call -> bool { (c: Call) => c.run == r && Touches(c, j, b) }

  /** What recovery makes of the job once its open calls are marked unknown. */
  function Recovered(db: Db, j: Id): (JobState, JobReason)
    requires j in db.jobs
  {
    var job := db.jobs[j];
    var uncertain := HasOpenCalls(db.calls, j, job.batch);
    var saved := AnySaved(db.calls, j, job.batch) && Recorded(db.calls, j) != "";
    if saved && job.digest.None? && !uncertain && db.recovery then (WaitingPrefix, AwaitingRecovery)
    else if uncertain || (job.digest.None? && Touched(db.calls, j, job.batch) && !saved)
           then (OutcomeUnknown, OtherReason)
    else if job.digest.Some? then (ResultReady, AwaitingRecovery)
    else if !db.recovery then (Skipped, OtherReason)
    else (WaitingPrefix, AwaitingRecovery)
  }

  function MarkTouched(db: Db, j: Id): Db
    requires j in db.jobs
  {
    MarkLost(db, TouchedBy(j, db.jobs[j].batch), TouchedBy(j, db.jobs[j].batch))
  }

  function RecoveredJob(db: Db, j: Id): Job
    requires j in db.jobs
  {
    var (state, reason) := Recovered(MarkTouched(db, j), j);
    db.jobs[j].(state := state, reason := reason, owner := None, leaseUntil := None, instance := None,
                token := db.jobs[j].token + 1)
  }

  function RecoverJob(db: Db, j: Id): Db
    requires j in db.jobs
  {
    MarkTouched(db, j).(jobs := db.jobs[j := RecoveredJob(db, j)])
  }

  /** The job can no longer finish: its time, its run or its identity is over. */
  predicate TerminationDue(db: Db, j: Id, stale: bool) {
    && j in db.jobs && db.jobs[j].run in db.runs && !Terminal(db.jobs[j].state)
    && var r := db.runs[db.jobs[j].run];
    (db.jobs[j].deadline <= db.now || r.cancelRequested || r.state.RunFailed? || r.state.TimedOut? || r.state.Cancelled?
     || stale)
  }

  /** The job's open calls are given up, if it has any. */
  function GiveUp(db: Db, j: Id): Db
    requires j in db.jobs
  {
    var job := db.jobs[j];
    if HasOpenCalls(db.calls, j, job.batch)
      then MarkLost(db, RunTouchedBy(job.run, j, job.batch), RunTouchedBy(job.run, j, job.batch)) else db
  }

  function TerminatedJob(db: Db, j: Id): Job
    requires j in db.jobs && db.jobs[j].run in db.runs
  {
    var job := db.jobs[j];
    job.(state := Revoked(db.calls, j, job.batch), reason := OtherReason, owner := None, leaseUntil := None,
         token := job.token + 1,
         cancelled := job.cancelled || db.runs[job.run].cancelRequested)
  }

  function TerminateJob(db: Db, j: Id): Db
    requires j in db.jobs && db.jobs[j].run in db.runs
  {
    GiveUp(db, j).(jobs := db.jobs[j := TerminatedJob(db, j)])
  }

  predicate CanFailRecovery(db: Db, j: Id) {
    j in db.jobs && !Terminal(db.jobs[j].state)
      && (db.jobs[j].leaseUntil.Some? ==> db.jobs[j].leaseUntil.value <= db.now)
  }

  function FailRecovery(db: Db, j: Id): Db
    requires j in db.jobs
  {
    var job := db.jobs[j];
    db.(jobs := db.jobs[j := job.(
      state := if HasOpenCalls(db.calls, j, job.batch) then OutcomeUnknown else Failed,
      reason := OtherReason, owner := None, leaseUntil := None, instance := None, token := job.token + 1)])
  }

  // ----------------------------------------------------------- runs and processes

  /** A process that is still alive extends its own registration; an expired one cannot be revived. */
  function Heartbeat(db: Db, i: Id, ttl: nat): Db
    requires i in db.instances
  {
    if Live(db, i) then db.(instances := db.instances[i := db.instances[i].(leaseUntil := db.now + ttl)]) else db
  }

  function StopInstance(db: Db, i: Id): Db
    requires i in db.instances
  {
    db.(instances := db.instances[i := db.instances[i].(stopped := true)])
  }

  function FinalState(r: Run, answered: bool, late: bool): RunState {
    if r.cancelRequested then Cancelled else if late then TimedOut else if answered then Completed else RunFailed
  }

  predicate CanFinishRun(db: Db, r: Id, conn: Option<Id>) {
    && r in db.runs && (db.runs[r].state.Queued? || db.runs[r].state.RunRunning?)
    && db.runs[r].owner == conn && ConnLive(db, conn)
  }

  function ForegroundOf(r: Id): Call -> bool { (c: Call) => c.run == r && c.job.None? }

  /** End a run and give up whatever its foreground still has in flight. */
  function FinishRun(db: Db, r: Id, answered: bool, late: bool): Db
    requires r in db.runs
  {
    MarkLost(db, ForegroundOf(r), ForegroundOf(r)).(
    runs := db.runs[r := db.runs[r].(state := FinalState(db.runs[r], answered, late || db.runs[r].deadline <= db.now))])
  }

  predicate OwnerStopped(instances: map<Id, Instance>, owner: Option<Id>) {
    owner.Some? && owner.value in instances && instances[owner.value].stopped
  }

  function Expire(db: Db): Db {
    db.(instances := map i | i in db.instances ::
        if db.instances[i].leaseUntil <= db.now then db.instances[i].(stopped := true) else db.instances[i])
  }

  function OwnedByStopped(instances: map<Id, Instance>): Call -> bool { (c: Call) => OwnerStopped(instances, c.owner) }

  function Anything(): Call -> bool { (c: Call) => true }

  function InterruptedRuns(runs: map<Id, Run>, instances: map<Id, Instance>): map<Id, Run> {
    map r | r in runs ::
      if (runs[r].state.Queued? || runs[r].state.RunRunning?) && OwnerStopped(instances, runs[r].owner)
      then runs[r].(state := Interrupted) else runs[r]
  }

  /** Stop expired processes, interrupt their runs and give up their calls. */
  function SweepOwners(db: Db): Db {
    var expired := Expire(db);
    MarkLost(expired, OwnedByStopped(expired.instances),
             Anything()).(runs := InterruptedRuns(db.runs, expired.instances))
  }

  predicate TerminalCall(db: Db, c: Call) {
    || (c.job.None? && c.run in db.runs && !db.runs[c.run].state.Queued? && !db.runs[c.run].state.RunRunning?)
    || (exists j :: j in db.jobs && Touches(c, j, db.jobs[j].batch) && Terminal(db.jobs[j].state))
  }

  function OverIn(db: Db, runs: set<Id>): Call -> bool { (c: Call) => c.run in runs && TerminalCall(db, c) }

  function InRuns(runs: set<Id>): Call -> bool { (c: Call) => c.run in runs }

  /** Give up the open calls of finished work in some runs. */
  function SweepTerminalCalls(db: Db, runs: set<Id>): Db { MarkLost(db, OverIn(db, runs), InRuns(runs)) }
}
