/** What a lease is worth, told in the columns of the job, process and run rows alone: one holder at a time, authority
    that ends with the lease, and recovery that takes nothing from a live worker. */
module Leases {
  import opened Types
  import opened Jobs
  import opened JobLaws
  import opened Runs
  import opened Safety

  predicate Unfinished(s: JobState) { s.WaitingPrefix? || s.Running? || s.ResultReady? }

  /** The process is registered, was not stopped, and its registration has not run out. */
  predicate Alive(db: Db, i: Option<Id>) {
    i.Some? && i.value in db.instances && !db.instances[i.value].stopped && db.now < db.instances[i.value].leaseUntil
  }

  /** An unfinished job has an owner whose lease still runs. */
  predicate Held(db: Db, j: Id) {
    && j in db.jobs && Unfinished(db.jobs[j].state)
    && db.jobs[j].owner.Some? && db.jobs[j].leaseUntil.Some? && db.now < db.jobs[j].leaseUntil.value
  }

  /** Held, by a process that is alive. */
  predicate HeldByLive(db: Db, j: Id) { Held(db, j) && Alive(db, db.jobs[j].instance) }

  // ------------------------------------------------------------------ one holder

  /** Nobody can claim a job under somebody's lease. */
  lemma HeldJobIsNotClaimed(db: Db, w: Caller, j: Id, owner: Id, duration: int)
    requires Held(db, j)
    ensures !Accepts(db, OfJob(DoClaim(w, j, owner, duration)))
  {
  }

  /** What may take a job from its holder: its own conclusion, a cancellation, the end of its run or time, or recovery
      of a worker whose process is gone. */
  predicate Withdraws(db: Db, s: Step, j: Id)
    requires j in db.jobs
  {
    var job := db.jobs[j];
    match s
    case OfWorker(x) => x.DoFinish? && x.w.job == Some(j) && x.w.owner == job.owner && x.w.token == job.token
    case OfJob(x) =>
      (match x
       case DoCancelJobs(r) => r == job.run
       case DoCancelQuery(r) => r == job.run
       case DoTerminate(k, stale) => k == j && job.run in db.runs && (stale || OverFor(db.runs[job.run]))
       case DoRecover(k) => k == j && !Alive(db, job.instance)
       case _ => false)
    case _ => false
  }

  predicate OverFor(r: Run) { r.cancelRequested || r.state.RunFailed? || r.state.TimedOut? || r.state.Cancelled? }

  /** Owner and token of a held job change for these reasons only. */
  lemma OnlyWithdrawalEndsHold(db: Db, s: Step, j: Id)
    requires Sound(db) && Held(db, j) && j in Apply(db, s).jobs
    requires Apply(db, s).jobs[j].owner != db.jobs[j].owner || Apply(db, s).jobs[j].token != db.jobs[j].token
    ensures Accepts(db, s) && Withdraws(db, s, j)
  {
    assert JobOk(db, j);
    match s
    case OfWorker(x) => HoldEndsByWorker(db, x, j);
    case OfJob(x) => HoldEndsByJob(db, x, j);
    case OfMoney(x) => MoneyKeepsJobs(db, x);
    case OfRun(x) => RunStepKeepsJobs(db, x);
  }

  lemma HoldEndsByWorker(db: Db, x: WorkerStep, j: Id)
    requires Held(db, j) && AcceptsWorker(db, x) && j in ApplyWorker(db, x).jobs
    requires ApplyWorker(db, x).jobs[j].owner != db.jobs[j].owner
             || ApplyWorker(db, x).jobs[j].token != db.jobs[j].token
    ensures Withdraws(db, OfWorker(x), j)
  {
  }

  lemma HoldEndsByJob(db: Db, x: JobStep, j: Id)
    requires Held(db, j) && JobShape(db.jobs[j]) && AcceptsJob(db, x) && j in ApplyJob(db, x).jobs
    requires ApplyJob(db, x).jobs[j].owner != db.jobs[j].owner || ApplyJob(db, x).jobs[j].token != db.jobs[j].token
    ensures Withdraws(db, OfJob(x), j)
  {
  }

  /** Nothing else touches the row of a held job but its holder's own transactions. */
  lemma HeldRowIsTheHolders(db: Db, s: Step, j: Id)
    requires Sound(db) && Held(db, j) && j in Apply(db, s).jobs && Apply(db, s).jobs[j] != db.jobs[j]
    ensures Accepts(db, s)
    ensures Withdraws(db, s, j)
            || (s.OfWorker? && s.x.w.job == Some(j) && s.x.w.owner == db.jobs[j].owner
                && s.x.w.token == db.jobs[j].token)
  {
    assert JobOk(db, j);
    match s
    case OfWorker(x) => RowChangesByWorker(db, x, j);
    case OfJob(x) => RowChangesByJob(db, x, j);
    case OfMoney(x) => MoneyKeepsJobs(db, x);
    case OfRun(x) => RunStepKeepsJobs(db, x);
  }

  lemma RowChangesByWorker(db: Db, x: WorkerStep, j: Id)
    requires Held(db, j) && AcceptsWorker(db, x) && j in ApplyWorker(db, x).jobs
    requires ApplyWorker(db, x).jobs[j] != db.jobs[j]
    ensures x.w.job == Some(j) && x.w.owner == db.jobs[j].owner && x.w.token == db.jobs[j].token
  {
  }

  lemma RowChangesByJob(db: Db, x: JobStep, j: Id)
    requires Held(db, j) && JobShape(db.jobs[j]) && AcceptsJob(db, x) && j in ApplyJob(db, x).jobs
    requires ApplyJob(db, x).jobs[j] != db.jobs[j]
    ensures Withdraws(db, OfJob(x), j)
  {
  }

  predicate TokenIs(db: Db, j: Id, token: nat) { j in db.jobs && db.jobs[j].token == token }

  lemma PrefixAfter(db: Db, steps: seq<Step>, k: nat)
    requires 0 < k <= |steps|
    ensures After(db, steps[..k]) == After(Apply(db, steps[0]), steps[1..][..k - 1])
  {
    assert steps[..k][0] == steps[0] && steps[..k][1..] == steps[1..][..k - 1];
  }

  /** The first step that changes a job's token. */
  lemma {:induction false} FirstChange(db: Db, steps: seq<Step>, j: Id, token: nat) returns (k: nat)
    requires Sound(db) && TokenIs(db, j, token) && !TokenIs(After(db, steps), j, token)
    ensures k < |steps| && Sound(After(db, steps[..k])) && TokenIs(After(db, steps[..k]), j, token)
    ensures !TokenIs(Apply(After(db, steps[..k]), steps[k]), j, token)
    decreases |steps|
  {
    if TokenIs(Apply(db, steps[0]), j, token) {
      StepKeeps(db, steps[0]);
      k := FirstChange(Apply(db, steps[0]), steps[1..], j, token);
      PrefixAfter(db, steps, k + 1);
      k := k + 1;
    } else {
      k := 0;
      assert steps[..0] == [];
    }
  }

  predicate LeaseOut(db: Db, j: Id)
    requires j in db.jobs
  {
    db.jobs[j].leaseUntil.Some? ==> db.jobs[j].leaseUntil.value <= db.now
  }

  /** However a hold ends - by the time the token has changed, or the lease is out - there was a moment, with the same
      holder, at which the lease had run out or a withdrawal was accepted. `k` is how far the run had come by then. */
  lemma HoldEnds(held: Db, steps: seq<Step>, j: Id) returns (k: nat)
    requires Sound(held) && j in held.jobs && held.jobs[j].owner.Some? && j in After(held, steps).jobs
    requires After(held, steps).jobs[j].token == held.jobs[j].token ==> LeaseOut(After(held, steps), j)
    ensures k <= |steps|
    ensures var at := After(held, steps[..k]);
            && j in at.jobs && at.jobs[j].owner == held.jobs[j].owner && at.jobs[j].token == held.jobs[j].token
            && (LeaseOut(at, j) || (k < |steps| && Accepts(at, steps[k]) && Withdraws(at, steps[k], j)))
  {
    if TokenIs(After(held, steps), j, held.jobs[j].token) {
      k := |steps|;
      assert steps[..k] == steps;
    } else {
      k := FirstChange(held, steps, j, held.jobs[j].token);
      ChangeIsWithdrawal(After(held, steps[..k]), steps[k], j);
    }
    SameTokenSameOwner(held, steps[..k], j);
  }

  lemma SameTokenSameOwner(db: Db, steps: seq<Step>, j: Id)
    requires Sound(db) && j in db.jobs && TokenIs(After(db, steps), j, db.jobs[j].token)
    ensures After(db, steps).jobs[j].owner == db.jobs[j].owner
  {
    RunKeeps(db, steps);
    assert JobEvolves(db.jobs[j], After(db, steps).jobs[j]);
  }

  lemma ChangeIsWithdrawal(at: Db, s: Step, j: Id)
    requires Sound(at) && j in at.jobs && !TokenIs(Apply(at, s), j, at.jobs[j].token)
    ensures LeaseOut(at, j) || (Accepts(at, s) && Withdraws(at, s, j))
  {
    StepKeeps(at, s);
    assert JobOk(at, j) && JobEvolves(at.jobs[j], Apply(at, s).jobs[j]);
    if !LeaseOut(at, j) {
      TerminalMeans(at.jobs[j].state);
      OnlyWithdrawalEndsHold(at, s, j);
    }
  }

  /** Two accepted claims of one job never overlap: before the second, the first holder's lease ran out, or its hold was
      withdrawn. */
  lemma ClaimsDoNotOverlap(db: Db, w: Caller, j: Id, owner: Id, duration: int, between: seq<Step>,
                           v: Caller, other: Id, span: int) returns (k: nat)
    requires Sound(db) && Accepts(db, OfJob(DoClaim(w, j, owner, duration)))
    requires var first := Apply(db, OfJob(DoClaim(w, j, owner, duration)));
             Accepts(After(first, between), OfJob(DoClaim(v, j, other, span)))
    ensures k <= |between|
    ensures var first := Apply(db, OfJob(DoClaim(w, j, owner, duration)));
            var at := After(first, between[..k]);
            && j in first.jobs && j in at.jobs && first.jobs[j].owner == Some(owner)
            && at.jobs[j].owner == Some(owner) && at.jobs[j].token == first.jobs[j].token
            && (LeaseOut(at, j) || (k < |between| && Accepts(at, between[k]) && Withdraws(at, between[k], j)))
  {
    StepKeeps(db, OfJob(DoClaim(w, j, owner, duration)));
    ClaimNamesOwner(db, w, j, owner, duration);
    ClaimableIsUnheld(After(Apply(db, OfJob(DoClaim(w, j, owner, duration))), between), v, j, other, span);
    k := HoldEnds(Apply(db, OfJob(DoClaim(w, j, owner, duration))), between, j);
  }

  lemma ClaimableIsUnheld(db: Db, w: Caller, j: Id, owner: Id, duration: int)
    requires Accepts(db, OfJob(DoClaim(w, j, owner, duration)))
    ensures j in db.jobs && LeaseOut(db, j)
  {
  }

  lemma TerminalMeans(s: JobState)
    ensures Unfinished(s) <==> !Terminal(s)
  {
  }

  lemma ClaimNamesOwner(db: Db, w: Caller, j: Id, owner: Id, duration: int)
    requires Accepts(db, OfJob(DoClaim(w, j, owner, duration)))
    ensures var after := Apply(db, OfJob(DoClaim(w, j, owner, duration)));
            j in after.jobs && after.jobs[j].owner == Some(owner)
  {
  }

  // ------------------------------------------------------------------- authority

  /** The capability that a claim returns. */
  function Granted(db: Db, w: Caller, j: Id, owner: Id): Caller
    requires j in db.jobs
  {
    Caller(w.run, Some(j), Some(owner), db.jobs[j].token, w.conn, true, true)
  }

  lemma ClaimIsEffect(db: Db, w: Caller, j: Id, owner: Id, duration: int)
    requires Accepts(db, OfJob(DoClaim(w, j, owner, duration)))
    ensures j in db.jobs && CanClaim(db, w, j, duration)
    ensures Apply(db, OfJob(DoClaim(w, j, owner, duration))) == Claim(db, w, j, owner, duration)
  {
  }

  /** The claimed row: the new owner and process under the next token, a lease for as long as asked but no longer than
      the job's deadline, and the state that its candidates give it. */
  lemma ClaimedRow(db: Db, w: Caller, j: Id, owner: Id, duration: int)
    requires Accepts(db, OfJob(DoClaim(w, j, owner, duration)))
    ensures j in db.jobs
    ensures var was, after := db.jobs[j], Apply(db, OfJob(DoClaim(w, j, owner, duration)));
            && j in after.jobs && after == db.(jobs := db.jobs[j := after.jobs[j]])
            && var job := after.jobs[j];
            && job == was.(state := job.state, owner := Some(owner), leaseUntil := job.leaseUntil,
                           instance := w.conn, token := was.token + 1, attempt := was.attempt + 1)
            && (if was.digest.Some? then job.state.ResultReady? else job.state.Running?)
            && job.leaseUntil.Some? && db.now < job.leaseUntil.value <= db.now + duration
            && job.leaseUntil.value <= was.deadline
            && (job.leaseUntil.value == db.now + duration || job.leaseUntil.value == was.deadline)
  {
    ClaimIsEffect(db, w, j, owner, duration);
  }

  /** A claim hands out working authority, and voids every earlier one. */
  lemma ClaimHandsOutAuthority(db: Db, w: Caller, j: Id, owner: Id, duration: int)
    requires Accepts(db, OfJob(DoClaim(w, j, owner, duration)))
    ensures j in db.jobs
    ensures var after := Apply(db, OfJob(DoClaim(w, j, owner, duration)));
            && j in after.jobs && w.run == after.jobs[j].run && w.run in after.runs
            && after.now < after.runs[w.run].deadline
            && HoldsJob(after, Granted(after, w, j, owner))
            && (forall v: Caller :: v.job == Some(j) && v.token <= db.jobs[j].token ==> !HoldsJob(after, v))
  {
    ClaimIsEffect(db, w, j, owner, duration);
    ClaimantHolds(db, w, j, owner, duration);
  }

  lemma ClaimantHolds(db: Db, w: Caller, j: Id, owner: Id, duration: int)
    requires CanClaim(db, w, j, duration)
    ensures var after := Claim(db, w, j, owner, duration);
            && HoldsJob(after, Granted(after, w, j, owner))
            && (forall v: Caller :: v.job == Some(j) && v.token <= db.jobs[j].token ==> !HoldsJob(after, v))
  {
  }

  /** A worker's step other than a conclusion is accepted only while its lease, its process, its run and its job last;
      so is a conclusion that would hand the job back. */
  lemma WritersAreInTime(db: Db, x: WorkerStep)
    requires AcceptsWorker(db, x) && x.w.job.Some?
    requires x.DoFinish? ==> x.w.job.value in db.jobs && Unfinished(db.jobs[x.w.job.value].state)
                             && Apply(db, OfWorker(x)).jobs[x.w.job.value].state.ResultReady?
                             && x.requested.ResultReady?
    ensures x.w.valid && x.w.job.value in db.jobs && x.w.run in db.runs
    ensures var job, run := db.jobs[x.w.job.value], db.runs[x.w.run];
            && job.run == x.w.run && job.owner.Some? && job.owner == x.w.owner && job.token == x.w.token
            && job.leaseUntil.Some? && db.now < job.leaseUntil.value && db.now < job.deadline
            && (if job.instance.Some? then Alive(db, job.instance) else x.w.conn.None?)
            && (x.w.conn.Some? ==> Alive(db, x.w.conn))
            && !job.cancelled && (Unfinished(job.state) || job.state.Committed?)
            && !run.cancelRequested && (run.state.RunRunning? || run.state.Completed? || run.state.Interrupted?)
  {
  }

  /** Any conclusion of an unfinished job is its present holder's, from a process that is still alive. */
  lemma ConclusionsAreTheHolders(db: Db, x: WorkerStep)
    requires AcceptsWorker(db, x) && x.DoFinish?
    ensures x.w.job.Some? && x.w.job.value in db.jobs && x.w.valid
    ensures var job := db.jobs[x.w.job.value];
            && job.run == x.w.run && job.owner == x.w.owner && job.token == x.w.token && x.w.token > 0
            && (Unfinished(job.state) ==> if job.instance.Some? then Alive(db, job.instance) else x.w.conn.None?)
            && (!Unfinished(job.state) ==> Apply(db, OfWorker(x)) == db && job.state == x.requested)
  {
  }

  /** And its holder can always conclude an unfinished job as skipped, failed or unknown, even after its lease ran
      out, as long as nobody took the job and its process is alive. */
  lemma HolderCanConclude(db: Db, w: Caller, requested: JobState, reason: JobReason)
    requires requested.Skipped? || requested.Failed? || requested.OutcomeUnknown?
    requires w.valid && w.job.Some? && w.job.value in db.jobs && w.run in db.runs
             && (w.conn.Some? ==> Alive(db, w.conn))
    requires var job := db.jobs[w.job.value];
             && Unfinished(job.state) && job.run == w.run && job.owner == w.owner && job.token == w.token > 0
             && (if job.instance.Some? then Alive(db, job.instance) else w.conn.None?)
    ensures Accepts(db, OfWorker(DoFinish(w, requested, reason)))
  {
  }

  /** The holder of a job in an open run can renew its lease at any time before it runs out. */
  lemma HolderCanRenew(db: Db, w: Caller, duration: int)
    requires 0 < duration <= 20 * SECOND && w.valid && w.current && w.job.Some? && w.job.value in db.jobs
             && w.run in db.runs
    requires var job, run := db.jobs[w.job.value], db.runs[w.run];
             && HeldByLive(db, w.job.value) && w.conn == job.instance && job.run == w.run && job.owner == w.owner
             && job.token == w.token > 0 && !job.cancelled && (job.state.Running? || job.state.ResultReady?)
             && db.now < job.deadline && db.now < run.deadline && !run.cancelRequested
             && (run.state.RunRunning? || run.state.Completed? || run.state.Interrupted?)
             && run.contract.m2 && !run.contract.diagnostic
    ensures Accepts(db, OfWorker(DoRenew(w, duration)))
  {
  }

  // -------------------------------------------------------------------- recovery

  /** The job has a worker, but its process is not alive or its lease has run out. */
  predicate Deserted(db: Db, j: Id) {
    && j in db.jobs && Unfinished(db.jobs[j].state) && db.jobs[j].owner.Some? && db.jobs[j].leaseUntil.Some?
    && (!Alive(db, db.jobs[j].instance) || db.jobs[j].leaseUntil.value <= db.now)
  }

  /** Recovery never takes a job from a live worker. */
  lemma LiveWorkIsNotDue(db: Db, j: Id)
    requires HeldByLive(db, j)
    ensures !RecoveryDue(db, j)
  {
  }

  /** And always takes it from one that is gone. */
  lemma DesertedWorkIsDue(db: Db, j: Id)
    requires Deserted(db, j) && db.jobs[j].run in db.runs
    ensures RecoveryDue(db, j)
  {
  }
}
