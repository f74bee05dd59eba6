/** What every transaction keeps of jobs, batches and their calls: the shape of a job, its link to its batch,
    write-once candidates, one extraction per batch, probe counters, and the fence. */
module JobLaws {
  import opened Types
  import opened Table
  import opened Ledger
  import opened LedgerLaws
  import opened Settlement
  import opened Jobs

  // ------------------------------------------------------------------ invariants

  predicate JobShape(j: Job) {
    && (!Terminal(j.state) ==> !j.cancelled && (j.state.ResultReady? <==> j.digest.Some?))
    && (j.owner.Some? <==> j.leaseUntil.Some?) && (j.owner.Some? ==> j.token > 0)
    && (j.state.Running? ==> j.owner.Some?) && (j.state.WaitingPrefix? ==> j.owner.None?)
    && (j.state.Committed? ==> j.digest.Some?)
    && (j.leaseUntil.Some? ==> j.leaseUntil.value <= j.deadline)
  }

  predicate JobOk(db: Db, j: Id)
    requires j in db.jobs
  {
    var job := db.jobs[j];
    && JobShape(job) && job.run in db.runs && db.runs[job.run].contract.m2
    && job.batch in db.batches && db.batches[job.batch].job == Some(j) && db.batches[job.batch].run == job.run
    && job.digest == db.batches[job.batch].digest
    && (job.state.Failed? ==>
          forall i :: 0 <= i < |db.calls| && db.calls[i].job == Some(j) ==> db.calls[i].state.Settled?)
  }

  function CountIn(b: Id, stage: Stage): Call -> nat { (c: Call) => if CallIn(c, b, stage) then 1 else 0 }

  predicate BatchOk(db: Db, b: Id)
    requires b in db.batches
  {
    var batch := db.batches[b];
    && (batch.raw.Some? <==> batch.digest.Some?)
    && (batch.job.Some? ==> batch.job.value in db.jobs && db.jobs[batch.job.value].batch == b)
    && batch.rounds <= 1 && batch.models <= 2 && batch.tools <= 4 && (batch.rounds == 1 <==> batch.probeToken.Some?)
    && (batch.rounds == 0 ==> batch.models == 0 && batch.tools == 0)
    && batch.models == Total(db.calls, CountIn(b, Probe))
    && Total(db.calls, CountIn(b, Extraction)) <= 1 && Total(db.calls, CountIn(b, Mapping)) <= 1
  }

  predicate NeedsBatch(s: Stage) { s.Extraction? || s.Mapping? || s.Probe? }

  predicate CallOk(db: Db, c: Call) {
    && c.run in db.runs
    && (NeedsBatch(c.stage) ==> c.batch.Some? && c.batch.value in db.batches && db.batches[c.batch.value].job == c.job)
    && (!NeedsBatch(c.stage) && c.batch.Some? ==> c.stage.Answer? && c.job.None? && !db.runs[c.run].contract.m2)
    && (c.job.Some? ==> c.job.value in db.jobs && (c.batch.Some? ==> c.batch == Some(db.jobs[c.job.value].batch)))
  }

  ghost predicate JobsInv(db: Db) {
    && (forall j :: j in db.jobs ==> JobOk(db, j))
    && (forall b :: b in db.batches ==> BatchOk(db, b))
    && (forall i :: 0 <= i < |db.calls| ==> CallOk(db, db.calls[i]))
  }

  // -------------------------------------------------------------------- the fence

  /** What the database trigger on the job table permits, and the write-once candidates. */
  predicate JobEvolves(j: Job, k: Job) {
    && k.run == j.run && k.key == j.key && k.identity == j.identity && k.batch == j.batch && k.prefix == j.prefix
    && k.deadline == j.deadline
    && j.token <= k.token && j.attempt <= k.attempt
    && ((k.owner != j.owner || k.instance != j.instance) && k.owner.Some? ==> j.token < k.token)
    && (j.cancelled ==> k.cancelled)
    && (Terminal(j.state) ==> k.state == j.state && k.token == j.token)
    && (j.digest.Some? ==> k.digest == j.digest)
    && (k.token == j.token ==> k.owner == j.owner)
  }

  predicate BatchEvolves(b: Batch, c: Batch) {
    && c.run == b.run && c.job == b.job && c.deadline == b.deadline
    && (b.raw.Some? ==> c.raw == b.raw && c.digest == b.digest)
    && b.rounds <= c.rounds && b.models <= c.models && b.tools <= c.tools
    && (b.probeToken.Some? ==> c.probeToken == b.probeToken)
  }

  ghost predicate JobsEvolve(db: Db, after: Db) {
    && (forall j :: j in db.jobs ==> j in after.jobs && JobEvolves(db.jobs[j], after.jobs[j]))
    && (forall b :: b in db.batches ==> b in after.batches && BatchEvolves(db.batches[b], after.batches[b]))
  }

  ghost predicate RunsKept(db: Db, after: Db) {
    forall r :: r in db.runs ==> r in after.runs && after.runs[r].contract == db.runs[r].contract
  }

  // ----------------------------------------------------------------- frame lemmas

  ghost predicate LedgerFrame(db: Db, after: Db) {
    && after.calls == db.calls && after.budgets == db.budgets && after.audits == db.audits
    && after.sessions == db.sessions && after.opening == db.opening && RunsKept(db, after)
    && (forall j :: j in db.jobs ==> j in after.jobs && after.jobs[j].run == db.jobs[j].run)
  }

  /** A step that moves no call and no money keeps the ledger. */
  lemma FrameKeepsLedger(db: Db, after: Db)
    requires LedgerInv(db) && AuditsOk(db) && LedgerFrame(db, after)
    ensures LedgerInv(after) && AuditsOk(after)
  {
    forall i | 0 <= i < |db.calls| ensures RowOk(after, after.calls[i]) {
      assert RowOk(db, db.calls[i]);
    }
    forall e ensures Conserved(after, e) && HaltExact(after, e) {
      assert Conserved(db, e) && HaltExact(db, e);
    }
    forall g ensures Within(after, g, StandingLimit(after, g)) {
      FrameKeepsLimits(db, after, g);
    }
    forall a | a in after.audits ensures AuditOk(after, a) {
      FrameKeepsAudit(db, after, a);
    }
  }

  lemma FrameKeepsLimits(db: Db, after: Db, g: Group)
    requires RowsOk(db) && AllWithin(db) && LedgerFrame(db, after)
    ensures Within(after, g, StandingLimit(after, g))
  {
    assert Within(db, g, StandingLimit(db, g));
    CountPositive(db, g);
    if i :| 0 <= i < |db.calls| && Member(g, db.calls[i]) {
      assert RowOk(db, db.calls[i]);
      assert StandingLimit(after, g) == StandingLimit(db, g);
    }
  }

  lemma FrameKeepsAudit(db: Db, after: Db, a: Id)
    requires RowsOk(db) && a in db.audits && AuditOk(db, a) && LedgerFrame(db, after)
    ensures AuditOk(after, a)
  {
    FindMeans(db.calls, a);
    assert RowOk(db, db.calls[Find(db.calls, a).value]);
  }

  /** A step on the call rows alone keeps every job: finished-as-failed jobs only have settled calls. */
  lemma CallStepKeepsJobs(db: Db, after: Db)
    requires JobsInv(db) && after.jobs == db.jobs && after.batches == db.batches && RunsKept(db, after)
    requires |after.calls| == |db.calls| && CallsEvolve(db.calls, after.calls)
    ensures JobsInv(after)
  {
    forall j | j in after.jobs ensures JobOk(after, j) {
      assert JobOk(db, j);
    }
    forall b | b in after.batches ensures BatchOk(after, b) {
      CallStepKeepsBatch(db, after, b);
    }
    forall i | 0 <= i < |after.calls| ensures CallOk(after, after.calls[i]) {
      assert CallOk(db, db.calls[i]) && Evolves(db.calls[i], after.calls[i]);
    }
  }

  lemma SameRowsEvolve(db: Db, after: Db)
    requires after.jobs == db.jobs && after.batches == db.batches
    ensures JobsEvolve(db, after)
  {
  }

  lemma CallStepKeepsBatch(db: Db, after: Db, b: Id)
    requires b in db.batches && BatchOk(db, b) && after.jobs == db.jobs && after.batches == db.batches
    requires |after.calls| == |db.calls| && CallsEvolve(db.calls, after.calls)
    ensures BatchOk(after, b)
  {
    assert SameCalls(db.calls, after.calls);
    TotalSame(db.calls, after.calls, CountIn(b, Probe), CountIn(b, Probe));
    TotalSame(db.calls, after.calls, CountIn(b, Extraction), CountIn(b, Extraction));
    TotalSame(db.calls, after.calls, CountIn(b, Mapping), CountIn(b, Mapping));
  }

  /** Only job rows change, and each keeps its shape, its batch and its candidates. */
  ghost predicate JobStep(db: Db, after: Db) {
    && after.calls == db.calls && after.batches == db.batches && after.jobs.Keys == db.jobs.Keys && RunsKept(db, after)
    && forall j :: j in db.jobs ==>
      && JobEvolves(db.jobs[j], after.jobs[j]) && JobShape(after.jobs[j]) && after.jobs[j].digest == db.jobs[j].digest
      && (after.jobs[j].state.Failed? ==> db.jobs[j].state.Failed? || !HasOpenCalls(db.calls, j, db.jobs[j].batch))
  }

  lemma JobStepKeeps(db: Db, after: Db)
    requires JobsInv(db) && JobStep(db, after)
    ensures JobsInv(after) && JobsEvolve(db, after)
  {
    forall j | j in after.jobs ensures JobOk(after, j) {
      assert JobOk(db, j);
    }
    forall b | b in after.batches ensures BatchOk(after, b) && BatchEvolves(db.batches[b], after.batches[b]) {
      assert BatchOk(db, b);
    }
    forall i | 0 <= i < |after.calls| ensures CallOk(after, after.calls[i]) {
      assert CallOk(db, db.calls[i]);
    }
  }

  /** One batch row changes but its candidates do not. */
  predicate BatchMayBecome(db: Db, b: Id, c: Batch)
    requires b in db.batches
  {
    && BatchEvolves(db.batches[b], c) && c.digest == db.batches[b].digest && c.raw == db.batches[b].raw
    && (BatchOk(db, b) ==> BatchOk(db.(batches := db.batches[b := c]), b))
  }

  lemma BatchOkKept(db: Db, after: Db, b: Id)
    requires b in db.batches && BatchOk(db, b) && after.calls == db.calls
    requires b in after.batches && after.batches[b] == db.batches[b]
    requires db.batches[b].job.Some? && db.batches[b].job.value in db.jobs ==>
               db.batches[b].job.value in after.jobs
                 && after.jobs[db.batches[b].job.value].batch == db.jobs[db.batches[b].job.value].batch
    ensures BatchOk(after, b)
  {
  }

  lemma JobOkKept(db: Db, after: Db, j: Id)
    requires j in db.jobs && JobOk(db, j) && after.calls == db.calls && RunsKept(db, after)
    requires j in after.jobs && after.jobs[j] == db.jobs[j]
    requires var b := db.jobs[j].batch;
             b in db.batches ==>
               b in after.batches && after.batches[b].job == db.batches[b].job
                 && after.batches[b].run == db.batches[b].run && after.batches[b].digest == db.batches[b].digest
    ensures JobOk(after, j)
  {
  }

  lemma CallOkKept(db: Db, after: Db, c: Call)
    requires CallOk(db, c) && RunsKept(db, after)
    requires forall b :: b in db.batches ==> b in after.batches && after.batches[b].job == db.batches[b].job
    requires forall j :: j in db.jobs ==> j in after.jobs && after.jobs[j].batch == db.jobs[j].batch
    ensures CallOk(after, c)
  {
  }

  /** At most the named job and batch change, and no other job's candidates do. */
  ghost predicate Only(db: Db, after: Db, j: Option<Id>, b: Option<Id>) {
    && after.calls == db.calls && RunsKept(db, after)
    && (forall x ::
          x in db.jobs ==>
            x in after.jobs && after.jobs[x].batch == db.jobs[x].batch
              && (Some(x) != j ==> after.jobs[x] == db.jobs[x]))
    && (forall x ::
          x in db.batches ==>
            x in after.batches && after.batches[x].job == db.batches[x].job
              && after.batches[x].run == db.batches[x].run)
    && (forall x :: x in db.batches && Some(x) != b ==> after.batches[x] == db.batches[x])
    && (b.Some? && b.value in db.batches ==>
          after.batches[b.value].digest == db.batches[b.value].digest || db.batches[b.value].job.None?
            || db.batches[b.value].job == j)
    && (forall x :: x in after.jobs ==> x in db.jobs || Some(x) == j)
    && (forall x :: x in after.batches ==> x in db.batches || Some(x) == b)
  }

  /** Such a change, with the changed rows in order and evolving as allowed. */
  ghost predicate Change(db: Db, after: Db, j: Option<Id>, b: Option<Id>) {
    && Only(db, after, j, b) && LedgerFrame(db, after)
    && (j.Some? ==>
          j.value in after.jobs && JobOk(after, j.value)
            && (j.value in db.jobs ==> JobEvolves(db.jobs[j.value], after.jobs[j.value])))
    && (b.Some? ==>
          b.value in after.batches && BatchOk(after, b.value)
            && (b.value in db.batches ==> BatchEvolves(db.batches[b.value], after.batches[b.value])))
  }

  lemma ChangeKeepsJobs(db: Db, after: Db, j: Option<Id>, b: Option<Id>)
    requires JobsInv(db) && Change(db, after, j, b)
    ensures JobsInv(after)
  {
    forall x | x in after.jobs ensures JobOk(after, x) {
      if Some(x) != j { JobOkKept(db, after, x); }
    }
    forall x | x in after.batches ensures BatchOk(after, x) {
      if Some(x) != b { BatchOkKept(db, after, x); }
    }
    forall i | 0 <= i < |after.calls| ensures CallOk(after, after.calls[i]) {
      CallOkKept(db, after, db.calls[i]);
    }
  }

  lemma ChangeEvolves(db: Db, after: Db, j: Option<Id>, b: Option<Id>)
    requires Change(db, after, j, b)
    ensures JobsEvolve(db, after)
  {
  }

  lemma ChangeKeeps(db: Db, after: Db, j: Option<Id>, b: Option<Id>)
    requires JobsInv(db) && Change(db, after, j, b)
    ensures JobsInv(after) && JobsEvolve(db, after) && LedgerFrame(db, after)
  {
    ChangeKeepsJobs(db, after, j, b);
    ChangeEvolves(db, after, j, b);
  }

  lemma BatchStepKeeps(db: Db, b: Id, c: Batch)
    requires JobsInv(db) && b in db.batches && BatchMayBecome(db, b, c)
    ensures var after := db.(batches := db.batches[b := c]);
            JobsInv(after) && JobsEvolve(db, after) && LedgerFrame(db, after)
  {
    assert BatchOk(db, b);
    assert Change(db, db.(batches := db.batches[b := c]), None, Some(b));
    ChangeKeeps(db, db.(batches := db.batches[b := c]), None, Some(b));
  }

  /** One job row is replaced by a row it may become. */
  predicate MayBecome(db: Db, j: Id, k: Job)
    requires j in db.jobs
  {
    && JobEvolves(db.jobs[j], k) && JobShape(k) && k.digest == db.jobs[j].digest
    && (k.state.Failed? ==> db.jobs[j].state.Failed? || !HasOpenCalls(db.calls, j, db.jobs[j].batch))
  }

  lemma JobsShaped(db: Db)
    requires JobsInv(db)
    ensures forall j :: j in db.jobs ==> JobShape(db.jobs[j])
  {
    forall j | j in db.jobs ensures JobShape(db.jobs[j]) {
      assert JobOk(db, j);
    }
  }

  lemma OneJobIsStep(db: Db, j: Id, k: Job)
    requires j in db.jobs && MayBecome(db, j, k) && forall x :: x in db.jobs ==> JobShape(db.jobs[x])
    ensures JobStep(db, db.(jobs := db.jobs[j := k])) && LedgerFrame(db, db.(jobs := db.jobs[j := k]))
  {
  }

  lemma OneJobKeeps(db: Db, j: Id, k: Job)
    requires JobsInv(db) && j in db.jobs && MayBecome(db, j, k)
    ensures var after := db.(jobs := db.jobs[j := k]);
            JobsInv(after) && JobsEvolve(db, after) && LedgerFrame(db, after)
  {
    JobsShaped(db);
    OneJobIsStep(db, j, k);
    JobStepKeeps(db, db.(jobs := db.jobs[j := k]));
  }

  // ------------------------------------------------------------------ transactions

  lemma ClaimedMayBecome(db: Db, w: Caller, j: Id, owner: Id, duration: int)
    requires CanClaim(db, w, j, duration) && JobShape(db.jobs[j])
    ensures MayBecome(db, j, Claim(db, w, j, owner, duration).jobs[j])
  {
  }

  lemma ClaimKeeps(db: Db, w: Caller, j: Id, owner: Id, duration: int)
    requires JobsInv(db) && CanClaim(db, w, j, duration)
    ensures var after := Claim(db, w, j, owner, duration);
            JobsInv(after) && JobsEvolve(db, after) && LedgerFrame(db, after)
  {
    JobsShaped(db);
    ClaimedMayBecome(db, w, j, owner, duration);
    OneJobKeeps(db, j, Claim(db, w, j, owner, duration).jobs[j]);
  }

  /** Renewal keeps owner, fence and deadline, never shortens a lease and never revives an expired one; the lease then
      lasts for the duration asked, or as long as it did if that was longer, or to the job's deadline. */
  lemma RenewedLease(db: Db, w: Caller, duration: int)
    requires CanRenew(db, w, duration) && JobShape(db.jobs[w.job.value])
    ensures var j := db.jobs[w.job.value];
            var k := Renew(db, w.job.value, duration).jobs[w.job.value];
            && MayBecome(db, w.job.value, k) && k == j.(leaseUntil := k.leaseUntil)
            && db.now < j.leaseUntil.value <= k.leaseUntil.value <= j.deadline
            && (k.leaseUntil.value <= db.now + duration || k.leaseUntil == j.leaseUntil)
            && (db.now + duration <= k.leaseUntil.value || k.leaseUntil.value == j.deadline)
  {
  }

  lemma RenewKeeps(db: Db, w: Caller, duration: int)
    requires JobsInv(db) && CanRenew(db, w, duration)
    ensures var after := Renew(db, w.job.value, duration);
            JobsInv(after) && JobsEvolve(db, after) && LedgerFrame(db, after)
  {
    JobsShaped(db);
    RenewedLease(db, w, duration);
    OneJobKeeps(db, w.job.value, Renew(db, w.job.value, duration).jobs[w.job.value]);
  }

  lemma FinishedMayBecome(db: Db, w: Caller, requested: JobState, reason: JobReason)
    requires CanFinish(db, w, requested) && JobShape(db.jobs[w.job.value])
    ensures MayBecome(db, w.job.value, Finish(db, w.job.value, requested, reason).jobs[w.job.value])
  {
  }

  lemma FinishReplacesOneJob(db: Db, w: Caller, requested: JobState, reason: JobReason)
    requires CanFinish(db, w, requested) && JobShape(db.jobs[w.job.value])
    ensures var j, after := w.job.value, Finish(db, w.job.value, requested, reason);
            j in after.jobs && MayBecome(db, j, after.jobs[j]) && after == db.(jobs := db.jobs[j := after.jobs[j]])
  {
    FinishedMayBecome(db, w, requested, reason);
    if Terminal(db.jobs[w.job.value].state) {
      assert db.jobs[w.job.value := db.jobs[w.job.value]] == db.jobs;
    }
  }

  lemma FinishKeeps(db: Db, w: Caller, requested: JobState, reason: JobReason)
    requires JobsInv(db) && CanFinish(db, w, requested)
    ensures var after := Finish(db, w.job.value, requested, reason);
            JobsInv(after) && JobsEvolve(db, after) && LedgerFrame(db, after)
  {
    JobsShaped(db);
    FinishReplacesOneJob(db, w, requested, reason);
    OneJobKeeps(db, w.job.value, Finish(db, w.job.value, requested, reason).jobs[w.job.value]);
  }

  lemma RevokedMayBecome(db: Db, j: Id)
    requires j in db.jobs && JobShape(db.jobs[j]) && !Terminal(db.jobs[j].state)
    ensures MayBecome(db, j, CancelledJob(db.calls, j, db.jobs[j]))
            && MayBecome(db, j, StoppedJob(db.calls, j, db.jobs[j]))
    ensures MayBecome(db, j, FailRecovery(db, j).jobs[j])
  {
  }

  lemma CancelsStep(db: Db, r: Id)
    requires r in db.runs && forall j :: j in db.jobs ==> JobShape(db.jobs[j])
    ensures JobStep(db, CancelJobs(db, r)) && JobStep(db, CancelQuery(db, r))
  {
    forall j | j in db.jobs && !Terminal(db.jobs[j].state)
      ensures MayBecome(db, j, CancelledJob(db.calls, j, db.jobs[j]))
              && MayBecome(db, j, StoppedJob(db.calls, j, db.jobs[j]))
    {
      RevokedMayBecome(db, j);
    }
  }

  lemma CancelsKeep(db: Db, r: Id)
    requires JobsInv(db) && r in db.runs
    ensures JobsInv(CancelJobs(db, r)) && JobsEvolve(db, CancelJobs(db, r)) && LedgerFrame(db, CancelJobs(db, r))
    ensures JobsInv(CancelQuery(db, r)) && JobsEvolve(db, CancelQuery(db, r)) && LedgerFrame(db, CancelQuery(db, r))
  {
    JobsShaped(db);
    CancelsStep(db, r);
    JobStepKeeps(db, CancelJobs(db, r));
    JobStepKeeps(db, CancelQuery(db, r));
  }

  lemma FailRecoveryKeeps(db: Db, j: Id)
    requires JobsInv(db) && CanFailRecovery(db, j)
    ensures JobsInv(FailRecovery(db, j)) && JobsEvolve(db, FailRecovery(db, j)) && LedgerFrame(db, FailRecovery(db, j))
  {
    JobsShaped(db);
    RevokedMayBecome(db, j);
    OneJobKeeps(db, j, FailRecovery(db, j).jobs[j]);
  }

  // --------------------------------------------------------------------- batches

  lemma ValidateKeeps(db: Db, w: Caller, b: Id, report: Id, validated: nat, inconclusive: nat)
    requires JobsInv(db) && CanValidate(db, w, b)
    ensures var after := Validate(db, b, report, validated, inconclusive);
            JobsInv(after) && JobsEvolve(db, after) && LedgerFrame(db, after)
  {
    BatchStepKeeps(db, b, Validate(db, b, report, validated, inconclusive).batches[b]);
  }

  lemma ProbeStepsKeep(db: Db, w: Caller, b: Id, token: Id, doubts: nat)
    requires JobsInv(db)
    ensures CanBeginProbe(db, w, b, doubts) ==>
              JobsInv(BeginProbe(db, b, token)) && JobsEvolve(db, BeginProbe(db, b, token))
                && LedgerFrame(db, BeginProbe(db, b, token))
    ensures CanOpenInProbe(db, w, b, token) ==>
              JobsInv(OpenInProbe(db, b)) && JobsEvolve(db, OpenInProbe(db, b)) && LedgerFrame(db, OpenInProbe(db, b))
  {
    if CanBeginProbe(db, w, b, doubts) {
      BatchStepKeeps(db, b, BeginProbe(db, b, token).batches[b]);
    }
    if CanOpenInProbe(db, w, b, token) {
      BatchStepKeeps(db, b, OpenInProbe(db, b).batches[b]);
    }
  }

  lemma StoredRowsOk(db: Db, w: Caller, b: Id, raw: Id, digest: Id)
    requires CanStore(db, w, b, raw) && BatchOk(db, b) && (w.job.Some? ==> JobOk(db, w.job.value))
             && db.batches[b].raw.None?
    ensures var after := Store(db, w, b, raw, digest);
            && BatchOk(after, b) && BatchEvolves(db.batches[b], after.batches[b])
            && (w.job.Some? ==> JobOk(after, w.job.value) && JobEvolves(db.jobs[w.job.value], after.jobs[w.job.value]))
  {
  }

  lemma NothingIsChange(db: Db, j: Option<Id>, b: Id)
    requires b in db.batches && BatchOk(db, b) && (j.Some? ==> j.value in db.jobs && JobOk(db, j.value))
    ensures Change(db, db, j, Some(b))
  {
  }

  lemma StoreIsLocal(db: Db, w: Caller, b: Id, raw: Id, digest: Id)
    requires CanStore(db, w, b, raw) && db.batches[b].raw.None?
    ensures Only(db, Store(db, w, b, raw, digest), w.job, Some(b)) && LedgerFrame(db, Store(db, w, b, raw, digest))
  {
  }

  lemma StoreIsChange(db: Db, w: Caller, b: Id, raw: Id, digest: Id)
    requires CanStore(db, w, b, raw) && BatchOk(db, b) && (w.job.Some? ==> JobOk(db, w.job.value))
    ensures Change(db, Store(db, w, b, raw, digest), w.job, Some(b))
  {
    if db.batches[b].raw.Some? {
      NothingIsChange(db, w.job, b);
    } else {
      StoredRowsOk(db, w, b, raw, digest);
      StoreIsLocal(db, w, b, raw, digest);
    }
  }

  /** Storing candidates gives the batch and its job the same digest, once. */
  lemma StoreKeeps(db: Db, w: Caller, b: Id, raw: Id, digest: Id)
    requires JobsInv(db) && CanStore(db, w, b, raw)
    ensures var after := Store(db, w, b, raw, digest);
            JobsInv(after) && JobsEvolve(db, after) && LedgerFrame(db, after)
  {
    StoreIsChange(db, w, b, raw, digest);
    ChangeKeeps(db, Store(db, w, b, raw, digest), w.job, Some(b));
  }

  lemma CommittedRowsOk(db: Db, w: Caller, b: Id, report: Id, published: nat)
    requires CanCommit(db, w, b, report) && BatchOk(db, b) && (w.job.Some? ==> JobOk(db, w.job.value))
    ensures var after := Commit(db, w, b, published);
            && BatchOk(after, b) && BatchEvolves(db.batches[b], after.batches[b])
            && (w.job.Some? ==> JobOk(after, w.job.value) && JobEvolves(db.jobs[w.job.value], after.jobs[w.job.value]))
  {
  }

  lemma CommitTouchesOnly(db: Db, w: Caller, b: Id, report: Id, published: nat)
    requires CanCommit(db, w, b, report)
    ensures Only(db, Commit(db, w, b, published), w.job, Some(b)) && LedgerFrame(db, Commit(db, w, b, published))
  {
  }

  lemma CommitIsChange(db: Db, w: Caller, b: Id, report: Id, published: nat)
    requires CanCommit(db, w, b, report) && BatchOk(db, b) && (w.job.Some? ==> JobOk(db, w.job.value))
    ensures Change(db, Commit(db, w, b, published), w.job, Some(b))
  {
    CommittedRowsOk(db, w, b, report, published);
    CommitTouchesOnly(db, w, b, report, published);
  }

  lemma CommitKeeps(db: Db, w: Caller, b: Id, report: Id, published: nat)
    requires JobsInv(db) && CanCommit(db, w, b, report)
    ensures var after := Commit(db, w, b, published);
            JobsInv(after) && JobsEvolve(db, after) && LedgerFrame(db, after)
  {
    CommitIsChange(db, w, b, report, published);
    ChangeKeeps(db, Commit(db, w, b, published), w.job, Some(b));
  }

  lemma CreateJobIsChange(db: Db, w: Caller, key: Id, identity: Id, prefix: Id, j: Id, b: Id)
    requires CanCreateJob(db, w, key, j, b)
    requires forall i :: 0 <= i < |db.calls| ==> db.calls[i].job != Some(j)
    requires forall s :: NeedsBatch(s) ==> Total(db.calls, CountIn(b, s)) == 0
    ensures Change(db, CreateJob(db, w, key, identity, prefix, j, b), Some(j), Some(b))
  {
  }

  lemma CreateJobKeeps(db: Db, w: Caller, key: Id, identity: Id, prefix: Id, j: Id, b: Id)
    requires JobsInv(db) && CanCreateJob(db, w, key, j, b)
    ensures var after := CreateJob(db, w, key, identity, prefix, j, b);
            JobsInv(after) && JobsEvolve(db, after) && LedgerFrame(db, after)
  {
    NothingIn(db, b);
    NothingOf(db, j);
    CreateJobIsChange(db, w, key, identity, prefix, j, b);
    ChangeKeeps(db, CreateJob(db, w, key, identity, prefix, j, b), Some(j), Some(b));
  }

  lemma BeginExtractionIsChange(db: Db, w: Caller, b: Id)
    requires CanBeginExtraction(db, w, b) && forall s :: NeedsBatch(s) ==> Total(db.calls, CountIn(b, s)) == 0
    ensures Change(db, BeginExtraction(db, w, b), None, Some(b))
  {
  }

  lemma BeginExtractionKeeps(db: Db, w: Caller, b: Id)
    requires JobsInv(db) && CanBeginExtraction(db, w, b)
    ensures var after := BeginExtraction(db, w, b);
            JobsInv(after) && JobsEvolve(db, after) && LedgerFrame(db, after)
  {
    NothingIn(db, b);
    BeginExtractionIsChange(db, w, b);
    ChangeKeeps(db, BeginExtraction(db, w, b), None, Some(b));
  }

  /** No generation was ever dispatched for a batch that does not exist yet. */
  lemma NothingIn(db: Db, b: Id)
    requires JobsInv(db) && b !in db.batches
    ensures forall s :: NeedsBatch(s) ==> Total(db.calls, CountIn(b, s)) == 0
  {
    forall i | 0 <= i < |db.calls| ensures forall s :: NeedsBatch(s) ==> CountIn(b, s)(db.calls[i]) == 0 {
      assert CallOk(db, db.calls[i]);
    }
    forall s | NeedsBatch(s) ensures Total(db.calls, CountIn(b, s)) == 0 {
      TotalPositive(db.calls, CountIn(b, s));
    }
  }

  lemma NothingOf(db: Db, j: Id)
    requires JobsInv(db) && j !in db.jobs
    ensures forall i :: 0 <= i < |db.calls| ==> db.calls[i].job != Some(j)
  {
    forall i | 0 <= i < |db.calls| ensures db.calls[i].job != Some(j) {
      assert CallOk(db, db.calls[i]);
    }
  }

  // ------------------------------------------------------------------- admission

  /** The row an admission inserts satisfies everything the ledger asks of a fresh row. */
  lemma AdmittedRowIsFresh(db: Db, w: Caller, q: Request)
    requires JobsInv(db) && CanReserve(db, w, q)
    ensures FreshRow(db, db.runs[w.run].contract, RowFor(db, w, q))
  {
    if w.job.Some? { assert JobOk(db, w.job.value); }
  }

  lemma AdmittedCallOk(db: Db, w: Caller, q: Request)
    requires JobsInv(db) && CanReserve(db, w, q)
    ensures CallOk(db, RowFor(db, w, q))
    ensures w.job.Some? ==> !db.jobs[w.job.value].state.Failed?
  {
    if w.job.Some? { assert JobOk(db, w.job.value); }
    if q.batch.Some? && q.batch.value in db.batches { assert BatchOk(db, q.batch.value); }
  }

  lemma NoneIn(calls: seq<Call>, b: Id, stage: Stage)
    requires !AnyCallIn(calls, b, stage)
    ensures Total(calls, CountIn(b, stage)) == 0
  {
    TotalPositive(calls, CountIn(b, stage));
  }

  /** The second generation of a stage, a third probe or a probe outside its round cannot enter a batch. */
  predicate StageOpen(db: Db, b: Id, c: Call)
    requires b in db.batches
  {
    && (CallIn(c, b, Probe) ==> db.batches[b].rounds == 1 && db.batches[b].models < 2)
    && (CallIn(c, b, Extraction) ==> !AnyCallIn(db.calls, b, Extraction))
    && (CallIn(c, b, Mapping) ==> !AnyCallIn(db.calls, b, Mapping))
  }

  lemma AdmittedStageOpen(db: Db, w: Caller, q: Request, b: Id)
    requires CanReserve(db, w, q) && b in db.batches
    ensures StageOpen(db, b, RowFor(db, w, q))
  {
  }

  lemma AppendedBatchOk(db: Db, after: Db, c: Call, b: Id)
    requires b in db.batches && BatchOk(db, b) && StageOpen(db, b, c)
    requires after.calls == db.calls + [c] && after.jobs == db.jobs && b in after.batches
    requires after.batches[b]
               == if CallIn(c, b, Probe) then db.batches[b].(models := db.batches[b].models + 1) else db.batches[b]
    ensures BatchOk(after, b)
  {
    TotalAppend(db.calls, c, CountIn(b, Probe));
    TotalAppend(db.calls, c, CountIn(b, Extraction));
    TotalAppend(db.calls, c, CountIn(b, Mapping));
    if CallIn(c, b, Extraction) { NoneIn(db.calls, b, Extraction); }
    if CallIn(c, b, Mapping) { NoneIn(db.calls, b, Mapping); }
  }

  lemma AdmittedKeepsJob(db: Db, w: Caller, q: Request, j: Id)
    requires CanReserve(db, w, q) && j in db.jobs && JobOk(db, j)
    ensures JobOk(ReserveCall(db, w, q), j)
  {
  }

  lemma ReserveKeepsBatch(db: Db, w: Caller, q: Request, b: Id)
    requires CanReserve(db, w, q) && b in db.batches && BatchOk(db, b)
    ensures BatchOk(ReserveCall(db, w, q), b)
  {
    AdmittedStageOpen(db, w, q, b);
    AppendedBatchOk(db, ReserveCall(db, w, q), RowFor(db, w, q), b);
  }

  lemma ReserveKeepsJobs(db: Db, w: Caller, q: Request)
    requires JobsInv(db) && CanReserve(db, w, q)
    ensures JobsInv(ReserveCall(db, w, q))
  {
    var after := ReserveCall(db, w, q);
    AdmittedCallOk(db, w, q);
    forall j | j in after.jobs ensures JobOk(after, j) {
      AdmittedKeepsJob(db, w, q, j);
    }
    forall b | b in after.batches ensures BatchOk(after, b) {
      ReserveKeepsBatch(db, w, q, b);
    }
    forall i | 0 <= i < |after.calls| ensures CallOk(after, after.calls[i]) {
      CallOkKept(db, after, after.calls[i]);
    }
  }

  lemma ReserveEvolves(db: Db, w: Caller, q: Request)
    requires CanReserve(db, w, q)
    ensures JobsEvolve(db, ReserveCall(db, w, q))
  {
  }

  lemma ReserveKeepsLedger(db: Db, w: Caller, q: Request)
    requires JobsInv(db) && LedgerInv(db) && AuditsOk(db) && CanReserve(db, w, q)
    ensures LedgerInv(ReserveCall(db, w, q)) && AuditsOk(ReserveCall(db, w, q))
            && CallsEvolve(db.calls, ReserveCall(db, w, q).calls)
  {
    var c := RowFor(db, w, q);
    var inserted := Insert(db, c);
    AdmittedRowIsFresh(db, w, q);
    InsertKeeps(db, db.runs[w.run].contract, c);
    InsertKeepsAudits(db, c);
    FrameKeepsLedger(inserted, ReserveCall(db, w, q));
    NothingEvolves(db);
  }

  lemma InsertKeepsAudits(db: Db, c: Call)
    requires AuditsOk(db) && Find(db.calls, c.attempt).None?
    ensures AuditsOk(Insert(db, c))
  {
    FindMeans(db.calls, c.attempt);
    forall a | a in db.audits ensures AuditOk(Insert(db, c), a) {
      assert AuditOk(db, a);
      FindMeans(db.calls, a);
      assert (db.calls + [c])[..|db.calls|] == db.calls;
    }
  }

  // -------------------------------------------------------------------- recovery

  /** Marking lost calls touches nothing but call states and halts. */
  lemma MarkLostKeepsAll(db: Db, lost: Call -> bool, scope: Call -> bool)
    requires LedgerInv(db) && AuditsOk(db) && JobsInv(db)
    requires forall i ::
               0 <= i < |db.calls| && lost(db.calls[i]) && db.calls[i].state.Reserved? ==>
                 scope(db.calls[i].(state := Unknown))
    ensures var after := MarkLost(db, lost, scope);
            LedgerInv(after) && AuditsOk(after) && JobsInv(after) && CallsEvolve(db.calls, after.calls)
              && |after.calls| == |db.calls|
  {
    var after := MarkLost(db, lost, scope);
    MarkLostKeeps(db, lost, scope);
    MarkLostEvolves(db, lost, scope);
    CallStepKeepsJobs(db, after);
    forall a | a in after.audits ensures AuditOk(after, a) {
      AuditsSurvive(db, after, a);
    }
  }

  lemma RecoveredMayBecome(db: Db, j: Id)
    requires j in db.jobs && JobShape(db.jobs[j]) && RecoveryDue(db, j)
    ensures MayBecome(MarkTouched(db, j), j, RecoveredJob(db, j))
  {
  }

  lemma RecoveryFrame(db: Db, j: Id)
    requires j in db.jobs
    ensures MarkTouched(db, j).jobs == db.jobs && MarkTouched(db, j).batches == db.batches
    ensures RecoverJob(db, j) == MarkTouched(db, j).(jobs := db.jobs[j := RecoveredJob(db, j)])
  {
  }

  lemma MarkTouchedKeeps(db: Db, j: Id)
    requires LedgerInv(db) && AuditsOk(db) && JobsInv(db) && j in db.jobs
    ensures var marked := MarkTouched(db, j);
            LedgerInv(marked) && AuditsOk(marked) && JobsInv(marked) && CallsEvolve(db.calls, marked.calls)
  {
    MarkLostKeepsAll(db, TouchedBy(j, db.jobs[j].batch), TouchedBy(j, db.jobs[j].batch));
  }

  lemma RecoverJobKeeps(db: Db, j: Id)
    requires LedgerInv(db) && AuditsOk(db) && JobsInv(db) && RecoveryDue(db, j)
    ensures var after := RecoverJob(db, j);
            LedgerInv(after) && AuditsOk(after) && JobsInv(after) && JobsEvolve(db, after)
              && CallsEvolve(db.calls, after.calls)
  {
    assert JobOk(db, j);
    MarkTouchedKeeps(db, j);
    RecoveredMayBecome(db, j);
    RecoveryFrame(db, j);
    JobAfterCallsKeeps(db, MarkTouched(db, j), j, RecoveredJob(db, j), RecoverJob(db, j));
  }

  /** One job row changes after calls were marked. */
  lemma JobAfterCallsKeeps(db: Db, marked: Db, j: Id, k: Job, after: Db)
    requires LedgerInv(marked) && AuditsOk(marked) && JobsInv(marked) && marked.jobs == db.jobs
             && marked.batches == db.batches
    requires j in db.jobs && MayBecome(marked, j, k) && after == marked.(jobs := db.jobs[j := k])
    ensures LedgerInv(after) && AuditsOk(after) && JobsInv(after) && JobsEvolve(db, after)
  {
    OneJobKeeps(marked, j, k);
    FrameKeepsLedger(marked, after);
  }

  lemma TerminatedMayBecome(db: Db, j: Id, stale: bool)
    requires j in db.jobs && JobShape(db.jobs[j]) && TerminationDue(db, j, stale)
    ensures MayBecome(GiveUp(db, j), j, TerminatedJob(db, j))
  {
  }

  lemma GiveUpFrame(db: Db, j: Id)
    requires j in db.jobs && db.jobs[j].run in db.runs
    ensures GiveUp(db, j).jobs == db.jobs && GiveUp(db, j).batches == db.batches
    ensures TerminateJob(db, j) == GiveUp(db, j).(jobs := db.jobs[j := TerminatedJob(db, j)])
  {
  }

  lemma GiveUpKeeps(db: Db, j: Id)
    requires LedgerInv(db) && AuditsOk(db) && JobsInv(db) && j in db.jobs
    ensures var marked := GiveUp(db, j);
            LedgerInv(marked) && AuditsOk(marked) && JobsInv(marked) && CallsEvolve(db.calls, marked.calls)
  {
    NothingEvolves(db);
    var touched := RunTouchedBy(db.jobs[j].run, j, db.jobs[j].batch);
    MarkLostKeepsAll(db, touched, touched);
  }

  lemma TerminateJobKeeps(db: Db, j: Id, stale: bool)
    requires LedgerInv(db) && AuditsOk(db) && JobsInv(db) && TerminationDue(db, j, stale)
    ensures var after := TerminateJob(db, j);
            LedgerInv(after) && AuditsOk(after) && JobsInv(after) && JobsEvolve(db, after)
              && CallsEvolve(db.calls, after.calls)
  {
    JobsShaped(db);
    GiveUpFrame(db, j);
    GiveUpKeeps(db, j);
    TerminatedMayBecome(db, j, stale);
    JobAfterCallsKeeps(db, GiveUp(db, j), j, TerminatedJob(db, j), TerminateJob(db, j));
  }

  // ----------------------------------------------------------- runs and processes

  /** A step on runs and processes that keeps contracts and deadlines keeps everything. */
  ghost predicate RunsOnly(db: Db, after: Db) {
    && RunsKept(db, after) && after.calls == db.calls && after.jobs == db.jobs && after.batches == db.batches
    && after.budgets == db.budgets && after.audits == db.audits && after.sessions == db.sessions
    && after.opening == db.opening
  }

  lemma RunsOnlyKeepsJobs(db: Db, after: Db)
    requires JobsInv(db) && RunsOnly(db, after)
    ensures JobsInv(after) && LedgerFrame(db, after)
  {
    JobsShaped(db);
    JobStepKeeps(db, after);
  }

  lemma RunStepKeeps(db: Db, after: Db)
    requires LedgerInv(db) && AuditsOk(db) && JobsInv(db) && RunsOnly(db, after)
    ensures LedgerInv(after) && AuditsOk(after) && JobsInv(after) && JobsEvolve(db, after)
            && CallsEvolve(db.calls, after.calls)
  {
    RunsOnlyKeepsJobs(db, after);
    FrameKeepsLedger(db, after);
    NothingEvolves(db);
    SameRowsEvolve(db, after);
  }

  lemma FinishRunKeeps(db: Db, r: Id, answered: bool, late: bool)
    requires LedgerInv(db) && AuditsOk(db) && JobsInv(db) && r in db.runs
    ensures var after := FinishRun(db, r, answered, late);
            LedgerInv(after) && AuditsOk(after) && JobsInv(after) && JobsEvolve(db, after)
              && CallsEvolve(db.calls, after.calls)
  {
    MarkLostKeepsAll(db, ForegroundOf(r), ForegroundOf(r));
    RunStepKeeps(MarkLost(db, ForegroundOf(r), ForegroundOf(r)), FinishRun(db, r, answered, late));
    SameRowsEvolve(db, FinishRun(db, r, answered, late));
  }

  lemma ExpireKeeps(db: Db)
    requires LedgerInv(db) && AuditsOk(db) && JobsInv(db)
    ensures LedgerInv(Expire(db)) && AuditsOk(Expire(db)) && JobsInv(Expire(db))
  {
    RunStepKeeps(db, Expire(db));
  }

  lemma SweepTouchesRunsOnly(db: Db)
    ensures RunsOnly(MarkLost(Expire(db), OwnedByStopped(Expire(db).instances), Anything()), SweepOwners(db))
  {
  }

  lemma SweepOwnersKeeps(db: Db)
    requires LedgerInv(db) && AuditsOk(db) && JobsInv(db)
    ensures var after := SweepOwners(db);
            LedgerInv(after) && AuditsOk(after) && JobsInv(after) && JobsEvolve(db, after)
              && CallsEvolve(db.calls, after.calls)
  {
    var expired := Expire(db);
    ExpireKeeps(db);
    MarkLostKeepsAll(expired, OwnedByStopped(expired.instances), Anything());
    SweepTouchesRunsOnly(db);
    RunStepKeeps(MarkLost(expired, OwnedByStopped(expired.instances), Anything()), SweepOwners(db));
    SameRowsEvolve(db, SweepOwners(db));
  }

  lemma SweepTerminalCallsKeeps(db: Db, runs: set<Id>)
    requires LedgerInv(db) && AuditsOk(db) && JobsInv(db)
    ensures var after := SweepTerminalCalls(db, runs);
            LedgerInv(after) && AuditsOk(after) && JobsInv(after) && JobsEvolve(db, after)
              && CallsEvolve(db.calls, after.calls)
  {
    MarkLostKeepsAll(db, OverIn(db, runs), InRuns(runs));
    SameRowsEvolve(db, SweepTerminalCalls(db, runs));
  }
}
