/** Who may call the model, for what, and what an admitted call becomes: the authority and the binding that every
    accepted request has, and the requests that are never refused while the ledger has room. */
module Admission {
  import opened Types
  import opened Table
  import opened Ledger
  import opened Jobs
  import opened Runs
  import opened Leases

  /** The caller's run still takes calls: it is not cancelled, not over, and running or finishing its jobs. */
  predicate RunTakes(db: Db, w: Caller) {
    && w.run in db.runs
    && var r := db.runs[w.run];
    && !r.cancelRequested && db.now < r.deadline
    && (r.state.RunRunning?
        || (w.job.Some? && (r.state.Completed? || (r.state.Interrupted? && db.recovery))))
  }

  /** The foreground of a run is its own live process, where a process is named at all. */
  predicate ForegroundIsLive(db: Db, w: Caller)
    requires w.run in db.runs
  {
    w.conn.Some? ==>
      Alive(db, w.conn) && (db.runs[w.run].owner.Some? ==> Alive(db, db.runs[w.run].owner))
  }

  /** An accepted request comes with a valid and current capability of a run that still takes calls, for a call nobody
      made before: from the run's live foreground, or from the holder of a job's running lease. */
  lemma AdmissionNeedsAuthority(db: Db, w: Caller, q: Request)
    requires Accepts(db, OfWorker(DoReserve(w, q)))
    ensures w.valid && w.current && q.wellFormed && RunTakes(db, w) && q.provider == db.runs[w.run].provider
    ensures forall i :: 0 <= i < |db.calls| ==> db.calls[i].attempt != q.attempt
    ensures w.job.None? ==> ForegroundIsLive(db, w)
    ensures w.job.Some? ==>
              && w.job.value in db.jobs
              && var job := db.jobs[w.job.value];
              && job.run == w.run && job.owner.Some? && job.owner == w.owner && job.token == w.token
              && job.leaseUntil.Some? && db.now < job.leaseUntil.value && db.now < job.deadline
  {
    FindMeans(db.calls, q.attempt);
  }

  /** The batch belongs to the caller: to its job, or to its run outside any job, or it is the one its contract
      names. */
  predicate BatchOfCaller(db: Db, w: Caller, b: Id)
    requires w.run in db.runs
  {
    && b in db.batches && db.batches[b].job == w.job && db.now < db.batches[b].deadline
    && (db.batches[b].run == w.run || db.runs[w.run].contract.revalidates == Some(b))
    && !db.runs[w.run].contract.historical
  }

  /** What an accepted request may be about: an answer by anyone; an extraction or a mapping once, before there are
      candidates; a probe under the one granted round, at most twice. */
  lemma AdmissionIsBound(db: Db, w: Caller, q: Request)
    requires Accepts(db, OfWorker(DoReserve(w, q)))
    ensures !db.runs[w.run].contract.m2 ==> q.stage.Answer?
    ensures db.runs[w.run].contract.m2 && (q.stage.Answer? || q.stage.Other?) ==> q.batch.None?
    ensures q.stage.Extraction? || q.stage.Mapping? || q.stage.Probe? ==>
              q.batch.Some? && BatchOfCaller(db, w, q.batch.value)
    ensures q.stage.Extraction? || q.stage.Mapping? ==>
              db.batches[q.batch.value].raw.None?
              && forall i :: 0 <= i < |db.calls| ==> !(db.calls[i].batch == q.batch && db.calls[i].stage == q.stage)
    ensures q.stage.Probe? ==>
              db.batches[q.batch.value].rounds == 1 && db.batches[q.batch.value].models < 2
              && q.probeToken.Some? && db.batches[q.batch.value].probeToken == q.probeToken
    ensures q.stage.Probe? && db.runs[w.run].contract.m3 ==>
              var k := db.runs[w.run].contract;
              k.probeEnabled && !k.probeCallsZero && !k.sub.CacheProtocol? && !k.diagnostic
    ensures db.runs[w.run].contract.m3 && w.job.Some? ==>
              q.batch == Some(db.jobs[w.job.value].batch) && q.prefix == Some(db.jobs[w.job.value].prefix)
              && (db.jobs[w.job.value].state.Running? || (q.stage.Probe? && db.jobs[w.job.value].state.ResultReady?))
    ensures db.runs[w.run].contract.m3 ==>
              (q.budget.NoSubexperiment? || q.budget == db.runs[w.run].contract.sub) && q.refreshes <= 1
    ensures db.runs[w.run].contract.m3 && w.job.None? && db.runs[w.run].contract.durable ==>
              q.stage.Answer? || q.stage.Other?
    ensures db.runs[w.run].contract.m3 && q.prefix.Some? && !q.stage.Probe? ==> q.prefixMatches
    ensures db.runs[w.run].contract.m3 && db.runs[w.run].contract.hotOnly && q.stage.Extraction? && w.job.Some? ==>
              q.hot
  {
    if q.stage.Extraction? || q.stage.Mapping? {
      forall i | 0 <= i < |db.calls|
        ensures !(db.calls[i].batch == q.batch && db.calls[i].stage == q.stage)
      {
        assert !CallIn(db.calls[i], q.batch.value, q.stage);
      }
    }
  }

  /** The row that an admitted call becomes, the reserve it takes, and the probe it counts for. */
  lemma AdmittedRow(db: Db, w: Caller, q: Request)
    requires Accepts(db, OfWorker(DoReserve(w, q)))
    ensures var k, after := db.runs[w.run].contract, Apply(db, OfWorker(DoReserve(w, q)));
            var e := if k.m3 then M3 else if k.m2 then M2 else M1;
            var upper := if q.provider.Mock? then 0
                         else 200 * (2 * q.payload.bytes + 4096) + 800 * q.payload.maxTokens;
            && |after.calls| == |db.calls| + 1 && after.calls[..|db.calls|] == db.calls
            && var c := after.calls[|db.calls|];
            && c.attempt == q.attempt && c.run == w.run && c.provider == q.provider && c.stage == q.stage
            && c.experiment == e && c.state.Reserved? && c.upper as int == upper && c.amount.None? && c.record.None?
            && c.payload == q.payload && c.snapshot == q.snapshot && c.job == w.job && c.batch == q.batch
            && c.sub == k.sub && c.prefix == q.prefix && c.owner == w.conn && c.receivedAt.None?
            && c.session == (if k.m3 && q.provider.Deepseek? then k.releaseSession else None)
            && (if q.provider.Mock? then after.budgets == db.budgets else
                  var b := db.budgets.Get(e);
                  after.budgets == db.budgets.Set(e, b.(reserved := b.reserved + upper, attempted := b.attempted + 1)))
            && after.batches.Keys == db.batches.Keys
            && (forall b :: b in db.batches ==>
                  after.batches[b] == if q.stage.Probe? && q.batch == Some(b)
                                      then db.batches[b].(models := db.batches[b].models + 1) else db.batches[b])
            && after == db.(calls := after.calls, budgets := after.budgets, batches := after.batches)
  {
  }

  // ------------------------------------------------------------ never refused

  /** A request that is in order whoever makes it. */
  predicate InOrder(db: Db, w: Caller, q: Request)
    requires w.run in db.runs
  {
    var r := db.runs[w.run];
    && w.valid && w.current && q.wellFormed && q.provider == r.provider && RunTakes(db, w)
    && (w.conn.Some? ==> Alive(db, w.conn))
    && 0 < q.payload.maxTokens <= r.contract.maxOutputTokens
    && r.contract.maxOutputTokens <= (if r.contract.m3 && r.contract.policy.PolicyV2? then 2048 else 512)
    && !(r.contract.m3 && r.contract.policy.PolicyUnsupported?)
    && (r.contract.m3 ==> (q.budget.NoSubexperiment? || q.budget == r.contract.sub) && q.refreshes <= 1)
  }

  /** The request is of this job's holder, whose lease and process live, and names the job's own batch and prefix. */
  predicate OfHolder(db: Db, w: Caller, q: Request)
    requires w.run in db.runs
  {
    && w.job.Some? && w.job.value in db.jobs && HeldByLive(db, w.job.value)
    && var job := db.jobs[w.job.value];
    && job.run == w.run && job.owner == w.owner && job.token == w.token > 0 && !job.cancelled
    && (job.state.Running? || job.state.ResultReady?)
    && db.now < job.deadline && q.batch == Some(job.batch) && q.prefix == Some(job.prefix) && q.prefixMatches
    && BatchOfCaller(db, w, job.batch)
  }

  /** The holder of a job gets its one extraction admitted if there is room: nothing was extracted for its batch yet,
      and where the contract asks for a HOT window there is one. */
  lemma FirstExtractionIsAdmitted(db: Db, w: Caller, q: Request)
    requires w.run in db.runs && db.runs[w.run].contract.m2 && InOrder(db, w, q) && OfHolder(db, w, q)
    requires q.stage.Extraction? && db.jobs[w.job.value].state.Running? && db.batches[q.batch.value].raw.None?
    requires forall i :: 0 <= i < |db.calls| ==> !(db.calls[i].batch == q.batch && db.calls[i].stage.Extraction?)
    requires db.runs[w.run].contract.hotOnly ==> q.hot
    requires db.runs[w.run].contract.diagnostic ==> q.probeToken.None?
    requires OutputLimit(db.runs[w.run].contract, q.payload.maxTokens).Some?
             && LedgerAllows(db, db.runs[w.run].contract, RowFor(db, w, q))
    ensures Accepts(db, OfWorker(DoReserve(w, q)))
  {
    HolderHolds(db, w, q);
  }

  /** And both calls of a granted probe round. */
  lemma ProbeIsAdmitted(db: Db, w: Caller, q: Request)
    requires w.run in db.runs && db.runs[w.run].contract.m2 && InOrder(db, w, q) && OfHolder(db, w, q)
    requires var k := db.runs[w.run].contract;
             !k.diagnostic && (k.m3 ==> k.probeEnabled && !k.probeCallsZero && !k.sub.CacheProtocol?)
    requires var b := db.batches[q.batch.value];
             q.stage.Probe? && b.rounds == 1 && b.models < 2 && b.probeToken.Some? && b.probeToken == q.probeToken
    requires OutputLimit(db.runs[w.run].contract, q.payload.maxTokens).Some?
             && LedgerAllows(db, db.runs[w.run].contract, RowFor(db, w, q))
    ensures Accepts(db, OfWorker(DoReserve(w, q)))
  {
    HolderHolds(db, w, q);
  }

  lemma HolderHolds(db: Db, w: Caller, q: Request)
    requires w.run in db.runs && InOrder(db, w, q) && OfHolder(db, w, q)
    ensures HoldsJob(db, w) && BatchOpen(db, w, q.batch.value)
  {
  }

  /** The foreground gets an answer admitted if there is room, at any time of a running run. */
  lemma AnswerIsAdmitted(db: Db, w: Caller, q: Request)
    requires w.run in db.runs && w.job.None? && InOrder(db, w, q) && ForegroundIsLive(db, w)
    requires q.stage.Answer? && (db.runs[w.run].contract.m2 ==> q.batch.None?) && (q.prefix.Some? ==> q.prefixMatches)
             && q.probeToken.None?
    requires OutputLimit(db.runs[w.run].contract, q.payload.maxTokens).Some?
             && LedgerAllows(db, db.runs[w.run].contract, RowFor(db, w, q))
    ensures Accepts(db, OfWorker(DoReserve(w, q)))
  {
  }

  // ------------------------------------------------------- other transactions

  /** The caller may act now: the holder of a job's running lease, from a live process, in a run that still lets its
      jobs finish; or the live foreground of a running run. */
  predicate MayAct(db: Db, w: Caller) {
    && w.valid && w.current && (w.conn.Some? ==> Alive(db, w.conn)) && w.run in db.runs
    && var r := db.runs[w.run];
    && r.contract.m2 && !r.contract.diagnostic && db.now < r.deadline
    && (if w.job.None? then r.state.RunRunning? && ForegroundIsLive(db, w) else MayActForJob(db, w))
  }

  predicate MayActForJob(db: Db, w: Caller)
    requires w.run in db.runs
  {
    && w.job.Some? && w.job.value in db.jobs && w.owner.Some? && w.token > 0
    && var job, r := db.jobs[w.job.value], db.runs[w.run];
    && job.run == w.run && job.owner == w.owner && job.token == w.token && !job.cancelled
    && job.leaseUntil.Some? && db.now < job.leaseUntil.value && db.now < job.deadline
    && (if job.instance.Some? then Alive(db, job.instance) else w.conn.None?)
    && !r.cancelRequested && (Unfinished(job.state) || job.state.Committed?)
    && (r.state.RunRunning? || r.state.Completed? || (r.state.Interrupted? && !job.state.WaitingPrefix?))
  }

  lemma TransactionNeedsAuthority(db: Db, w: Caller)
    ensures InTransaction(db, w) <==> MayAct(db, w)
  {
  }

  /** When each transaction on a batch is accepted: the first text or the same again; a report on stored, unpublished
      candidates; publication under the latest report; one probe round over doubts; four documents under its token. */
  lemma BatchStepsAreGuarded(db: Db, x: WorkerStep)
    ensures x.DoStore? ==>
              (AcceptsWorker(db, x) <==>
                 MayAct(db, x.w) && BatchOfCaller(db, x.w, x.batch)
                 && (db.batches[x.batch].raw.Some? ==> db.batches[x.batch].raw == Some(x.raw))
                 && (db.batches[x.batch].raw.None? && x.w.job.Some? ==> !db.jobs[x.w.job.value].state.Committed?))
    ensures x.DoValidate? ==>
              (AcceptsWorker(db, x) <==>
                 MayAct(db, x.w) && BatchOfCaller(db, x.w, x.batch) && db.batches[x.batch].raw.Some?
                 && db.batches[x.batch].digest.Some? && !db.batches[x.batch].state.BatchCommitted?)
    ensures x.DoCommit? ==>
              (AcceptsWorker(db, x) <==>
                 MayAct(db, x.w) && BatchOfCaller(db, x.w, x.batch) && db.batches[x.batch].digest.Some?
                 && db.batches[x.batch].latest == Some(x.report))
    ensures x.DoBeginProbe? ==>
              (AcceptsWorker(db, x) <==>
                 MayAct(db, x.w) && BatchOfCaller(db, x.w, x.batch) && MayProbe(db.runs[x.w.run].contract)
                 && db.batches[x.batch].rounds == 0 && db.batches[x.batch].latest.Some? && x.doubts > 0
                 && !db.batches[x.batch].state.BatchCommitted?)
    ensures x.DoOpenInProbe? ==>
              (AcceptsWorker(db, x) <==>
                 MayAct(db, x.w) && BatchOfCaller(db, x.w, x.batch) && MayProbe(db.runs[x.w.run].contract)
                 && db.batches[x.batch].rounds == 1 && db.batches[x.batch].probeToken == Some(x.token)
                 && db.batches[x.batch].tools < 4)
  {
    TransactionNeedsAuthority(db, x.w);
  }

  /** A lease is renewed exactly for its holder, by the very process it names, for at most twenty seconds at a time. */
  lemma RenewalIsGuarded(db: Db, w: Caller, duration: int)
    ensures Accepts(db, OfWorker(DoRenew(w, duration))) <==>
            && 0 < duration <= 20 * SECOND && MayAct(db, w) && w.job.Some?
            && (db.jobs[w.job.value].state.Running? || db.jobs[w.job.value].state.ResultReady?)
            && w.conn.Some? && db.jobs[w.job.value].instance == w.conn
  {
    TransactionNeedsAuthority(db, w);
  }

  /** A claim is for at most three minutes, by a valid and current caller of the job's own run, while run and job have
      time left and nobody cancelled them; after an interruption without recovery, only to finish what has
      candidates. */
  lemma ClaimIsGuarded(db: Db, w: Caller, j: Id, owner: Id, duration: int)
    requires Accepts(db, OfJob(DoClaim(w, j, owner, duration)))
    ensures 0 < duration <= 180 * SECOND && w.valid && w.current && (w.conn.Some? ==> Alive(db, w.conn))
    ensures j in db.jobs && w.run in db.runs && db.jobs[j].run == w.run && Unfinished(db.jobs[j].state)
            && !db.jobs[j].cancelled && db.now < db.jobs[j].deadline && db.now < db.runs[w.run].deadline
    ensures var r := db.runs[w.run];
            && !r.cancelRequested && (r.state.RunRunning? || r.state.Completed? || r.state.Interrupted?)
            && (r.state.Interrupted? && !db.recovery ==> db.jobs[j].state.ResultReady? && db.jobs[j].digest.Some?)
  {
  }

  /** A contract of the third experiment allows a probe if it does not switch it off and its policy grants one. */
  predicate MayProbe(k: Contract) {
    k.m3 ==>
      k.probeEnabled && !k.probeCallsZero && !k.sub.CacheProtocol? && !k.diagnostic && !k.policy.PolicyUnsupported?
  }

  /** A job is created once for its run and key, by the run's foreground, with one batch of its own; nobody holds it. */
  lemma CreatedJobIsFree(db: Db, w: Caller, key: Id, identity: Id, prefix: Id, j: Id, b: Id)
    ensures var s := OfJob(DoCreateJob(w, key, identity, prefix, j, b));
            Accepts(db, s) <==>
            && MayAct(db, w) && w.job.None? && !db.runs[w.run].contract.historical && j !in db.jobs && b !in db.batches
            && (forall x :: x in db.jobs ==> db.jobs[x].run != w.run || db.jobs[x].key != key)
    ensures var s := OfJob(DoCreateJob(w, key, identity, prefix, j, b));
            Accepts(db, s) ==>
              var after := Apply(db, s);
              && j in after.jobs && b in after.batches
              && after == db.(jobs := db.jobs[j := after.jobs[j]], batches := db.batches[b := after.batches[b]])
              && var job, batch := after.jobs[j], after.batches[b];
              && job.run == w.run && job.key == key && job.identity == identity && job.prefix == prefix
              && job.batch == b
              && job.state.WaitingPrefix? && job.owner.None? && job.leaseUntil.None? && job.token == 0 && !job.cancelled
              && job.digest.None? && job.deadline == db.runs[w.run].deadline
              && batch.run == w.run && batch.job == Some(j) && batch.raw.None? && batch.rounds == 0 && batch.tools == 0
              && batch.models == 0 && batch.latest.None? && batch.deadline == db.runs[w.run].deadline
  {
    TransactionNeedsAuthority(db, w);
  }
}
