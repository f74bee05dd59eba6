/** How runs, jobs, calls and processes end, told in the columns of their rows: which label each ending gives, what it
    gives up, and what it leaves alone. */
module Endings {
  import opened Types
  import opened Jobs
  import opened JobLaws
  import opened Runs
  import opened Safety
  import opened Leases

  // ------------------------------------------------------------------------ runs

  predicate OpenRun(r: Run) { r.state.Queued? || r.state.RunRunning? }

  /** The calls that `lost` names are UNKNOWN if they were reserved; no other call has changed. */
  ghost predicate GaveUp(s: seq<Call>, t: seq<Call>, lost: Call -> bool) {
    |t| == |s|
    && forall i :: 0 <= i < |s| ==> t[i] == if s[i].state.Reserved? && lost(s[i]) then s[i].(state := Unknown) else s[i]
  }

  function ForegroundCalls(r: Id): Call -> bool { (c: Call) => c.run == r && c.job.None? }

  /** A run ends once, for its own live process: CANCELLED if that was asked for, else TIMED_OUT if it is late, else
      COMPLETED exactly if it was answered, else FAILED. Its jobs go on; its own calls in flight are given up. */
  lemma RunEndsAs(db: Db, r: Id, conn: Option<Id>, answered: bool, late: bool)
    ensures Accepts(db, OfRun(DoFinishRun(r, conn, answered, late))) <==>
            && r in db.runs && OpenRun(db.runs[r]) && db.runs[r].owner == conn && (conn.Some? ==> Alive(db, conn))
    ensures Accepts(db, OfRun(DoFinishRun(r, conn, answered, late))) ==>
              var was, after := db.runs[r], Apply(db, OfRun(DoFinishRun(r, conn, answered, late)));
              var overtime := late || was.deadline <= db.now;
              && r in after.runs && after.runs == db.runs[r := was.(state := after.runs[r].state)]
              && (after.runs[r].state.Cancelled? <==> was.cancelRequested)
              && (after.runs[r].state.TimedOut? <==> !was.cancelRequested && overtime)
              && (after.runs[r].state.Completed? <==> !was.cancelRequested && !overtime && answered)
              && (after.runs[r].state.RunFailed? <==> !was.cancelRequested && !overtime && !answered)
              && GaveUp(db.calls, after.calls, ForegroundCalls(r))
              && after == db.(runs := after.runs, calls := after.calls, budgets := after.budgets)
  {
  }

  // ------------------------------------------------------------------------ jobs

  /** Some call of the job, or of its batch, is not settled. */
  predicate OpenOn(db: Db, j: Id)
    requires j in db.jobs
  {
    exists i :: 0 <= i < |db.calls| && (db.calls[i].job == Some(j) || db.calls[i].batch == Some(db.jobs[j].batch))
                && !db.calls[i].state.Settled?
  }

  lemma OpenOnMeans(db: Db, j: Id)
    requires j in db.jobs
    ensures OpenOn(db, j) <==> HasOpenCalls(db.calls, j, db.jobs[j].batch)
  {
    if i :| 0 <= i < |db.calls| && (db.calls[i].job == Some(j) || db.calls[i].batch == Some(db.jobs[j].batch))
            && !db.calls[i].state.Settled? {
      assert Touches(db.calls[i], j, db.jobs[j].batch);
    }
    if i :| 0 <= i < |db.calls| && Touches(db.calls[i], j, db.jobs[j].batch) && !db.calls[i].state.Settled? {
      assert db.calls[i].job == Some(j) || db.calls[i].batch == Some(db.jobs[j].batch);
    }
  }

  /** A worker's conclusion: an open call makes it OUTCOME_UNKNOWN; past the deadline a failure or a skip is a skip;
      else the job gets what was asked, and goes back into the queue, under the next token, only if that is
      RESULT_READY. */
  lemma FinishLabels(db: Db, x: WorkerStep)
    requires AcceptsWorker(db, x) && x.DoFinish? && x.w.job.Some? && x.w.job.value in db.jobs
             && Unfinished(db.jobs[x.w.job.value].state)
    ensures var j, after := x.w.job.value, Apply(db, OfWorker(x));
            var was, job := db.jobs[j], after.jobs[j];
            && after == db.(jobs := db.jobs[j := job])
            && (if OpenOn(db, j) then job.state.OutcomeUnknown?
                else if was.deadline <= db.now && (x.requested.Failed? || x.requested.Skipped?) then job.state.Skipped?
                else job.state == x.requested)
            && (if job.state.ResultReady?
                  then job == was.(state := ResultReady, reason := x.reason, owner := None, leaseUntil := None,
                                   token := was.token + 1)
                else job == was.(state := job.state, reason := job.reason))
  {
    OpenOnMeans(db, x.w.job.value);
  }

  /** Publication: COMMITTED with its batch if any fact was published, else SKIPPED; once. */
  lemma CommitLabels(db: Db, x: WorkerStep)
    requires Sound(db) && AcceptsWorker(db, x) && x.DoCommit?
    ensures x.batch in db.batches
    ensures var after := Apply(db, OfWorker(x));
            && after == db.(jobs := after.jobs, batches := after.batches)
            && after.batches == (if x.published > 0
                                   then db.batches[x.batch := db.batches[x.batch].(state := BatchCommitted)]
                                 else db.batches)
            && (x.w.job.None? ==> after.jobs == db.jobs)
            && (x.w.job.Some? ==>
                  && x.w.job.value in db.jobs
                  && var was := db.jobs[x.w.job.value];
                  && (was.state.Committed? ==> after.jobs == db.jobs)
                  && (!was.state.Committed? ==>
                        after.jobs == db.jobs[x.w.job.value := was.(
                          state := if x.published > 0 then Committed else Skipped, reason := OtherReason)]))
  {
  }

  /** The first text stored for a batch is its text, for the job too, which is then RESULT_READY; the same text again is
      accepted and changes nothing; another text is refused. */
  lemma FirstTextStays(db: Db, x: WorkerStep)
    requires x.DoStore? && x.batch in db.batches
    ensures db.batches[x.batch].raw.Some? && Accepts(db, OfWorker(x)) ==>
              Apply(db, OfWorker(x)) == db && db.batches[x.batch].raw == Some(x.raw)
    ensures db.batches[x.batch].raw.None? && Accepts(db, OfWorker(x)) ==>
              var after := Apply(db, OfWorker(x));
              && after.batches == db.batches[x.batch := db.batches[x.batch].(
                                  raw := Some(x.raw), digest := Some(x.digest), state := BatchReady)]
              && (x.w.job.None? ==> after.jobs == db.jobs)
              && (x.w.job.Some? ==>
                    && x.w.job.value in db.jobs
                    && after.jobs == db.jobs[x.w.job.value := db.jobs[x.w.job.value].(
                                     state := ResultReady, digest := Some(x.digest))])
              && after == db.(jobs := after.jobs, batches := after.batches)
  {
  }

  /** Cancelling a run's background work ends exactly its unfinished jobs: OUTCOME_UNKNOWN over an open call, else
      SKIPPED. */
  lemma CancellationLabels(db: Db, r: Id, j: Id)
    requires r in db.runs && j in db.jobs
    ensures var was, after := db.jobs[j], Apply(db, OfJob(DoCancelJobs(r)));
            && j in after.jobs && after.runs == db.runs[r := db.runs[r].(cancelRequested := true)]
            && (if was.run == r && Unfinished(was.state)
                  then after.jobs[j]
                         == was.(cancelled := true, state := if OpenOn(db, j) then OutcomeUnknown else Skipped,
                                             owner := None, leaseUntil := None, token := was.token + 1,
                                             reason := OtherReason)
                else after.jobs[j] == was)
            && after == db.(runs := after.runs, jobs := after.jobs)
  {
    OpenOnMeans(db, j);
  }

  /** The public cancellation ends the run too, and labels a job by the open calls that carry the job's own id. */
  lemma QueryCancellationLabels(db: Db, r: Id, j: Id)
    requires r in db.runs && j in db.jobs
    ensures var was, after := db.jobs[j], Apply(db, OfJob(DoCancelQuery(r)));
            var own := exists i :: 0 <= i < |db.calls| && db.calls[i].job == Some(j) && !db.calls[i].state.Settled?;
            && j in after.jobs
            && after.runs == db.runs[r := db.runs[r].(
                               cancelRequested := true,
                               state := if OpenRun(db.runs[r]) then Cancelled else db.runs[r].state)]
            && (if was.run == r && Unfinished(was.state)
                  then after.jobs[j] == was.(cancelled := true, state := if own then OutcomeUnknown else Skipped,
                                             token := was.token + 1, reason := OtherReason)
                else after.jobs[j] == was)
            && after == db.(runs := after.runs, jobs := after.jobs)
  {
  }

  function CallsOn(r: Id, j: Id, b: Id): Call -> bool {
    (c: Call) => c.run == r && (c.job == Some(j) || c.batch == Some(b))
  }

  /** A job is terminated exactly once it can no longer finish: its time or its run is over, or its identity changed. */
  lemma TerminationIsDue(db: Db, j: Id, stale: bool)
    ensures Accepts(db, OfJob(DoTerminate(j, stale))) <==>
            && j in db.jobs && db.jobs[j].run in db.runs && Unfinished(db.jobs[j].state)
            && (db.jobs[j].deadline <= db.now || OverFor(db.runs[db.jobs[j].run]) || stale)
  {
  }

  /** It ends OUTCOME_UNKNOWN over an open call, else SKIPPED, and its run's calls on it are given up. */
  lemma TerminationLabels(db: Db, j: Id, stale: bool)
    requires Accepts(db, OfJob(DoTerminate(j, stale)))
    ensures j in db.jobs && db.jobs[j].run in db.runs
    ensures var was, after := db.jobs[j], Apply(db, OfJob(DoTerminate(j, stale)));
            && after.jobs == db.jobs[j := was.(
                               state := if OpenOn(db, j) then OutcomeUnknown else Skipped, owner := None,
                               leaseUntil := None, token := was.token + 1, reason := OtherReason,
                               cancelled := was.cancelled || db.runs[was.run].cancelRequested)]
            && GaveUp(db.calls, after.calls, CallsOn(was.run, j, was.batch))
            && after == db.(jobs := after.jobs, calls := after.calls, budgets := after.budgets)
  {
    OpenOnMeans(db, j);
    if !OpenOn(db, j) {
      NothingToGiveUp(db, j);
    }
  }

  lemma NothingToGiveUp(db: Db, j: Id)
    requires j in db.jobs && !OpenOn(db, j)
    ensures GaveUp(db.calls, db.calls, CallsOn(db.jobs[j].run, j, db.jobs[j].batch))
  {
  }

  /** Recovery that cannot run a job gives it up exactly if nobody's lease on it runs: OUTCOME_UNKNOWN over an open
      call, else FAILED. */
  lemma GivenUpLabels(db: Db, j: Id)
    ensures Accepts(db, OfJob(DoFailRecovery(j))) <==>
            j in db.jobs && Unfinished(db.jobs[j].state) && LeaseOut(db, j)
    ensures Accepts(db, OfJob(DoFailRecovery(j))) ==>
              var was, after := db.jobs[j], Apply(db, OfJob(DoFailRecovery(j)));
              after == db.(jobs := db.jobs[j := was.(
                             state := if OpenOn(db, j) then OutcomeUnknown else Failed, reason := OtherReason,
                             owner := None, leaseUntil := None, instance := None, token := was.token + 1)])
  {
    if j in db.jobs { OpenOnMeans(db, j); }
  }

  // -------------------------------------------------------------------- recovery

  /** An extraction of the job was settled with exactly one reply, and the reply has text. */
  predicate HasAnswer(db: Db, j: Id) {
    exists i :: 0 <= i < |db.calls| && IsAnswer(db.calls[i], j)
  }

  predicate IsAnswer(c: Call, j: Id) {
    && c.job == Some(j) && c.stage.Extraction? && c.state.Settled? && c.record.Some?
    && c.record.value.response.Response? && |c.record.value.response.choices| == 1
    && c.record.value.response.choices[0].Some? && c.record.value.response.choices[0].value != ""
  }

  lemma {:induction false} OnlyExtractionIsAll(calls: seq<Call>, j: Id, i: nat)
    requires i < |calls| && SettledExtraction(calls[i], j)
    requires forall k :: 0 <= k < |calls| && SettledExtraction(calls[k], j) ==> k == i
    ensures Extractions(calls, j) == [calls[i]]
  {
    var last := |calls| - 1;
    if i < last {
      OnlyExtractionIsAll(calls[..last], j, i);
    } else {
      NoExtraction(calls[..last], j);
    }
  }

  lemma {:induction false} NoExtraction(calls: seq<Call>, j: Id)
    requires forall k :: 0 <= k < |calls| ==> !SettledExtraction(calls[k], j)
    ensures Extractions(calls, j) == []
  {
    if calls != [] { NoExtraction(calls[..|calls| - 1], j); }
  }

  lemma AnswerIsRecorded(db: Db, j: Id)
    requires Sound(db)
    ensures HasAnswer(db, j) <==> Recorded(db.calls, j) != ""
  {
    forall i, k | 0 <= i < |db.calls| && 0 <= k < |db.calls| && SettledExtraction(db.calls[i], j)
                  && SettledExtraction(db.calls[k], j)
      ensures i == k
    {
      OneExtractionPerJob(db, j, i, k);
    }
    OneAnswerIsRecorded(db, j);
  }

  lemma OneAnswerIsRecorded(db: Db, j: Id)
    requires forall i, k ::
               0 <= i < |db.calls| && 0 <= k < |db.calls| && SettledExtraction(db.calls[i], j)
                 && SettledExtraction(db.calls[k], j) ==>
                 i == k
    ensures HasAnswer(db, j) <==> Recorded(db.calls, j) != ""
  {
    if i :| 0 <= i < |db.calls| && IsAnswer(db.calls[i], j) {
      assert SettledExtraction(db.calls[i], j);
      OnlyExtractionIsAll(db.calls, j, i);
    }
    if Recorded(db.calls, j) != "" {
      RecordedIsSaved(db.calls, j, 0);
      var i :| 0 <= i < |db.calls| && SettledExtraction(db.calls[i], j)
               && Content(db.calls[i].record) == Some(Recorded(db.calls, j));
      assert IsAnswer(db.calls[i], j);
    }
  }

  predicate AnyCallOn(db: Db, j: Id)
    requires j in db.jobs
  {
    exists i :: 0 <= i < |db.calls| && (db.calls[i].job == Some(j) || db.calls[i].batch == Some(db.jobs[j].batch))
  }

  function TouchingCalls(j: Id, b: Id): Call -> bool { (c: Call) => c.job == Some(j) || c.batch == Some(b) }

  /** What recovery makes of a job: OUTCOME_UNKNOWN over an open call, or if it called without candidates and without
      an answer; RESULT_READY with candidates; else it waits for a worker again if recovery is on, and is skipped if
      not. */
  function RecoveryState(db: Db, j: Id): JobState
    requires j in db.jobs
  {
    if OpenOn(db, j) then OutcomeUnknown
    else if db.jobs[j].digest.Some? then ResultReady
    else if AnyCallOn(db, j) && !HasAnswer(db, j) then OutcomeUnknown
    else if db.recovery then WaitingPrefix else Skipped
  }

  /** Recovery takes the job from its worker under a new fence, gives up every call in flight that touches it, and gives
      it that label. */
  lemma RecoveryLabels(db: Db, j: Id)
    requires Sound(db) && Accepts(db, OfJob(DoRecover(j)))
    ensures j in db.jobs
    ensures var was, after := db.jobs[j], Apply(db, OfJob(DoRecover(j)));
            && after.jobs == db.jobs[j := was.(
                               state := RecoveryState(db, j),
                               reason := if Unfinished(RecoveryState(db, j)) then AwaitingRecovery else OtherReason,
                               owner := None, leaseUntil := None, instance := None, token := was.token + 1)]
            && GaveUp(db.calls, after.calls, TouchingCalls(j, was.batch))
            && after == db.(jobs := after.jobs, calls := after.calls, budgets := after.budgets)
  {
    RecoveryIsDue(db, j);
    AnswerIsRecorded(db, j);
    RecoveredRow(db, j);
  }

  lemma RecoveryIsDue(db: Db, j: Id)
    requires Accepts(db, OfJob(DoRecover(j)))
    ensures j in db.jobs && Apply(db, OfJob(DoRecover(j))) == RecoverJob(db, j)
  {
  }

  lemma RecoveredRow(db: Db, j: Id)
    requires j in db.jobs && (HasAnswer(db, j) <==> Recorded(db.calls, j) != "")
    ensures var was, after := db.jobs[j], RecoverJob(db, j);
            && after.jobs == db.jobs[j := was.(
                               state := RecoveryState(db, j),
                               reason := if Unfinished(RecoveryState(db, j)) then AwaitingRecovery else OtherReason,
                               owner := None, leaseUntil := None, instance := None, token := was.token + 1)]
            && GaveUp(db.calls, after.calls, TouchingCalls(j, was.batch))
            && after == db.(jobs := after.jobs, calls := after.calls, budgets := after.budgets)
  {
    MarkingKeepsAnswers(db, j);
    RecoveredInFields(db, MarkTouched(db, j), j);
    TouchingIsTouched(db, j);
  }

  lemma TouchingIsTouched(db: Db, j: Id)
    requires j in db.jobs
    ensures GaveUp(db.calls, MarkTouched(db, j).calls, TouchingCalls(j, db.jobs[j].batch))
            && OnlyMarked(db.calls, MarkTouched(db, j).calls)
  {
  }

  lemma MarkingKeepsAnswers(db: Db, j: Id)
    requires j in db.jobs
    ensures var marked := MarkTouched(db, j);
            && Recorded(marked.calls, j) == Recorded(db.calls, j)
            && (HasOpenCalls(marked.calls, j, db.jobs[j].batch) <==> OpenOn(db, j))
            && (Touched(marked.calls, j, db.jobs[j].batch) <==> AnyCallOn(db, j))
  {
    var marked := MarkTouched(db, j);
    TouchingIsTouched(db, j);
    SameSettled(db.calls, marked.calls, j);
    OpenOnMeans(db, j);
    SameTouching(db.calls, marked.calls, j, db.jobs[j].batch);
    TouchedMeans(db, j);
  }

  lemma TouchedMeans(db: Db, j: Id)
    requires j in db.jobs
    ensures AnyCallOn(db, j) <==> Touched(db.calls, j, db.jobs[j].batch)
  {
    if i :| 0 <= i < |db.calls| && (db.calls[i].job == Some(j) || db.calls[i].batch == Some(db.jobs[j].batch)) {
      assert Touches(db.calls[i], j, db.jobs[j].batch);
    }
    if i :| 0 <= i < |db.calls| && Touches(db.calls[i], j, db.jobs[j].batch) {
      assert db.calls[i].job == Some(j) || db.calls[i].batch == Some(db.jobs[j].batch);
    }
  }

  /** The same rows, but that some reserved ones are unknown now. */
  predicate OnlyMarked(s: seq<Call>, t: seq<Call>) {
    |t| == |s|
    && forall i :: 0 <= i < |s| ==> t[i] == s[i] || (s[i].state.Reserved? && t[i] == s[i].(state := Unknown))
  }

  lemma {:induction false} SameSettled(s: seq<Call>, t: seq<Call>, j: Id)
    requires OnlyMarked(s, t)
    ensures Extractions(t, j) == Extractions(s, j)
  {
    if s != [] {
      var last := |s| - 1;
      SameSettled(s[..last], t[..last], j);
      assert t[last] == s[last] || (s[last].state.Reserved? && t[last] == s[last].(state := Unknown));
    }
  }

  lemma SameTouching(s: seq<Call>, t: seq<Call>, j: Id, b: Id)
    requires OnlyMarked(s, t)
    ensures HasOpenCalls(t, j, b) <==> HasOpenCalls(s, j, b)
    ensures Touched(t, j, b) <==> Touched(s, j, b)
  {
    if i :| 0 <= i < |s| && Touches(s[i], j, b) { assert Touches(t[i], j, b); }
    if i :| 0 <= i < |t| && Touches(t[i], j, b) { assert Touches(s[i], j, b); }
    if i :| 0 <= i < |s| && Touches(s[i], j, b) && !s[i].state.Settled? { assert Touches(t[i], j, b); }
    if i :| 0 <= i < |t| && Touches(t[i], j, b) && !t[i].state.Settled? { assert Touches(s[i], j, b); }
  }

  lemma RecoveredInFields(db: Db, marked: Db, j: Id)
    requires j in db.jobs && marked.jobs == db.jobs && marked.recovery == db.recovery
             && (HasAnswer(db, j) <==> Recorded(db.calls, j) != "")
    requires Recorded(marked.calls, j) == Recorded(db.calls, j)
             && (HasOpenCalls(marked.calls, j, db.jobs[j].batch) <==> OpenOn(db, j))
             && (Touched(marked.calls, j, db.jobs[j].batch) <==> AnyCallOn(db, j))
    ensures Recovered(marked, j).0 == RecoveryState(db, j)
    ensures Recovered(marked, j).1 == if Unfinished(RecoveryState(db, j)) then AwaitingRecovery else OtherReason
  {
    if Recorded(marked.calls, j) != "" {
      RecordedIsSaved(marked.calls, j, db.jobs[j].batch);
    }
  }

  /** A claim repeats nothing: no call on the job is open, and a job that called without storing candidates has an
      answer to reuse, with recovery on. */
  lemma ClaimRepeatsNothing(db: Db, w: Caller, j: Id, owner: Id, duration: int)
    requires Sound(db) && Accepts(db, OfJob(DoClaim(w, j, owner, duration)))
    ensures j in db.jobs && !OpenOn(db, j)
    ensures db.jobs[j].digest.None? && (exists i :: 0 <= i < |db.calls| && db.calls[i].job == Some(j)) ==>
              db.recovery && HasAnswer(db, j)
  {
    ClaimIsEffect(db, w, j, owner, duration);
    AnswerIsRecorded(db, j);
    OpenOnMeans(db, j);
    ClaimableRepeatsNothing(db, w, j, duration);
  }

  lemma ClaimableRepeatsNothing(db: Db, w: Caller, j: Id, duration: int)
    requires CanClaim(db, w, j, duration)
    ensures !HasOpenCalls(db.calls, j, db.jobs[j].batch)
    ensures db.jobs[j].digest.None? && (exists i :: 0 <= i < |db.calls| && db.calls[i].job == Some(j)) ==>
              db.recovery && Recorded(db.calls, j) != ""
  {
  }

  // ------------------------------------------------------------------- processes

  /** The process was stopped, or its registration has run out. */
  predicate Lost(db: Db, i: Option<Id>) {
    i.Some? && i.value in db.instances && (db.instances[i.value].stopped || db.instances[i.value].leaseUntil <= db.now)
  }

  function OwnedByLost(db: Db): Call -> bool { (c: Call) => Lost(db, c.owner) }

  /** The owner sweep stops the processes whose registration has run out, interrupts exactly the open runs of stopped
      processes, and gives up exactly their calls in flight. */
  lemma OwnerSweepIsExact(db: Db)
    ensures var after := Apply(db, OfRun(DoSweepOwners));
            && after.instances.Keys == db.instances.Keys && after.runs.Keys == db.runs.Keys
            && (forall i :: i in db.instances ==>
                  after.instances[i] == db.instances[i].(stopped := db.instances[i].stopped
                                                                     || db.instances[i].leaseUntil <= db.now))
            && (forall r :: r in db.runs ==>
                  after.runs[r] == if OpenRun(db.runs[r]) && Lost(db, db.runs[r].owner)
                                   then db.runs[r].(state := Interrupted) else db.runs[r])
            && GaveUp(db.calls, after.calls, OwnedByLost(db))
            && after == db.(instances := after.instances, runs := after.runs, calls := after.calls,
                            budgets := after.budgets)
  {
  }

  /** A heartbeat extends a live process by its time to live from now; it revives nothing. */
  lemma HeartbeatExtends(db: Db, i: Id, ttl: nat)
    requires i in db.instances
    ensures var was, after := db.instances[i], Apply(db, OfRun(DoHeartbeat(i, ttl)));
            after == if Alive(db, Some(i)) then db.(instances := db.instances[i := was.(leaseUntil := db.now + ttl)])
                     else db
  {
  }

  /** The call is of a foreground that is over, or names a job that is. */
  predicate OfFinishedWork(db: Db, c: Call) {
    || (c.job.None? && c.run in db.runs && !OpenRun(db.runs[c.run]))
    || (exists j :: j in db.jobs && (c.job == Some(j) || c.batch == Some(db.jobs[j].batch))
                    && !Unfinished(db.jobs[j].state))
  }

  function FinishedWorkIn(db: Db, runs: set<Id>): Call -> bool { (c: Call) => c.run in runs && OfFinishedWork(db, c) }

  /** The sweep over finished work gives up exactly the calls in flight that nobody will settle. */
  lemma FinishedSweepIsExact(db: Db, runs: set<Id>)
    ensures var after := Apply(db, OfRun(DoSweepTerminalCalls(runs)));
            GaveUp(db.calls, after.calls, FinishedWorkIn(db, runs))
            && after == db.(calls := after.calls, budgets := after.budgets)
  {
    forall c: Call ensures OfFinishedWork(db, c) <==> TerminalCall(db, c) {
      if j :| j in db.jobs && (c.job == Some(j) || c.batch == Some(db.jobs[j].batch))
              && !Unfinished(db.jobs[j].state) {
        assert Touches(c, j, db.jobs[j].batch) && Terminal(db.jobs[j].state);
      }
      if j :| j in db.jobs && Touches(c, j, db.jobs[j].batch) && Terminal(db.jobs[j].state) {
        assert c.job == Some(j) || c.batch == Some(db.jobs[j].batch);
      }
    }
  }

  // ------------------------------------------------------------- probe tool calls

  /** How many documents were opened for a batch's probe along a run. */
  function Opened(db: Db, steps: seq<Step>, b: Id): nat
    decreases |steps|
  {
    if steps == [] then 0 else
    Opened(Apply(db, steps[0]), steps[1..], b)
    + if Accepts(db, steps[0]) && steps[0].OfWorker? && steps[0].x.DoOpenInProbe? && steps[0].x.batch == b then 1 else 0
  }

  lemma OpeningCounts(db: Db, s: Step, b: Id)
    requires b in db.batches
    ensures b in Apply(db, s).batches
    ensures Apply(db, s).batches[b].tools == db.batches[b].tools
            + if Accepts(db, s) && s.OfWorker? && s.x.DoOpenInProbe? && s.x.batch == b then 1 else 0
  {
    if Accepts(db, s) {
      match s
      case OfWorker(x) => OpeningCountsForWorker(db, x, b);
      case OfJob(x) => JobStepOpensNothing(db, x, b);
      case OfMoney(x) => MoneyKeepsBatches(db, x);
      case OfRun(x) => RunStepKeepsBatches(db, x);
    }
  }

  lemma OpeningCountsForWorker(db: Db, x: WorkerStep, b: Id)
    requires b in db.batches && AcceptsWorker(db, x)
    ensures b in ApplyWorker(db, x).batches
    ensures ApplyWorker(db, x).batches[b].tools == db.batches[b].tools
            + if x.DoOpenInProbe? && x.batch == b then 1 else 0
  {
  }

  lemma JobStepOpensNothing(db: Db, x: JobStep, b: Id)
    requires b in db.batches && AcceptsJob(db, x)
    ensures b in ApplyJob(db, x).batches && ApplyJob(db, x).batches[b] == db.batches[b]
  {
  }

  lemma RunStepKeepsBatches(db: Db, x: RunStep)
    requires AcceptsRun(db, x)
    ensures ApplyRun(db, x).batches == db.batches
  {
  }

  lemma MoneyKeepsBatches(db: Db, x: MoneyStep)
    requires AcceptsMoney(db, x)
    ensures ApplyMoney(db, x).batches == db.batches
  {
    match x
    case DoSettle(r, attempt, record) => SettleFrame(db, r, attempt, record);
    case DoReconcile(attempt, kind, e, apply) => ReconcileFrame(db, attempt, kind, e, apply);
    case DoZeroCharge(_) =>
  }

  /** Along any run, whatever crashes and resumes, the probe of a batch opens at most four documents. */
  lemma {:induction false} FourDocumentsAtMost(db: Db, steps: seq<Step>, b: Id)
    requires Sound(db) && b in db.batches
    ensures b in After(db, steps).batches
    ensures db.batches[b].tools + Opened(db, steps, b) == After(db, steps).batches[b].tools <= 4
    decreases |steps|
  {
    if steps == [] {
      assert BatchOk(db, b);
    } else {
      StepKeeps(db, steps[0]);
      OpeningCounts(db, steps[0], b);
      FourDocumentsAtMost(Apply(db, steps[0]), steps[1..], b);
    }
  }
}
