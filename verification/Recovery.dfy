/** A recovering worker: what it is told about a claimed job, when it may dispatch, when it must reuse the recorded
    answer, and how it concludes whatever fails on the way. */
module Recovery {
  import opened Types
  import opened Settlement
  import opened Jobs
  import opened JobLaws
  import opened Runs
  import opened Safety
  import Resumption

  // ------------------------------------------------------------ recovery material

  /** What the service says of a claimed job's earlier work. */
  datatype Material = Material(unresolved: bool, recorded: Option<string>)

  predicate ExtractionRow(c: Call, j: Id, b: Id) { SettledExtraction(c, j) && c.batch == Some(b) }

  /** Row i is the job's only settled extraction. */
  predicate OnlyExtraction(calls: seq<Call>, j: Id, b: Id, i: nat) {
    i < |calls| && ExtractionRow(calls[i], j, b)
      && forall k :: 0 <= k < |calls| && ExtractionRow(calls[k], j, b) ==> k == i
  }

  /** The one reusable answer: the content of the only settled extraction while nothing is open. */
  predicate Tells(calls: seq<Call>, j: Id, b: Id, answer: string) {
    !HasOpenCalls(calls, j, b)
      && exists i :: 0 <= i < |calls| && OnlyExtraction(calls, j, b, i) && Content(calls[i].record) == Some(answer)
  }

  ghost predicate MaterialOk(calls: seq<Call>, j: Id, b: Id, probeUnresolved: bool, m: Material) {
    && (m.unresolved <==> probeUnresolved || HasOpenCalls(calls, j, b))
    && (forall answer :: m.recorded == Some(answer) <==> Tells(calls, j, b, answer))
  }

  /** Count the settled extractions and keep the readable ones; only a single one that is readable is told. */
  method RecoveryMaterial(calls: seq<Call>, j: Id, b: Id, probeUnresolved: bool) returns (m: Material)
    ensures MaterialOk(calls, j, b, probeUnresolved, m)
  {
    var open := HasOpenCalls(calls, j, b);
    var count, extracted := 0, [];
    ghost var first := 0;
    for n := 0 to |calls|
      invariant |extracted| <= count
      invariant count == 0 <==> forall k :: 0 <= k < n ==> !ExtractionRow(calls[k], j, b)
      invariant count > 0 ==> 0 <= first < n && ExtractionRow(calls[first], j, b)
      invariant count == 1 ==> forall k :: 0 <= k < n && ExtractionRow(calls[k], j, b) ==> k == first
      invariant count == 1 ==>
                  extracted == if Content(calls[first].record).Some? then [Content(calls[first].record).value] else []
      invariant count > 1 ==>
                  exists i, k :: 0 <= i < k < n && ExtractionRow(calls[i], j, b) && ExtractionRow(calls[k], j, b)
    {
      var c := calls[n];
      if ExtractionRow(c, j, b) {
        if count == 0 { first := n; }
        count := count + 1;
        if Content(c.record).Some? { extracted := extracted + [Content(c.record).value]; }
      }
    }
    m := Material(probeUnresolved || open,
                  if count == 1 && |extracted| == 1 && !open then Some(extracted[0]) else None);
    if count == 1 { assert OnlyExtraction(calls, j, b, first); }
  }

  // --------------------------------------------------------------------- a worker

  /** The places at which the worker can be stopped. */
  datatype Point = AtStart | BeforeAsk | AtAsk | AtKeep | BeforeCheck | AtCheck | AtProbe | AtRecheck | BeforePublish
    | AtPublish

  /** A cancellation, a refusal by the service, or any other failure. */
  datatype Trouble = Fine | Stopped(leaseLost: bool) | Denied | Broken

  datatype Answered = Answered(raw: string) | Withheld | Spoiled(failure: string)

  /** The claim's reply. `hotAllows` says that the contract is not HOT_ONLY or its evidence still holds. */
  datatype Lease = Lease(unresolved: bool, ready: bool, recorded: Option<string>, hotAllows: bool, callsLeft: bool,
                         reported: bool)

  /** The rest of the world: what fails where, what the model answers, whether its last call was sent and is unpriced,
      and whether validation leaves doubts that a probe may settle. */
  datatype Surroundings = Surroundings(trouble: Point -> Trouble, answer: Answered, unpriced: Point -> bool,
                                       doubts: bool)

  /** Dispatching needs a claim without open outcomes, no candidates, no recorded answer, and every gate open. */
  predicate DispatchAllowed(l: Lease, s: Surroundings) {
    && !l.unresolved && s.trouble(AtStart).Fine? && !l.ready && l.recorded.None?
    && l.hotAllows && s.trouble(BeforeAsk).Fine? && l.callsLeft
  }

  /** The label asked for when work was stopped. A refusal by the service gives the job up even if it has candidates. */
  function Label(t: Trouble, unpriced: bool, ready: bool): JobState {
    if t.Stopped? then if ready then ResultReady else Skipped
    else if unpriced then OutcomeUnknown
    else if t.Denied? then Skipped
    else if ready then ResultReady else Failed
  }

  /** The text that becomes the job's candidates: the recorded answer if there is one, else the model's. */
  function KeptText(l: Lease, s: Surroundings): Option<string> {
    if l.recorded.Some? then l.recorded
    else match s.answer case Answered(raw) => Some(raw) case Spoiled(failure) => Some(failure) case Withheld => None
  }

  /** The text is submitted: from the record, or after a dispatch that was answered. */
  predicate Submits(l: Lease, s: Surroundings) {
    && !l.unresolved && s.trouble(AtStart).Fine? && !l.ready
    && (l.recorded.Some? || (DispatchAllowed(l, s) && s.trouble(AtAsk).Fine? && !s.answer.Withheld?))
  }

  predicate SpoiltAnswerKept(s: Surroundings) { s.trouble(AtAsk).Fine? && s.answer.Spoiled? && s.trouble(AtKeep).Fine? }

  /** One resumed job, with what it has done so far: requests of an extraction, the text submitted as candidates,
      validation, a probe, an attempt to publish, and the conclusion it asked for. */
  class Worker {
    const lease: Lease
    const around: Surroundings
    var ready: bool
    var dispatches: nat
    var kept: Option<string>
    var validated: bool
    var probed: bool
    var published: bool
    var concluded: Option<JobState>

    constructor (l: Lease, s: Surroundings)
      ensures lease == l && around == s && Idle()
    {
      lease, around, ready := l, s, l.ready;
      dispatches, kept, validated, probed, published, concluded := 0, None, false, false, false, None;
    }

    predicate Idle()
      reads this
    {
      ready == lease.ready && dispatches == 0 && kept.None? && !validated && !probed && !published && concluded.None?
    }

    /** One dispatch exactly when allowed; exactly the due text submitted; ready is having candidates. */
    predicate Begun()
      reads this
    {
      && dispatches == (if DispatchAllowed(lease, around) then 1 else 0)
      && kept == (if Submits(lease, around) then KeptText(lease, around) else None)
      && (ready <==> lease.ready || (kept.Some? && around.trouble(AtKeep).Fine?))
    }

    /** Resume the job: reuse or dispatch, keep, validate and publish; conclude whatever stops it short of publication,
        unless the lease is lost. */
    method Resume()
      requires Idle()
      modifies this
      ensures Begun()
      ensures dispatches <= 1
      ensures dispatches == 1 <==>
              !lease.unresolved && !lease.ready && lease.recorded.None? && lease.hotAllows && lease.callsLeft
              && around.trouble(AtStart).Fine? && around.trouble(BeforeAsk).Fine?
      ensures lease.recorded.Some? && kept.Some? ==> kept == lease.recorded && dispatches == 0
      ensures published ==> ready && !lease.unresolved && (lease.reported || validated)
      ensures published ==> probed == around.doubts && (around.doubts ==> validated)
      ensures concluded.None? ==>
                (published && around.trouble(AtPublish).Fine?) || exists p :: around.trouble(p) == Stopped(true)
      ensures concluded.Some? && published ==> !around.trouble(AtPublish).Fine?
      ensures concluded == Some(ResultReady) ==> ready && !lease.unresolved
      ensures concluded == Some(Failed) ==> !ready && !lease.unresolved
      ensures concluded.Some? ==> concluded.value in {ResultReady, Failed, Skipped, OutcomeUnknown}
      ensures concluded == Some(Skipped) && ready ==>
                !lease.unresolved && exists p :: around.trouble(p) == Trouble.Denied
      ensures concluded == Some(OutcomeUnknown) && !lease.unresolved ==>
                (dispatches == 1 || probed) && exists p :: around.unpriced(p) && !around.trouble(p).Stopped?
      ensures concluded.Some? && ready && !lease.unresolved
              && (forall p :: around.trouble(p) != Trouble.Denied && !around.unpriced(p)) ==>
                concluded == Some(ResultReady)
      ensures lease.unresolved ==> concluded == Some(OutcomeUnknown) && !validated && !probed
      ensures dispatches == 1
              && (around.trouble(AtAsk).Denied? || around.trouble(AtAsk).Broken? || SpoiltAnswerKept(around))
              && around.unpriced(AtAsk) ==>
                concluded == Some(OutcomeUnknown) && !published
    {
      var over, at, trouble := Begin();
      if !over && trouble.Fine? {
        at, trouble := ValidateAndPublish();
        over := trouble.Fine?;
      }
      if over { return; }
      if trouble.Stopped? && trouble.leaseLost {
        assert around.trouble(at) == Stopped(true);
        return;
      }
      concluded := Some(Label(trouble, (dispatches > 0 || probed) && around.unpriced(at), ready));
    }

    /** Everything before validation. `over` says that the job is already concluded. */
    method Begin() returns (over: bool, at: Point, trouble: Trouble)
      requires Idle()
      modifies this
      ensures Begun() && !validated && !probed && !published
      ensures over <==> concluded.Some?
      ensures over ==> concluded == Some(if lease.unresolved then OutcomeUnknown else Skipped)
      ensures over ==> lease.unresolved || !ready
      ensures lease.unresolved ==> over
      ensures !over ==> (trouble.Fine? ==> ready) && (trouble.Stopped? ==> around.trouble(at) == trouble)
      ensures !over && !trouble.Fine? ==>
                around.trouble(at) == trouble || (at.AtAsk? && trouble.Broken? && around.trouble(at).Fine?)
      ensures dispatches == 1 && !around.trouble(AtAsk).Fine? ==>
                !over && at == AtAsk && trouble == around.trouble(AtAsk)
      ensures dispatches == 1 && SpoiltAnswerKept(around) ==> !over && at == AtAsk && trouble == Broken
    {
      if lease.unresolved {
        concluded := Some(OutcomeUnknown);
        return true, AtStart, Fine;
      }
      over, at, trouble := false, AtStart, around.trouble(AtStart);
      if !trouble.Fine? || ready { return; }
      var raw: string;
      if lease.recorded.Some? {
        raw := lease.recorded.value;
      } else {
        if !lease.hotAllows {
          concluded := Some(Skipped);
          return true, BeforeAsk, Fine;
        }
        at, trouble := BeforeAsk, around.trouble(BeforeAsk);
        if !trouble.Fine? { return false, at, trouble; }
        if !lease.callsLeft {
          concluded := Some(Skipped);
          return true, BeforeAsk, Fine;
        }
        dispatches := dispatches + 1;
        at, trouble := AtAsk, around.trouble(AtAsk);
        if !trouble.Fine? { return false, at, trouble; }
        match around.answer {
          case Withheld =>
            concluded := Some(Skipped);
            return true, AtAsk, Fine;
          case Spoiled(failure) =>
            kept := Some(failure);
            at, trouble := AtKeep, around.trouble(AtKeep);
            if !trouble.Fine? { return false, at, trouble; }
            ready := true;
            return false, AtAsk, Broken;
          case Answered(text) =>
            raw := text;
        }
      }
      kept := Some(raw);
      at, trouble := AtKeep, around.trouble(AtKeep);
      if !trouble.Fine? { return false, at, trouble; }
      ready := true;
      return false, at, Fine;
    }

    /** From stored candidates to publication. */
    method ValidateAndPublish() returns (at: Point, trouble: Trouble)
      requires ready && !published
      modifies this`validated, this`probed, this`published
      ensures trouble.Fine? <==> published && around.trouble(AtPublish).Fine?
      ensures !trouble.Fine? ==> around.trouble(at) == trouble
      ensures published ==> lease.reported || validated
      ensures published ==> probed == (old(probed) || around.doubts)
      ensures published && around.doubts ==> validated
    {
      at, trouble := BeforeCheck, around.trouble(BeforeCheck);
      if !trouble.Fine? { return; }
      if !lease.reported {
        validated := true;
        at, trouble := AtCheck, around.trouble(AtCheck);
        if !trouble.Fine? { return; }
      }
      if around.doubts {
        probed := true;
        at, trouble := AtProbe, around.trouble(AtProbe);
        if !trouble.Fine? { return; }
        validated := true;
        at, trouble := AtRecheck, around.trouble(AtRecheck);
        if !trouble.Fine? { return; }
      }
      at, trouble := BeforePublish, around.trouble(BeforePublish);
      if !trouble.Fine? { return; }
      published := true;
      at, trouble := AtPublish, around.trouble(AtPublish);
    }
  }

  // -------------------------------------------------------------- over every schedule

  lemma ClaimedThenLater(db: Db, w: Caller, j: Id, owner: Id, duration: int, between: seq<Step>)
    requires Sound(db) && CanClaim(db, w, j, duration)
    ensures var after := After(Claim(db, w, j, owner, duration), between); Sound(after) && Follows(db, after)
  {
    ClaimIsStep(db, w, j, owner, duration);
    RunKeeps(Claim(db, w, j, owner, duration), between);
    FollowsIsTransitive(db, Claim(db, w, j, owner, duration), After(Claim(db, w, j, owner, duration), between));
  }

  lemma ClaimIsStep(db: Db, w: Caller, j: Id, owner: Id, duration: int)
    requires Sound(db) && CanClaim(db, w, j, duration)
    ensures Sound(Claim(db, w, j, owner, duration)) && Follows(db, Claim(db, w, j, owner, duration))
  {
    ApplyIsClaim(db, w, j, owner, duration);
    StepKeeps(db, OfJob(DoClaim(w, j, owner, duration)));
  }

  lemma ApplyIsClaim(db: Db, w: Caller, j: Id, owner: Id, duration: int)
    requires CanClaim(db, w, j, duration)
    ensures Apply(db, OfJob(DoClaim(w, j, owner, duration))) == Claim(db, w, j, owner, duration)
  {
  }

  /** What is told about a job whose calls have not changed since a claim that found no candidates: its one recorded
      answer if it ever had a call, and nothing if it never had one. */
  lemma ToldAfterClaim(db: Db, after: Db, j: Id, probeUnresolved: bool, m: Material)
    requires Sound(after) && j in after.jobs && (Attempted(db.calls, j) ==> Recorded(db.calls, j) != "")
    requires Resumption.SameOwnCalls(db.calls, after.calls, j)
    requires MaterialOk(after.calls, j, after.jobs[j].batch, probeUnresolved, m) && !m.unresolved
    ensures m.recorded == if Attempted(db.calls, j) then Some(Recorded(db.calls, j)) else None
  {
    Resumption.SameOwnCallsMean(db.calls, after.calls, j);
    if Attempted(db.calls, j) {
      RecordedIsTold(after, j);
    } else if m.recorded.Some? {
      TellsMeansAttempted(after.calls, j, after.jobs[j].batch, m.recorded.value);
    }
  }

  lemma TellsMeansAttempted(calls: seq<Call>, j: Id, b: Id, answer: string)
    ensures Tells(calls, j, b, answer) ==> Attempted(calls, j)
  {
    if Tells(calls, j, b, answer) {
      var i :| 0 <= i < |calls| && OnlyExtraction(calls, j, b, i);
      assert calls[i].job == Some(j);
    }
  }

  lemma RecordedIsTold(db: Db, j: Id)
    requires Sound(db) && j in db.jobs && Recorded(db.calls, j) != "" && !HasOpenCalls(db.calls, j, db.jobs[j].batch)
    ensures Tells(db.calls, j, db.jobs[j].batch, Recorded(db.calls, j))
  {
    var b := db.jobs[j].batch;
    RecordedIsSaved(db.calls, j, b);
    var i :| 0 <= i < |db.calls| && SettledExtraction(db.calls[i], j)
             && Content(db.calls[i].record) == Some(Recorded(db.calls, j));
    assert CallOk(db, db.calls[i]);
    ExtractionIsOnly(db, j, i);
  }

  lemma ExtractionIsOnly(db: Db, j: Id, i: nat)
    requires Sound(db) && j in db.jobs && i < |db.calls| && SettledExtraction(db.calls[i], j) && CallOk(db, db.calls[i])
    ensures OnlyExtraction(db.calls, j, db.jobs[j].batch, i)
  {
    forall k | 0 <= k < |db.calls| && ExtractionRow(db.calls[k], j, db.jobs[j].batch) ensures k == i {
      OneExtractionPerJob(db, j, i, k);
    }
  }

  /** A reservation for the job under this fence. */
  predicate AsksUnder(s: Step, j: Id, token: nat) {
    s.OfWorker? && s.x.DoReserve? && s.x.w.job == Some(j) && s.x.w.token == token
  }

  predicate Appends(s: seq<Call>, t: seq<Call>, j: Id) {
    |s| <= |t| && exists i :: |s| <= i < |t| && t[i].job == Some(j)
  }

  lemma StepAppends(db: Db, s: Step, j: Id)
    requires Sound(db) && j in db.jobs && Appends(db.calls, Apply(db, s).calls, j)
    ensures Accepts(db, s) && AsksUnder(s, j, db.jobs[j].token)
  {
    if Accepts(db, s) {
      match s
      case OfWorker(x) => WorkerAppends(db, x, j);
      case OfJob(x) => Resumption.JobStepsAddNoCall(db, x);
      case OfMoney(x) => Resumption.MoneyStepsAddNoCall(db, x);
      case OfRun(x) => Resumption.RunStepsAddNoCall(db, x);
    }
  }

  lemma WorkerAppends(db: Db, x: WorkerStep, j: Id)
    requires AcceptsWorker(db, x) && j in db.jobs && Appends(db.calls, ApplyWorker(db, x).calls, j)
    ensures AsksUnder(OfWorker(x), j, db.jobs[j].token)
  {
    if x.DoReserve? {
      assert ApplyWorker(db, x).calls == db.calls + [RowFor(db, x.w, x.q)];
      AcceptedWriterHoldsFence(db, x);
    }
  }

  lemma FenceStands(db: Db, s: Step, rest: seq<Step>, j: Id)
    requires Sound(db) && j in db.jobs
    requires var after := After(Apply(db, s), rest); j in after.jobs && after.jobs[j].token == db.jobs[j].token
    ensures var next := Apply(db, s); var after := After(next, rest);
            && Sound(next) && j in next.jobs && next.jobs[j].token == db.jobs[j].token
            && CallsEvolve(db.calls, next.calls) && CallsEvolve(next.calls, after.calls)
  {
    StepKeeps(db, s);
    RunKeeps(Apply(db, s), rest);
    TokenGrows(db, Apply(db, s), j);
    TokenGrows(Apply(db, s), After(Apply(db, s), rest), j);
  }

  lemma TokenGrows(db: Db, after: Db, j: Id)
    requires Follows(db, after) && j in db.jobs
    ensures j in after.jobs && db.jobs[j].token <= after.jobs[j].token
  {
    assert JobEvolves(db.jobs[j], after.jobs[j]);
  }

  /** While a fence is current, only reservations that carry it can add a call to its job. */
  lemma {:induction false} OnlyTheHolderAppends(db: Db, steps: seq<Step>, j: Id)
    requires Sound(db) && j in db.jobs && forall s :: s in steps ==> !AsksUnder(s, j, db.jobs[j].token)
    requires j in After(db, steps).jobs && After(db, steps).jobs[j].token == db.jobs[j].token
    ensures !Appends(db.calls, After(db, steps).calls, j)
    decreases |steps|
  {
    if steps != [] {
      FenceStands(db, steps[0], steps[1..], j);
      OnlyTheHolderAppends(Apply(db, steps[0]), steps[1..], j);
      AppendsCompose(db, steps[0], After(db, steps).calls, j);
    }
  }

  lemma AppendsCompose(db: Db, s: Step, later: seq<Call>, j: Id)
    requires Sound(db) && j in db.jobs && !AsksUnder(s, j, db.jobs[j].token)
    requires CallsEvolve(db.calls, Apply(db, s).calls) && CallsEvolve(Apply(db, s).calls, later)
             && !Appends(Apply(db, s).calls, later, j)
    ensures !Appends(db.calls, later, j)
  {
    var next := Apply(db, s).calls;
    if i :| |db.calls| <= i < |later| && later[i].job == Some(j) {
      assert i < |next| && Evolves(next[i], later[i]);
      assert Appends(db.calls, next, j);
      StepAppends(db, s, j);
    }
  }

  /** Recovery dispatches only for a job that never had a call; otherwise it reuses the one recorded answer. This holds
      whatever anyone did between the claim and the worker's reading, as long as the worker still has its fence and has
      reserved nothing under it. */
  lemma DispatchesOnlyUntouchedJobs(db: Db, w: Caller, j: Id, owner: Id, duration: int, between: seq<Step>,
                                    probeUnresolved: bool, m: Material, l: Lease, s: Surroundings)
    requires Sound(db) && CanClaim(db, w, j, duration)
    requires forall x :: x in between ==> !AsksUnder(x, j, db.jobs[j].token + 1)
    requires var after := After(Claim(db, w, j, owner, duration), between);
             && j in after.jobs && after.jobs[j].token == db.jobs[j].token + 1
             && MaterialOk(after.calls, j, db.jobs[j].batch, probeUnresolved, m)
    requires l.unresolved == m.unresolved && l.recorded == m.recorded && l.ready == db.jobs[j].digest.Some?
    ensures DispatchAllowed(l, s) ==> !Attempted(After(Claim(db, w, j, owner, duration), between).calls, j)
    ensures !l.unresolved && !l.ready && Attempted(db.calls, j) ==> KeptText(l, s) == Some(Recorded(db.calls, j))
  {
    var after := After(Claim(db, w, j, owner, duration), between);
    UntouchedAfterClaim(db, w, j, owner, duration, between);
    if !l.unresolved && !l.ready {
      ToldAfterClaim(db, after, j, probeUnresolved, m);
    }
  }

  lemma UntouchedAfterClaim(db: Db, w: Caller, j: Id, owner: Id, duration: int, between: seq<Step>)
    requires Sound(db) && CanClaim(db, w, j, duration)
    requires forall x :: x in between ==> !AsksUnder(x, j, db.jobs[j].token + 1)
    requires var after := After(Claim(db, w, j, owner, duration), between);
             j in after.jobs && after.jobs[j].token == db.jobs[j].token + 1
    ensures var after := After(Claim(db, w, j, owner, duration), between);
            && Sound(after) && after.jobs[j].batch == db.jobs[j].batch
            && Resumption.SameOwnCalls(db.calls, after.calls, j)
            && (Attempted(after.calls, j) <==> Attempted(db.calls, j))
  {
    ClaimIsStep(db, w, j, owner, duration);
    ClaimedThenLater(db, w, j, owner, duration, between);
    UntouchedUnderFence(db, Claim(db, w, j, owner, duration), between, j);
  }

  lemma UntouchedUnderFence(db: Db, claimed: Db, between: seq<Step>, j: Id)
    requires Sound(claimed) && claimed.calls == db.calls && j in db.jobs && j in claimed.jobs
             && claimed.jobs[j].token == db.jobs[j].token + 1
    requires forall x :: x in between ==> !AsksUnder(x, j, db.jobs[j].token + 1)
    requires var after := After(claimed, between);
             j in after.jobs && after.jobs[j].token == db.jobs[j].token + 1 && Follows(db, after)
    requires !HasOpenCalls(db.calls, j, db.jobs[j].batch)
    ensures var after := After(claimed, between);
            && after.jobs[j].batch == db.jobs[j].batch
            && Resumption.SameOwnCalls(db.calls, after.calls, j)
            && (Attempted(after.calls, j) <==> Attempted(db.calls, j))
  {
    OnlyTheHolderAppends(claimed, between, j);
    UntouchedSince(db, After(claimed, between), j);
  }

  lemma UntouchedSince(db: Db, after: Db, j: Id)
    requires Follows(db, after) && j in db.jobs && !HasOpenCalls(db.calls, j, db.jobs[j].batch)
             && !Appends(db.calls, after.calls, j)
    ensures j in after.jobs && after.jobs[j].batch == db.jobs[j].batch
    ensures Resumption.SameOwnCalls(db.calls, after.calls, j) && (Attempted(after.calls, j) <==> Attempted(db.calls, j))
  {
    Resumption.ReleasedHasNothingOpen(db.calls, j, db.jobs[j].batch);
    Resumption.SettledCallsStay(db.calls, after.calls, j);
    Resumption.SameOwnCallsMean(db.calls, after.calls, j);
    assert JobEvolves(db.jobs[j], after.jobs[j]);
  }
}
