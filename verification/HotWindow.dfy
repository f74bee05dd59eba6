/** Timed HOT dispatch: a recent settled call of the same prefix supports an immutable decision with a soft deadline,
    and an extraction under a HOT_ONLY contract is sent before that deadline or not at all. */
module HotWindow {
  import opened Types
  import opened Table
  import opened Jobs

  const WINDOW: int := 5 * SECOND

  /** How a call record's text is read: its provider and model labels, a reply that stopped normally and passed
      its schema, and a wire text that extends a native prefix. */
  datatype Reader = Reader(labelled: (Record, Provider) -> bool, stopped: Record -> bool, continues: (Id, Id) -> bool)

  // ------------------------------------------------------------------------ seeds

  datatype Fault = NotSettled | IdentityInvalid | EnvironmentMismatch | Incomplete | PrefixMismatch | UsageInvalid
    | TimeInvalid | WindowExpired

  datatype Inspection = Fit(anchor: int, hit: int64) | Unfit(fault: Fault)

  predicate UsageExact(u: UsageJson) {
    && u.Usage? && u.input.Some? && u.hit.Some? && u.miss.Some?
    && u.input.value > 0 && 0 <= u.hit.value <= u.input.value && u.miss.value == u.input.value - u.hit.value
  }

  predicate RightEnvironment(r: Record, p: Provider) {
    p.Mock? == (r.simulated == Some(true)) && p.Deepseek? == (r.dispatched == Some(true))
  }

  predicate CompleteReply(read: Reader, r: Record) {
    && r.httpStatus == 200 && r.transport.NoFailure? && (r.retries.None? || r.retries == Some(0))
    && r.response.Response? && |r.response.choices| == 1 && read.stopped(r)
  }

  /** Inspect one ledger row as support for a prefix. The window opens at the first settled receipt. */
  function Inspect(read: Reader, c: Call, prefix: Id, now: int): Inspection {
    if !c.state.Settled? || !(c.stage.Answer? || c.stage.Extraction?) || c.record.None?
       || c.record.value.rawUsage.UsageMalformed? || c.record.value.response.ResponseMalformed?
          then Unfit(NotSettled) else
    var r := c.record.value;
    if r.attempt != Some(c.attempt) || r.run != Some(c.run) || r.stage != Some(c.stage) || !read.labelled(r, c.provider)
      then Unfit(IdentityInvalid)
    else if !RightEnvironment(r, c.provider) then Unfit(EnvironmentMismatch)
    else if !CompleteReply(read, r) then Unfit(Incomplete)
    else if r.wire.None? || r.wireSha != r.wire.value || r.wire.value != c.payload.content
           || !read.continues(prefix, r.wire.value)
           then Unfit(PrefixMismatch)
    else if !UsageExact(r.rawUsage) then Unfit(UsageInvalid)
    else if r.started.None? || r.finished.None? || r.started.value > r.finished.value || c.receivedAt.None?
           || c.receivedAt.value > now
           then Unfit(TimeInvalid)
    else if now >= c.receivedAt.value + WINDOW then Unfit(WindowExpired)
    else Fit(c.receivedAt.value, r.rawUsage.hit.value)
  }

  /** A row supports a prefix exactly if it is a settled answer or extraction whose record names it, was really made
      in its provider's world, was answered once, completely and without retries, was sent as reserved under the
      prefix, has counts that add up, and was received within the last five seconds. */
  lemma FitMeans(read: Reader, c: Call, prefix: Id, now: int)
    ensures Inspect(read, c, prefix, now).Fit? <==>
            && c.state.Settled? && (c.stage.Answer? || c.stage.Extraction?) && c.record.Some?
            && var r := c.record.value;
            && r.attempt == Some(c.attempt) && r.run == Some(c.run) && r.stage == Some(c.stage)
            && read.labelled(r, c.provider)
            && (if c.provider.Mock? then r.simulated == Some(true) && r.dispatched != Some(true)
                else r.dispatched == Some(true) && r.simulated != Some(true))
            && r.httpStatus == 200 && r.transport.NoFailure? && (r.retries.Some? ==> r.retries.value == 0)
            && r.response.Response? && |r.response.choices| == 1 && read.stopped(r)
            && r.wire == Some(c.payload.content) && r.wireSha == c.payload.content
            && read.continues(prefix, c.payload.content)
            && r.rawUsage.Usage? && r.rawUsage.input.Some? && r.rawUsage.hit.Some? && r.rawUsage.miss.Some?
            && r.rawUsage.input.value > 0 && r.rawUsage.hit.value >= 0 && r.rawUsage.miss.value >= 0
            && r.rawUsage.hit.value as int + r.rawUsage.miss.value as int == r.rawUsage.input.value as int
            && r.started.Some? && r.finished.Some? && r.started.value <= r.finished.value
            && c.receivedAt.Some? && now - 5 * SECOND < c.receivedAt.value <= now
    ensures Inspect(read, c, prefix, now).Fit? ==>
              && Inspect(read, c, prefix, now).anchor == c.receivedAt.value
              && Inspect(read, c, prefix, now).hit == c.record.value.rawUsage.hit.value
  {
  }

  /** The rows the history query selects, and its order: latest receipt first, then attempt id. */
  predicate Listed(c: Call, prefix: Id, p: Provider, now: int) {
    && c.prefix == Some(prefix) && c.provider == p && c.state.Settled? && (p.Mock? || c.amount.Some?)
    && c.receivedAt.Some? && now - WINDOW < c.receivedAt.value <= now && (c.stage.Answer? || c.stage.Extraction?)
  }

  predicate Newer(c: Call, d: Call) {
    && c.receivedAt.Some? && d.receivedAt.Some?
    && (c.receivedAt.value > d.receivedAt.value || (c.receivedAt == d.receivedAt && c.attempt < d.attempt))
  }

  /** `rows` is the query's answer over the call table: the newest 65 listed rows in order. */
  ghost predicate History(calls: seq<Call>, prefix: Id, p: Provider, now: int, rows: seq<Call>) {
    && |rows| <= 65
    && (forall i :: 0 <= i < |rows| ==> rows[i] in calls && Listed(rows[i], prefix, p, now))
    && (forall i, k :: 0 <= i < k < |rows| ==> Newer(rows[i], rows[k]))
    && (forall c :: c in calls && Listed(c, prefix, p, now) && c !in rows ==> |rows| == 65 && Newer(rows[64], c))
  }

  predicate Supports(read: Reader, c: Call, prefix: Id, now: int, exclude: Option<Id>) {
    Some(c.attempt) != exclude && Inspect(read, c, prefix, now).Fit?
  }

  predicate Extracts(c: Call, exclude: Option<Id>) { c.stage.Extraction? && Some(c.attempt) != exclude }

  predicate Hits(read: Reader, c: Call, prefix: Id, now: int) {
    Inspect(read, c, prefix, now).Fit? && Inspect(read, c, prefix, now).hit != 0
  }

  /** Row i is the newest extraction. */
  predicate NewestExtraction(rows: seq<Call>, i: nat, exclude: Option<Id>) {
    i < |rows| && Extracts(rows[i], exclude) && forall k :: 0 <= k < i ==> !Extracts(rows[k], exclude)
  }

  predicate NoneSupports(read: Reader, rows: seq<Call>, n: nat, prefix: Id, now: int, exclude: Option<Id>)
    requires n <= |rows|
  {
    forall k :: 0 <= k < n ==> !Supports(read, rows[k], prefix, now, exclude)
  }

  /** The newest extraction among the first n rows, if there is one, hit the cache. */
  predicate NewestExtractionHits(read: Reader, rows: seq<Call>, n: nat, prefix: Id, now: int, exclude: Option<Id>)
    requires n <= |rows|
  {
    forall k :: 0 <= k < n && NewestExtraction(rows, k, exclude) ==> Hits(read, rows[k], prefix, now)
  }

  /** Row i is the newest supporting row of a bounded history whose newest extraction, if any, hit the cache. */
  predicate Picks(read: Reader, rows: seq<Call>, prefix: Id, now: int, exclude: Option<Id>, i: nat) {
    && |rows| <= 64 && i < |rows| && Supports(read, rows[i], prefix, now, exclude)
    && NoneSupports(read, rows, i, prefix, now, exclude)
    && NewestExtractionHits(read, rows, |rows|, prefix, now, exclude)
  }

  predicate AnyPick(read: Reader, rows: seq<Call>, prefix: Id, now: int, exclude: Option<Id>) {
    exists i :: 0 <= i < |rows| && Picks(read, rows, prefix, now, exclude, i)
  }

  datatype Scan = Candidate(row: nat) | NoCandidate | TooMany | RecentMiss | RecentFault(fault: Fault)

  /** One pass over the history: the latest extraction decides alone, otherwise the first supporting row is taken. */
  method RecentSeed(read: Reader, rows: seq<Call>, prefix: Id, now: int, exclude: Option<Id>) returns (r: Scan)
    ensures r.Candidate? <==> AnyPick(read, rows, prefix, now, exclude)
    ensures r.Candidate? ==> Picks(read, rows, prefix, now, exclude, r.row)
    ensures r.TooMany? <==> |rows| > 64
    ensures r.RecentMiss? || r.RecentFault? ==>
              exists k :: 0 <= k < |rows| && NewestExtraction(rows, k, exclude) && !Hits(read, rows[k], prefix, now)
                          && (r.RecentFault? ==> Inspect(read, rows[k], prefix, now) == Unfit(r.fault))
    ensures r.NoCandidate? ==> NoneSupports(read, rows, |rows|, prefix, now, exclude)
  {
    if |rows| > 64 { return TooMany; }
    var candidate: Option<nat> := None;
    var seenExtraction := false;
    for n := 0 to |rows|
      invariant candidate.None? ==> NoneSupports(read, rows, n, prefix, now, exclude)
      invariant candidate.Some? ==> candidate.value < n && Supports(read, rows[candidate.value], prefix, now, exclude)
                                    && NoneSupports(read, rows, candidate.value, prefix, now, exclude)
      invariant seenExtraction <==> exists k :: 0 <= k < n && Extracts(rows[k], exclude)
      invariant NewestExtractionHits(read, rows, n, prefix, now, exclude)
    {
      var v := rows[n];
      if Some(v.attempt) == exclude { continue; }
      var found := Inspect(read, v, prefix, now);
      if v.stage.Extraction? && !seenExtraction {
        seenExtraction := true;
        assert Extracts(rows[n], exclude) && NewestExtraction(rows, n, exclude);
        if found.Unfit? { return RecentFault(found.fault); }
        if found.hit == 0 { return RecentMiss; }
      }
      if found.Fit? && candidate.None? { candidate := Some(n); }
    }
    if candidate.None? { return NoCandidate; }
    assert Picks(read, rows, prefix, now, exclude, candidate.value);
    return Candidate(candidate.value);
  }

  ghost predicate LatestExtraction(calls: seq<Call>, prefix: Id, p: Provider, now: int, exclude: Option<Id>, e: Call) {
    && e in calls && Listed(e, prefix, p, now) && Extracts(e, exclude)
    && forall d :: d in calls && Listed(d, prefix, p, now) && Extracts(d, exclude) ==> d == e || Newer(e, d)
  }

  /** On the whole call table: the chosen seed is the newest supporting call of the window, and the newest
      extraction of the window, if it is not that attempt itself, hit the cache. */
  lemma SeedIsNewest(read: Reader, calls: seq<Call>, prefix: Id, p: Provider, now: int, rows: seq<Call>,
                     exclude: Option<Id>, i: nat)
    requires History(calls, prefix, p, now, rows) && Picks(read, rows, prefix, now, exclude, i)
    ensures forall c ::
              c in calls && Listed(c, prefix, p, now) && Supports(read, c, prefix, now, exclude) ==>
                c == rows[i] || Newer(rows[i], c)
    ensures forall e :: LatestExtraction(calls, prefix, p, now, exclude, e) ==>
              Hits(read, e, prefix, now) && e.record.Some? && e.record.value.rawUsage.Usage?
              && e.record.value.rawUsage.hit.Some? && e.record.value.rawUsage.hit.value > 0
  {
    forall c | c in calls && Listed(c, prefix, p, now) && Supports(read, c, prefix, now, exclude)
      ensures c == rows[i] || Newer(rows[i], c)
    {
      var k :| 0 <= k < |rows| && rows[k] == c;
    }
    forall e | LatestExtraction(calls, prefix, p, now, exclude, e)
      ensures Hits(read, e, prefix, now)
    {
      var k :| 0 <= k < |rows| && rows[k] == e;
      assert NewestExtraction(rows, k, exclude);
    }
  }

  // -------------------------------------------------------------------- decisions

  datatype Decision = Decision(id: Id, job: Id, prefix: Id, seed: Id, calibration: Id, provider: Provider,
                               token: nat, owner: Id, observed: int, deadline: int)

  predicate SameKey(d: Decision, e: Decision) {
    d.job == e.job && d.seed == e.seed && d.calibration == e.calibration && d.token == e.token
  }

  function FindId(ds: seq<Decision>, id: Id): Option<Decision> {
    if ds == [] then None else if ds[0].id == id then Some(ds[0]) else FindId(ds[1..], id)
  }

  function FindKey(ds: seq<Decision>, key: Decision): Option<Decision> {
    if ds == [] then None else if SameKey(ds[0], key) then Some(ds[0]) else FindKey(ds[1..], key)
  }

  lemma {:induction false} FoundIsThere(ds: seq<Decision>, id: Id, key: Decision)
    ensures FindId(ds, id).Some? ==> FindId(ds, id).value in ds && FindId(ds, id).value.id == id
    ensures FindKey(ds, key).Some? ==> FindKey(ds, key).value in ds && SameKey(FindKey(ds, key).value, key)
  {
    if ds != [] { FoundIsThere(ds[1..], id, key); }
  }

  /** Appending never changes what a lookup already finds. */
  lemma {:induction false} LookupIsStable(ds: seq<Decision>, more: seq<Decision>, id: Id, key: Decision)
    ensures FindId(ds, id).Some? ==> FindId(ds + more, id) == FindId(ds, id)
    ensures FindKey(ds, key).Some? ==> FindKey(ds + more, key) == FindKey(ds, key)
  {
    if ds != [] {
      LookupIsStable(ds[1..], more, id, key);
      assert (ds + more)[1..] == ds[1..] + more;
    }
  }

  function MinOf(a: int, b: int): int { if a < b then a else b }

  /** A new decision for a job: at most five seconds from the seed's receipt, within the job's deadline and lease. */
  function Proposal(db: Db, id: Id, w: Caller, calibration: Id, seed: Call): Decision
    requires HoldsJob(db, w) && seed.receivedAt.Some?
  {
    var j := db.jobs[w.job.value];
    Decision(id, w.job.value, j.prefix, seed.attempt, calibration, seed.provider, j.token, j.owner.value,
             seed.receivedAt.value,
             MinOf(MinOf(seed.receivedAt.value + WINDOW, j.deadline), j.leaseUntil.value))
  }

  /** Insert unless the same job, seed, calibration and fence already have one; the reply is the stored decision. */
  function Issue(ds: seq<Decision>, d: Decision): (Decision, seq<Decision>) {
    match FindKey(ds, d) case Some(first) => (first, ds) case None => (d, ds + [d])
  }

  /** What is left of a window, in whole milliseconds cut toward zero; anything over five seconds counts as nothing. */
  function Remaining(now: int, deadline: int): nat {
    if deadline - now <= 0 || (deadline - now) / MILLISECOND > 5000 then 0 else (deadline - now) / MILLISECOND
  }

  /** The reported number of whole milliseconds is what is left, cut. */
  predicate Reported(now: int, deadline: int, ms: nat) {
    now + ms * MILLISECOND <= deadline < now + (ms + 1) * MILLISECOND
  }

  /** A window that ends within five seconds is reported exactly if a millisecond of it is left. */
  lemma OpenWindowIsReported(now: int, deadline: int)
    requires deadline <= now + 5 * SECOND
    ensures Remaining(now, deadline) > 0 <==> now + MILLISECOND <= deadline
    ensures Remaining(now, deadline) > 0 ==> Reported(now, deadline, Remaining(now, deadline))
  {
  }

  datatype HotCheck = NotNeeded | Denied | Granted(decision: Decision, remaining: nat)

  predicate NeedsHot(k: Contract, q: Request) { k.m3 && q.stage.Extraction? && k.hotOnly }

  /** The referenced seed itself still supports the decision at this instant. */
  predicate SeedStands(read: Reader, calls: seq<Call>, d: Decision, now: int) {
    match Find(calls, d.seed)
    case None => false
    case Some(i) =>
      FindMeans(calls, d.seed);
      var c := calls[i];
      && c.prefix == Some(d.prefix) && c.provider == d.provider && (c.provider.Mock? || c.amount.Some?)
      && Inspect(read, c, d.prefix, now).Fit? && Inspect(read, c, d.prefix, now).anchor == d.observed
      && d.deadline <= d.observed + WINDOW
  }

  /** A decision's seed stands while its row names the decision's prefix and provider, has a price if it was paid for,
      and still supports the prefix since the very receipt that the decision counts from. */
  lemma SeedStandsMeans(read: Reader, calls: seq<Call>, d: Decision, now: int)
    ensures SeedStands(read, calls, d, now) <==>
            && Find(calls, d.seed).Some? && Find(calls, d.seed).value < |calls|
            && var c := calls[Find(calls, d.seed).value];
            && c.attempt == d.seed && c.prefix == Some(d.prefix) && c.provider == d.provider
            && (c.provider.Deepseek? ==> c.amount.Some?) && Inspect(read, c, d.prefix, now).Fit?
            && c.receivedAt == Some(d.observed) && d.deadline <= d.observed + 5 * SECOND
  {
    FindMeans(calls, d.seed);
    if Find(calls, d.seed).Some? { FitMeans(read, calls[Find(calls, d.seed).value], d.prefix, now); }
  }

  /** The decision was issued to this very holder of the job. */
  predicate IssuedTo(d: Decision, db: Db, w: Caller)
    requires HoldsJob(db, w)
  {
    var j := db.jobs[w.job.value];
    && d.job == w.job.value && d.prefix == j.prefix && d.provider == db.runs[w.run].provider
    && d.token == j.token && Some(d.owner) == j.owner
  }

  /** The check that admission makes last, for a HOT_ONLY extraction. `calibrated` and `profiled` stand for a valid
      calibration document and a calibrated prefix profile. */
  function ForReserve(read: Reader, db: Db, ds: seq<Decision>, w: Caller, q: Request, evidence: Option<Id>,
                      rows: seq<Call>, configured: bool): HotCheck {
    if w.run !in db.runs || !NeedsHot(db.runs[w.run].contract, q) then NotNeeded
    else if !configured || evidence.None? || !HoldsJob(db, w) || !w.current then Denied
    else
      var prefix := db.jobs[w.job.value].prefix;
      var found := FindId(ds, evidence.value);
      if q.prefix != Some(prefix) || found.None? || !IssuedTo(found.value, db, w) || found.value.seed == q.attempt
         || !q.prefixMatches
        then Denied
      else if !AnyPick(read, rows, prefix, db.now, Some(q.attempt)) || !SeedStands(read, db.calls, found.value, db.now)
             then Denied
      else if Remaining(db.now, found.value.deadline) == 0 then Denied
      else Granted(found.value, Remaining(db.now, found.value.deadline))
  }

  /** The stored decisions, as the service's two transactions use them. */
  class DecisionTable {
    var rows: seq<Decision>

    constructor ()
      ensures rows == []
    {
      rows := [];
    }

    /** Observe the cache for a job: refuse, or answer with a decision and what is left of its window. */
    method Observe(read: Reader, db: Db, w: Caller, id: Id, calibration: Id, configured: bool, history: seq<Call>)
        returns (reply: Option<(Decision, nat)>, scan: Scan)
      modifies this
      ensures reply.Some? ==> reply.value.0 in rows && reply.value.1 == Remaining(db.now, reply.value.0.deadline) > 0
      ensures rows == if CanObserve(read, db, w, configured, history, scan)
                      then Issue(old(rows), Proposal(db, id, w, calibration, history[scan.row])).1 else old(rows)
      ensures reply.Some? ==> CanObserve(read, db, w, configured, history, scan)
      ensures CanObserve(read, db, w, configured, history, scan) ==>
                var d := Issue(old(rows), Proposal(db, id, w, calibration, history[scan.row])).0;
                reply == if Remaining(db.now, d.deadline) > 0 then Some((d, Remaining(db.now, d.deadline))) else None
      ensures DecisionsOk(read, db, old(rows)) && CanObserve(read, db, w, configured, history, scan) ==>
                var d := Issue(old(rows), Proposal(db, id, w, calibration, history[scan.row])).0;
                && (reply.Some? <==> db.now + MILLISECOND <= d.deadline)
                && (reply.Some? ==> reply.value.0 == d && Reported(db.now, d.deadline, reply.value.1))
      ensures w.current && configured && HoldsJob(db, w)
              && AnyPick(read, history, db.jobs[w.job.value].prefix, db.now, None) ==>
                CanObserve(read, db, w, configured, history, scan)
    {
      scan := NoCandidate;
      if !HoldsJob(db, w) || !w.current || !configured { return None, scan; }
      scan := RecentSeed(read, history, db.jobs[w.job.value].prefix, db.now, None);
      if !scan.Candidate? { return None, scan; }
      var seed := history[scan.row];
      var deadline := seed.receivedAt.value + WINDOW;
      var j := db.jobs[w.job.value];
      if j.deadline < deadline { deadline := j.deadline; }
      if j.leaseUntil.value < deadline { deadline := j.leaseUntil.value; }
      var proposed := Decision(id, w.job.value, j.prefix, seed.attempt, calibration, seed.provider, j.token,
                               j.owner.value, seed.receivedAt.value, deadline);
      var stored := FindKey(rows, proposed);
      FoundIsThere(rows, id, proposed);
      if stored.None? {
        rows := rows + [proposed];
        stored := Some(proposed);
      }
      assert proposed == Proposal(db, id, w, calibration, seed);
      assert (stored.value, rows) == Issue(old(rows), proposed);
      if DecisionsOk(read, db, old(rows)) {
        IssuedWindowIsShort(read, db, old(rows), proposed);
      }
      var left := Remaining(db.now, stored.value.deadline);
      return if left == 0 then None else Some((stored.value, left)), scan;
    }
  }

  predicate CanObserve(read: Reader, db: Db, w: Caller, configured: bool, history: seq<Call>, scan: Scan) {
    && HoldsJob(db, w) && w.current && configured && scan.Candidate?
    && Picks(read, history, db.jobs[w.job.value].prefix, db.now, None, scan.row)
  }

  // ------------------------------------------------------------- the client's side

  /** What the runtime keeps of one request. All its times are readings of its own clock. */
  datatype Ask = Ask(stage: Stage, evidence: Option<Id>, hotPolicy: bool, started: int, decision: Option<Decision>,
                     remaining: nat)

  predicate HotAsk(a: Ask) { a.stage.Extraction? && (a.hotPolicy || a.evidence.Some?) }

  /** The request may cross the dispatch boundary at this reading of the client's clock. */
  predicate MayDispatch(a: Ask, clock: int) {
    HotAsk(a) ==>
      && a.remaining <= 5000 && a.decision.Some? && Some(a.decision.value.id) == a.evidence
      && clock < a.started + a.remaining * MILLISECOND
  }

  /** A request under the HOT policy, or with HOT evidence, is sent exactly if it was granted the decision it names,
      with at most five seconds, and those have not passed since the reservation was requested; any other request
      always is. */
  lemma DispatchIsInWindow(a: Ask, clock: int)
    ensures MayDispatch(a, clock) <==>
            (a.stage.Extraction? && (a.hotPolicy || a.evidence.Some?) ==>
               && a.decision.Some? && a.evidence == Some(a.decision.value.id)
               && a.remaining <= 5000 && clock - a.started < a.remaining * 1_000_000)
  {
  }

  /** One request on its way: the reading of the clock is taken before the reservation is requested. */
  class Dispatcher {
    const ask: Ask
    const provider: Provider
    var dispatched: bool
    var dispatchAt: Option<int>

    constructor (a: Ask, p: Provider)
      ensures ask == a && provider == p && !dispatched && dispatchAt.None?
    {
      ask, provider, dispatched, dispatchAt := a, p, false, None;
    }

    /** Runs at the last moment before the transport; a refusal leaves no trace of a dispatch. */
    method MarkDispatch(clock: int) returns (sent: bool)
      modifies this
      ensures sent <==> MayDispatch(ask, clock)
      ensures dispatchAt == (if sent then Some(clock) else old(dispatchAt))
              && dispatched == (if sent then provider.Deepseek? else old(dispatched))
    {
      var hot := ask.stage.Extraction? && (ask.hotPolicy || ask.evidence.Some?);
      var windowValid := ask.remaining <= 5000;
      var deadline := ask.started + (if windowValid then ask.remaining else 0) * MILLISECOND;
      if hot && (!windowValid || ask.decision.None? || Some(ask.decision.value.id) != ask.evidence
                 || clock >= deadline) {
        return false;
      }
      dispatchAt := Some(clock);
      dispatched := provider.Deepseek?;
      return true;
    }
  }

  // --------------------------------------------------------- what decisions promise

  /** A request in the world: whose clock it uses (`skew` ahead of the database's), whether its admission fell under
      a HOT_ONLY contract, and the database instant at which it was sent. */
  datatype Flight = Flight(w: Caller, q: Request, skew: int, ask: Ask, admitted: bool, guarded: bool,
                           sentAt: Option<int>)


  /** The call was really made, in its provider's own world, answered completely, sent as reserved under this native
      prefix, and its usage adds up. */
  predicate Genuine(read: Reader, c: Call, prefix: Id) {
    && c.record.Some?
    && var r := c.record.value;
    && r.attempt == Some(c.attempt) && r.run == Some(c.run) && r.stage == Some(c.stage) && read.labelled(r, c.provider)
    && RightEnvironment(r, c.provider) && CompleteReply(read, r) && UsageExact(r.rawUsage)
    && r.wire == Some(c.payload.content) && r.wireSha == c.payload.content && read.continues(prefix, c.payload.content)
  }

  predicate IsSeed(read: Reader, c: Call, d: Decision) {
    && c.attempt == d.seed && c.state.Settled? && c.receivedAt == Some(d.observed) && c.prefix == Some(d.prefix)
    && c.provider == d.provider
    && (c.stage.Answer? || c.stage.Extraction?) && Genuine(read, c, d.prefix)
  }

  /** A decision rests on one genuine settled call and never outlives five seconds from its receipt. */
  ghost predicate DecisionOk(read: Reader, db: Db, d: Decision) {
    && (exists i :: 0 <= i < |db.calls| && IsSeed(read, db.calls[i], d))
    && d.observed < d.deadline <= d.observed + WINDOW && d.observed <= db.now
    && d.job in db.jobs && d.deadline <= db.jobs[d.job].deadline && d.prefix == db.jobs[d.job].prefix
  }

  /** An admitted guarded request knows a stored decision on another call's receipt, and its own deadline
      is no later than that decision's. */
  predicate FlightOk(now: int, ds: seq<Decision>, f: Flight, a: Id) {
    && f.q.attempt == a && f.ask.stage == f.q.stage && f.ask.started <= now + f.skew
    && (!f.admitted ==> f.ask.decision.None? && f.sentAt.None?)
    && (f.guarded ==> f.ask.decision.Some? && f.q.stage.Extraction? && f.ask.evidence.Some?)
    && (f.ask.decision.Some? ==>
      var d := f.ask.decision.value;
      && d in ds && d.seed != a && f.q.prefix == Some(d.prefix) && f.w.job == Some(d.job)
      && f.ask.started - f.skew + f.ask.remaining * MILLISECOND <= d.deadline)
    && (f.sentAt.Some? && HotAsk(f.ask) ==>
      f.ask.decision.Some? && f.ask.decision.value.observed <= f.sentAt.value < f.ask.decision.value.deadline)
  }

  lemma ProposalIsOk(read: Reader, db: Db, w: Caller, id: Id, calibration: Id, history: seq<Call>, row: nat,
                     p: Provider)
    requires HoldsJob(db, w) && CanObserve(read, db, w, true, history, Candidate(row))
    requires History(db.calls, db.jobs[w.job.value].prefix, p, db.now, history)
    ensures DecisionOk(read, db, Proposal(db, id, w, calibration, history[row]))
    ensures var d, seed, j := Proposal(db, id, w, calibration, history[row]), history[row], db.jobs[w.job.value];
            && d.job == w.job.value && d.seed == seed.attempt && Some(d.observed) == seed.receivedAt
            && d.prefix == j.prefix && d.provider == seed.provider && d.token == j.token && Some(d.owner) == j.owner
            && d.calibration == calibration
            && d.deadline <= d.observed + 5 * SECOND && d.deadline <= j.deadline && d.deadline <= j.leaseUntil.value
            && (d.deadline == d.observed + 5 * SECOND || d.deadline == j.deadline || d.deadline == j.leaseUntil.value)
  {
    var seed := history[row];
    var i :| 0 <= i < |db.calls| && db.calls[i] == seed;
    assert IsSeed(read, db.calls[i], Proposal(db, id, w, calibration, seed));
  }

  lemma RemainingFits(now: int, deadline: int)
    ensures Remaining(now, deadline) > 0 ==> now + Remaining(now, deadline) * MILLISECOND <= deadline
  {
  }

  /** What a flight becomes when its reservation is admitted. */
  function Cleared(f: Flight, check: HotCheck, guarded: bool): Flight {
    f.(admitted := true, guarded := guarded,
       ask := if check.Granted? then f.ask.(decision := Some(check.decision), remaining := check.remaining) else f.ask)
  }

  lemma ClearedIsOk(read: Reader, db: Db, ds: seq<Decision>, f: Flight, history: seq<Call>, configured: bool, now: int)
    requires FlightOk(db.now, ds, f, f.q.attempt) && !f.admitted && f.w.run in db.runs && db.now <= now
    requires var check := ForReserve(read, db, ds, f.w, f.q, f.ask.evidence, history, configured); !check.Denied?
    ensures var check := ForReserve(read, db, ds, f.w, f.q, f.ask.evidence, history, configured);
            FlightOk(now, ds, Cleared(f, check, NeedsHot(db.runs[f.w.run].contract, f.q)), f.q.attempt)
  {
    var check := ForReserve(read, db, ds, f.w, f.q, f.ask.evidence, history, configured);
    if check.Granted? {
      FoundIsThere(ds, f.ask.evidence.value, check.decision);
      RemainingFits(db.now, check.decision.deadline);
    }
  }

  /** Everything else that the last check of an admission asks for: the stored decision that the request names was
      issued to this holder for this prefix, rests on another call, and its seed and some recent call still stand. */
  predicate HotCleared(read: Reader, db: Db, ds: seq<Decision>, w: Caller, q: Request, evidence: Option<Id>,
                       rows: seq<Call>, configured: bool, d: Decision) {
    && configured && w.current && HoldsJob(db, w) && evidence.Some? && FindId(ds, evidence.value) == Some(d)
    && var j := db.jobs[w.job.value];
    && q.prefix == Some(j.prefix) && q.prefixMatches && d.seed != q.attempt
    && d.job == w.job.value && d.prefix == j.prefix && d.provider == db.runs[w.run].provider && d.token == j.token
    && Some(d.owner) == j.owner
    && AnyPick(read, rows, j.prefix, db.now, Some(q.attempt)) && SeedStands(read, db.calls, d, db.now)
  }

  /** It grants the request exactly if all of that holds and a millisecond of the stored window is left, and then tells
      what is left of it; otherwise the request is denied. */
  lemma ReserveIsGrantedInTime(read: Reader, db: Db, ds: seq<Decision>, w: Caller, q: Request, evidence: Option<Id>,
                               rows: seq<Call>, configured: bool)
    requires DecisionsOk(read, db, ds) && w.run in db.runs
    requires db.runs[w.run].contract.m3 && db.runs[w.run].contract.hotOnly && q.stage.Extraction?
    ensures var check := ForReserve(read, db, ds, w, q, evidence, rows, configured);
            && !check.NotNeeded?
            && (check.Granted? <==>
                  exists d :: HotCleared(read, db, ds, w, q, evidence, rows, configured, d)
                              && db.now + MILLISECOND <= d.deadline)
            && (check.Granted? ==>
                  HotCleared(read, db, ds, w, q, evidence, rows, configured, check.decision)
                  && Reported(db.now, check.decision.deadline, check.remaining))
  {
    if evidence.Some? && FindId(ds, evidence.value).Some? {
      var d := FindId(ds, evidence.value).value;
      FoundIsThere(ds, evidence.value, d);
      assert DecisionOk(read, db, d);
      OpenWindowIsReported(db.now, d.deadline);
      if ForReserve(read, db, ds, w, q, evidence, rows, configured).Granted? {
        assert HotCleared(read, db, ds, w, q, evidence, rows, configured, d);
      }
    }
  }

  ghost predicate DecisionsOk(read: Reader, db: Db, ds: seq<Decision>) {
    forall d :: d in ds ==> DecisionOk(read, db, d)
  }

  lemma IssuedWindowIsShort(read: Reader, db: Db, ds: seq<Decision>, proposed: Decision)
    requires DecisionsOk(read, db, ds) && proposed.observed <= db.now
             && proposed.deadline <= proposed.observed + 5 * SECOND
    ensures var deadline := Issue(ds, proposed).0.deadline;
            && (Remaining(db.now, deadline) > 0 <==> db.now + MILLISECOND <= deadline)
            && (Remaining(db.now, deadline) > 0 ==> Reported(db.now, deadline, Remaining(db.now, deadline)))
  {
    var d := Issue(ds, proposed).0;
    FoundIsThere(ds, 0, proposed);
    if d in ds { assert DecisionOk(read, db, d); }
    OpenWindowIsReported(db.now, d.deadline);
  }

  ghost predicate FlightsOk(now: int, ds: seq<Decision>, flights: map<Id, Flight>) {
    forall a :: a in flights ==> FlightOk(now, ds, flights[a], a)
  }

  /** Time passing and decisions being added disturb no flight. */
  lemma FlightsSurvive(now: int, ds: seq<Decision>, flights: map<Id, Flight>, later: int, more: seq<Decision>)
    requires FlightsOk(now, ds, flights) && now <= later
    ensures FlightsOk(later, ds + more, flights)
  {
    forall a | a in flights ensures FlightOk(later, ds + more, flights[a], a) {
      assert FlightOk(now, ds, flights[a], a);
    }
  }

  lemma IssuedIsOk(read: Reader, db: Db, ds: seq<Decision>, flights: map<Id, Flight>, d: Decision)
    requires DecisionsOk(read, db, ds) && FlightsOk(db.now, ds, flights) && DecisionOk(read, db, d)
    ensures var issued := Issue(ds, d).1;
            ds <= issued && DecisionsOk(read, db, issued) && FlightsOk(db.now, issued, flights)
  {
    FlightsSurvive(db.now, ds, flights, db.now, [d]);
  }

  lemma SentIsOk(read: Reader, db: Db, ds: seq<Decision>, f: Flight, a: Id)
    requires DecisionsOk(read, db, ds) && FlightOk(db.now, ds, f, a) && f.admitted
             && MayDispatch(f.ask, db.now + f.skew)
    ensures FlightOk(db.now, ds, f.(sentAt := Some(db.now)), a)
  {
    if f.ask.decision.Some? {
      assert DecisionOk(read, db, f.ask.decision.value);
    }
  }

  lemma OneFlightChanges(now: int, ds: seq<Decision>, flights: map<Id, Flight>, a: Id, f: Flight)
    requires FlightsOk(now, ds, flights) && FlightOk(now, ds, f, a)
    ensures FlightsOk(now, ds, flights[a := f])
  {
  }

  lemma {:induction false} KeysAgree(ds: seq<Decision>, a: Decision, b: Decision)
    requires SameKey(a, b)
    ensures FindKey(ds, a) == FindKey(ds, b)
  {
    if ds != [] { KeysAgree(ds[1..], a, b); }
  }

  /** A repeated observation adds nothing and answers with the decision that was first. */
  lemma IssueAgain(ds: seq<Decision>, grown: seq<Decision>, first: Decision, again: Decision)
    requires ds <= grown && FindKey(ds, first) == Some(first) && SameKey(first, again)
    ensures Issue(grown, again) == (first, grown)
  {
    assert grown == ds + grown[|ds|..];
    LookupIsStable(ds, grown[|ds|..], 0, first);
    KeysAgree(grown, first, again);
  }
}
