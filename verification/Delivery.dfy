/** At-least-once delivery of job notifications: the outbox relay, the stream, and acknowledgement only after
    the job is durably over, with crashes between any two writes and loss of the whole stream. */
module Delivery {
  import opened Types
  import opened Jobs
  import opened JobLaws
  import opened Runs
  import Safety
  import Resumption

  /** What a stream message carries. Message ids are never reused, so an id stands for its payload. */
  datatype Fields = Garbage(tag: Id) | Reference(event: Id, job: Id, trace: Id)

  datatype Row = Row(job: Id, trace: Id, notifiedAt: Option<int>, attempts: nat)

  /** The database with its outbox and delivery tables, and the stream: every message ever sent, those still
      in the stream, and those acknowledged. `lost` records that the stream once dropped messages. */
  datatype World = World(
    db: Db, replayAfter: nat, outbox: map<Id, Row>, receipts: set<Id>, dead: set<Id>,
    sent: map<Id, Fields>, stream: set<Id>, acked: set<Id>, lost: bool)

  predicate Over(db: Db, j: Id) { j in db.jobs && Terminal(db.jobs[j].state) }

  predicate Matches(outbox: map<Id, Row>, f: Fields) {
    f.Reference? && f.event in outbox && outbox[f.event].job == f.job && outbox[f.event].trace == f.trace
  }

  /** A row that was never relayed, or whose unfinished job has been silent for longer than the replay delay. */
  predicate Eligible(w: World, e: Id) {
    && e in w.outbox
    && var row := w.outbox[e];
    row.notifiedAt.None?
      || (row.job in w.db.jobs && !Over(w.db, row.job) && row.notifiedAt.value < w.db.now - w.replayAfter)
  }

  /** The order in which the relay takes rows: never relayed first, then the longest silent, then by id. */
  predicate Earlier(a: Row, x: Id, b: Row, y: Id) {
    if a.notifiedAt.None? then b.notifiedAt.Some? || x < y
    else b.notifiedAt.Some? && (a.notifiedAt.value < b.notifiedAt.value || (a.notifiedAt == b.notifiedAt && x < y))
  }

  ghost predicate Chosen(w: World, e: Id) {
    Eligible(w, e) && forall x :: Eligible(w, x) && x != e ==> Earlier(w.outbox[e], e, w.outbox[x], x)
  }

  /** Work waiting in the outbox is always found: some eligible row precedes all others. */
  lemma {:induction false} ARowIsChosen(w: World, among: set<Id>, e: Id) returns (first: Id)
    requires e in among && forall x :: x in among ==> x in w.outbox && Eligible(w, x)
    ensures first in among && forall x :: x in among && x != first ==> Earlier(w.outbox[first], first, w.outbox[x], x)
    decreases |among|
  {
    first := e;
    if other :| other in among && other != e && !Earlier(w.outbox[e], e, w.outbox[other], other) {
      first := ARowIsChosen(w, among - {e}, other);
      assert first == other || Earlier(w.outbox[first], first, w.outbox[other], other);
    }
  }

  predicate Ended(s: JobState) { s.Committed? || s.Skipped? || s.Failed? || s.OutcomeUnknown? }

  /** A row is relayed at once, and again only while its job is unfinished and longer ago than the replay delay. */
  predicate Due(w: World, e: Id) {
    && e in w.outbox
    && var row := w.outbox[e];
    row.notifiedAt.Some? ==>
      row.job in w.db.jobs && !Ended(w.db.jobs[row.job].state) && row.notifiedAt.value + w.replayAfter < w.db.now
  }

  /** What the relay takes is due, and no due row is passed over: rows never relayed come first, then those relayed
      longest ago, and equals by id. */
  lemma ChosenIsFirstDue(w: World, e: Id)
    requires Chosen(w, e)
    ensures Due(w, e)
    ensures forall x :: Due(w, x) && x != e ==>
              var a, b := w.outbox[e].notifiedAt, w.outbox[x].notifiedAt;
              && (b.None? ==> a.None? && e < x)
              && (b.Some? && a.Some? ==> a.value <= b.value && (a.value == b.value ==> e < x))
  {
    forall x | Due(w, x) && x != e ensures Eligible(w, x) {
    }
  }

  // ----------------------------------------------------------------------- steps

  /** Any service transaction; a job's creation writes its one outbox row in the same transaction. */
  ghost function Serve(w: World, s: Step, event: Id, trace: Id): World {
    w.(db := Apply(w.db, s),
       outbox := if Accepts(w.db, s) && s.OfJob? && s.j.DoCreateJob?
                   then w.outbox[event := Row(s.j.job, trace, None, 0)] else w.outbox)
  }

  /** Event ids are fresh. */
  predicate FreshEvent(w: World, event: Id) {
    event !in w.outbox && forall m :: m in w.sent && w.sent[m].Reference? ==> w.sent[m].event != event
  }

  /** Send, then mark the row in the same transaction, unless the process dies in between. */
  function Relay(w: World, e: Id, m: Id, dies: bool): World
    requires e in w.outbox
  {
    var row := w.outbox[e];
    w.(sent := w.sent[m := Reference(e, row.job, row.trace)], stream := w.stream + {m},
       outbox := if dies then w.outbox
                   else w.outbox[e := row.(notifiedAt := Some(w.db.now), attempts := row.attempts + 1)])
  }

  function Inject(w: World, m: Id, f: Fields): World { w.(sent := w.sent[m := f], stream := w.stream + {m}) }

  function Lose(w: World, kept: set<Id>): World { w.(stream := w.stream * kept, lost := true) }

  datatype Handled = Finished | Pending | Impossible

  /** One delivery: what is recorded, and whether it is acknowledged, if the consumer survives the record. */
  function Process(w: World, m: Id, h: Handled, dies: bool): World
    requires m in w.sent
  {
    var f := w.sent[m];
    if m in w.receipts || m in w.dead then w.(acked := w.acked + {m})
    else if !Matches(w.outbox, f) then w.(dead := w.dead + {m}, acked := if dies then w.acked else w.acked + {m})
    else if h.Pending? || !Over(w.db, f.job) then w
    else if h.Impossible? then w.(dead := w.dead + {m}, acked := if dies then w.acked else w.acked + {m})
    else w.(receipts := w.receipts + {m}, acked := if dies then w.acked else w.acked + {m})
  }

  /** The message names a row of the outbox, with its job and trace. */
  predicate Real(w: World, m: Id)
    requires m in w.sent
  {
    var f := w.sent[m];
    f.Reference? && f.event in w.outbox && w.outbox[f.event].job == f.job && w.outbox[f.event].trace == f.trace
  }

  predicate EndedJob(w: World, m: Id)
    requires m in w.sent
  {
    w.sent[m].Reference? && w.sent[m].job in w.db.jobs && Ended(w.db.jobs[w.sent[m].job].state)
  }

  /** What a delivery leaves behind: a message that was recorded before is only acknowledged; one that names nothing
      real is a dead letter; one of an ended job leaves a receipt if it was handled, and is a dead letter if it cannot
      be; anything else stays as it was. What was recorded is acknowledged, unless the consumer dies in between. */
  lemma HandlingIsRecorded(w: World, m: Id, h: Handled, dies: bool)
    requires m in w.sent
    ensures var after, known := Process(w, m, h, dies), m in w.receipts || m in w.dead;
            var finished := !known && Real(w, m) && EndedJob(w, m) && h.Finished?;
            var hopeless := !known && (!Real(w, m) || (EndedJob(w, m) && h.Impossible?));
            && after == w.(receipts := after.receipts, dead := after.dead, acked := after.acked)
            && after.receipts == (if finished then w.receipts + {m} else w.receipts)
            && after.dead == (if hopeless then w.dead + {m} else w.dead)
            && after.acked == (if known || ((finished || hopeless) && !dies) then w.acked + {m} else w.acked)
  {
  }

  datatype Event =
    | ServeStep(s: Step, event: Id, trace: Id)
    | RelayStep(row: Id, message: Id, dies: bool)
    | InjectStep(message: Id, fields: Fields)
    | ProcessStep(message: Id, handled: Handled, dies: bool)
    | LoseStep(kept: set<Id>)

  ghost predicate Possible(w: World, x: Event) {
    match x
    case ServeStep(_, event, _) => FreshEvent(w, event)
    case RelayStep(e, m, _) => Chosen(w, e) && m !in w.sent
    case InjectStep(m, _) => m !in w.sent
    case ProcessStep(m, _, _) => m in w.sent
    case LoseStep(_) => true
  }

  ghost function Next(w: World, x: Event): World {
    if !Possible(w, x) then w else
    match x
    case ServeStep(s, event, trace) => Serve(w, s, event, trace)
    case RelayStep(e, m, dies) => Relay(w, e, m, dies)
    case InjectStep(m, f) => Inject(w, m, f)
    case ProcessStep(m, h, dies) => Process(w, m, h, dies)
    case LoseStep(kept) => Lose(w, kept)
  }

  ghost function Later(w: World, xs: seq<Event>): World
    decreases |xs|
  {
    if xs == [] then w else Later(Next(w, xs[0]), xs[1..])
  }

  // ------------------------------------------------------------------- invariant

  predicate Names(w: World, m: Id, e: Id) {
    m in w.sent && e in w.outbox && w.sent[m] == Reference(e, w.outbox[e].job, w.outbox[e].trace)
  }

  ghost predicate RowOk(w: World, e: Id)
    requires e in w.outbox
  {
    && w.outbox[e].job in w.db.jobs
    && (w.outbox[e].notifiedAt.Some? ==> exists m :: Names(w, m, e))
  }

  /** What was recorded as handled or dead is no longer work. */
  predicate RecordOk(w: World, m: Id) {
    m in w.sent && (Matches(w.outbox, w.sent[m]) ==> Over(w.db, w.sent[m].job))
  }

  predicate HasRow(w: World, j: Id) { exists e :: e in w.outbox && w.outbox[e].job == j }

  ghost predicate Tables(w: World) {
    && (forall j :: j in w.db.jobs ==> HasRow(w, j))
    && (forall e :: e in w.outbox ==> RowOk(w, e))
    && (forall m :: m in w.receipts + w.dead ==> RecordOk(w, m))
    && w.acked <= w.receipts + w.dead
    && w.stream <= w.sent.Keys && (!w.lost ==> w.stream == w.sent.Keys)
  }

  ghost predicate Valid(w: World) { Sound(w.db) && Tables(w) }

  predicate Empty(w: World) {
    Safety.Initial(w.db) && w.outbox == map[] && w.receipts == {} && w.dead == {} && w.sent == map[] && w.stream == {}
      && w.acked == {} && !w.lost
  }

  lemma EmptyIsValid(w: World)
    requires Empty(w)
    ensures Valid(w)
  {
    Safety.InitialIsSound(w.db);
  }

  /** Only creation adds a job. */
  lemma JobsComeFromCreation(db: Db, s: Step, j: Id)
    requires j in Apply(db, s).jobs && j !in db.jobs
    ensures Accepts(db, s) && s.OfJob? && s.j.DoCreateJob? && s.j.job == j
  {
    match s
    case OfWorker(x) => if AcceptsWorker(db, x) { Resumption.WorkerAddsNoJob(db, x); }
    case OfJob(x) => if AcceptsJob(db, x) { OnlyCreationAdds(db, x, j); }
    case OfMoney(x) => if AcceptsMoney(db, x) { Safety.MoneyKeepsJobs(db, x); }
    case OfRun(x) => if AcceptsRun(db, x) { Safety.RunStepKeepsJobs(db, x); }
  }

  lemma OnlyCreationAdds(db: Db, x: JobStep, j: Id)
    requires AcceptsJob(db, x) && j in ApplyJob(db, x).jobs && j !in db.jobs
    ensures x.DoCreateJob? && x.job == j
  {
  }

  lemma CreationAddsItsJob(db: Db, s: Step)
    requires Accepts(db, s) && s.OfJob? && s.j.DoCreateJob?
    ensures s.j.job in Apply(db, s).jobs
  {
  }

  lemma OverStaysOver(db: Db, s: Step, j: Id)
    requires Sound(db) && j in db.jobs
    ensures j in Apply(db, s).jobs && (Over(db, j) ==> Over(Apply(db, s), j))
  {
    StepKeeps(db, s);
    assert JobEvolves(db.jobs[j], Apply(db, s).jobs[j]);
  }

  /** Which jobs there are, and which are over, after a service step. */
  ghost predicate JobsMove(db: Db, after: Db) {
    forall j :: j in db.jobs ==> j in after.jobs && (Over(db, j) ==> Over(after, j))
  }

  lemma StepMovesJobs(db: Db, s: Step)
    requires Sound(db)
    ensures JobsMove(db, Apply(db, s))
    ensures forall j ::
              j in Apply(db, s).jobs && j !in db.jobs ==> Accepts(db, s) && s.OfJob? && s.j.DoCreateJob? && s.j.job == j
  {
    forall j | j in db.jobs ensures j in Apply(db, s).jobs && (Over(db, j) ==> Over(Apply(db, s), j)) {
      OverStaysOver(db, s, j);
    }
    forall j | j in Apply(db, s).jobs && j !in db.jobs
      ensures Accepts(db, s) && s.OfJob? && s.j.DoCreateJob? && s.j.job == j
    {
      JobsComeFromCreation(db, s, j);
    }
  }

  lemma ServeTables(w: World, s: Step, event: Id, trace: Id)
    requires Tables(w) && FreshEvent(w, event) && JobsMove(w.db, Apply(w.db, s))
    requires forall j ::
               j in Apply(w.db, s).jobs && j !in w.db.jobs ==>
                 Accepts(w.db, s) && s.OfJob? && s.j.DoCreateJob? && s.j.job == j
    ensures Tables(Serve(w, s, event, trace))
  {
    if Accepts(w.db, s) && s.OfJob? && s.j.DoCreateJob? {
      CreationAddsItsJob(w.db, s);
      TablesAfterCreation(w, Serve(w, s, event, trace), event, s.j.job);
    } else {
      SameTables(w, Serve(w, s, event, trace));
    }
  }

  lemma ServeKeeps(w: World, s: Step, event: Id, trace: Id)
    requires Valid(w) && FreshEvent(w, event)
    ensures Valid(Serve(w, s, event, trace))
  {
    StepKeeps(w.db, s);
    StepMovesJobs(w.db, s);
    ServeTables(w, s, event, trace);
  }

  lemma TablesAfterCreation(w: World, next: World, event: Id, job: Id)
    requires Tables(w) && FreshEvent(w, event) && job in next.db.jobs
    requires JobsMove(w.db, next.db) && forall j :: j in next.db.jobs ==> j in w.db.jobs || j == job
    requires event in next.outbox && next.outbox == w.outbox[event := next.outbox[event]]
             && next.outbox[event].job == job && next.outbox[event].notifiedAt.None?
    requires next == w.(db := next.db, outbox := next.outbox)
    ensures Tables(next)
  {
    forall j | j in next.db.jobs ensures HasRow(next, j) {
      if j in w.db.jobs {
        assert HasRow(w, j);
        var e :| e in w.outbox && w.outbox[e].job == j;
        assert next.outbox[e].job == j;
      } else {
        assert next.outbox[event].job == j;
      }
    }
    forall e | e in next.outbox ensures RowOk(next, e) {
      if e != event {
        assert RowOk(w, e);
        if m :| Names(w, m, e) { assert Names(next, m, e); }
      }
    }
    forall m | m in next.receipts + next.dead ensures RecordOk(next, m) {
      assert RecordOk(w, m);
    }
  }

  /** Tables that keep their rows and records stay in order while the database moves on. */
  lemma SameTables(w: World, next: World)
    requires Tables(w) && next.outbox == w.outbox && next.receipts == w.receipts && next.dead == w.dead
    requires JobsMove(w.db, next.db) && forall j :: j in next.db.jobs ==> j in w.db.jobs
    requires forall m :: m in w.sent ==> m in next.sent && next.sent[m] == w.sent[m]
    requires next.acked <= next.receipts + next.dead && next.stream <= next.sent.Keys
             && (!next.lost ==> next.stream == next.sent.Keys)
    ensures Tables(next)
  {
    forall j | j in next.db.jobs ensures HasRow(next, j) {
      assert HasRow(w, j);
    }
    forall e | e in next.outbox ensures RowOk(next, e) {
      assert RowOk(w, e);
      if m :| Names(w, m, e) { assert Names(next, m, e); }
    }
    forall m | m in next.receipts + next.dead ensures RecordOk(next, m) {
      assert RecordOk(w, m);
    }
  }

  lemma RelayKeeps(w: World, e: Id, m: Id, dies: bool)
    requires Tables(w) && Eligible(w, e) && m !in w.sent
    ensures Tables(Relay(w, e, m, dies))
  {
    var next := Relay(w, e, m, dies);
    forall j | j in next.db.jobs ensures HasRow(next, j) {
      assert HasRow(w, j);
      var x :| x in w.outbox && w.outbox[x].job == j;
      assert next.outbox[x].job == j;
    }
    forall x | x in next.outbox ensures RowOk(next, x) {
      assert RowOk(w, x);
      if x == e {
        assert Names(next, m, e);
      } else if k :| Names(w, k, x) {
        assert Names(next, k, x);
      }
    }
    forall k | k in next.receipts + next.dead ensures RecordOk(next, k) {
      assert RecordOk(w, k);
    }
  }

  lemma RecordsGrow(w: World, next: World, m: Id)
    requires Tables(w) && RecordOk(w, m)
    requires next == w.(receipts := next.receipts, dead := next.dead, acked := next.acked)
    requires w.receipts <= next.receipts <= w.receipts + {m} && w.dead <= next.dead <= w.dead + {m}
             && next.acked <= w.acked + {m}
    requires m in next.acked ==> m in next.receipts + next.dead
    ensures Tables(next)
  {
    forall k | k in next.receipts + next.dead ensures RecordOk(next, k) {
      if k != m { assert RecordOk(w, k); }
    }
    forall j | j in next.db.jobs ensures HasRow(next, j) {
      assert HasRow(w, j);
    }
    forall e | e in next.outbox ensures RowOk(next, e) {
      assert RowOk(w, e);
      if k :| Names(w, k, e) { assert Names(next, k, e); }
    }
  }

  lemma ProcessKeeps(w: World, m: Id, h: Handled, dies: bool)
    requires Tables(w) && m in w.sent
    ensures Tables(Process(w, m, h, dies))
  {
    var next := Process(w, m, h, dies);
    if m in w.receipts || m in w.dead {
      assert RecordOk(w, m);
      RecordsGrow(w, next, m);
    } else if next != w {
      RecordsGrow(w, next, m);
    }
  }

  lemma OtherStepKeeps(w: World, x: Event)
    requires Tables(w) && Possible(w, x) && !x.ServeStep?
    ensures Tables(Next(w, x)) && Next(w, x).db == w.db
  {
    match x
    case RelayStep(e, m, dies) => RelayKeeps(w, e, m, dies);
    case InjectStep(m, f) => SameTables(w, Inject(w, m, f));
    case ProcessStep(m, h, dies) => ProcessKeeps(w, m, h, dies);
    case LoseStep(kept) => SameTables(w, Lose(w, kept));
  }

  lemma NextKeeps(w: World, x: Event)
    requires Valid(w)
    ensures Valid(Next(w, x))
  {
    if Possible(w, x) {
      if x.ServeStep? {
        ServeKeeps(w, x.s, x.event, x.trace);
      } else {
        OtherStepKeeps(w, x);
      }
    }
  }

  lemma {:induction false} LaterKeeps(w: World, xs: seq<Event>)
    requires Valid(w)
    ensures Valid(Later(w, xs))
    decreases |xs|
  {
    if xs != [] {
      NextKeeps(w, xs[0]);
      LaterKeeps(Next(w, xs[0]), xs[1..]);
    }
  }

  // ---------------------------------------------------------------- main results

  /** An acknowledged message is work that is over: its job has ended, now and in every later state,
      or it never named a job of this outbox. */
  lemma AcknowledgedMeansOver(start: World, xs: seq<Event>, m: Id, steps: seq<Step>)
    requires Empty(start)
    requires var w := Later(start, xs); m in w.acked && m in w.sent && Matches(w.outbox, w.sent[m])
    ensures var w := Later(start, xs); Over(w.db, w.sent[m].job) && Over(After(w.db, steps), w.sent[m].job)
  {
    EmptyIsValid(start);
    LaterKeeps(start, xs);
    var w := Later(start, xs);
    assert RecordOk(w, m);
    Safety.FinishedForever(w.db, steps, w.sent[m].job);
  }

  lemma NamesUnfinished(w: World, m: Id, e: Id)
    requires Tables(w) && Names(w, m, e) && !Over(w.db, w.outbox[e].job)
    ensures m !in w.acked
  {
    assert !RecordOk(w, m);
  }

  lemma UnfinishedJobIsQueued(w: World, j: Id) returns (e: Id)
    requires Tables(w) && j in w.db.jobs && !Over(w.db, j)
    ensures e in w.outbox && w.outbox[e].job == j
    ensures Eligible(w, e) || ((exists m :: Names(w, m, e)) && w.db.now <= w.outbox[e].notifiedAt.value + w.replayAfter)
    ensures forall m :: Names(w, m, e) ==> m !in w.acked && (!w.lost ==> m in w.stream)
  {
    assert HasRow(w, j);
    e :| e in w.outbox && w.outbox[e].job == j;
    assert RowOk(w, e);
    forall m | Names(w, m, e) ensures m !in w.acked {
      NamesUnfinished(w, m, e);
    }
  }

  /** No unfinished job is forgotten: its row waits to be relayed, or was relayed and none of its messages is
      acknowledged; short of stream loss they are all still in the stream, and after the replay delay the row
      is eligible again whatever became of them. */
  lemma NoJobIsForgotten(start: World, xs: seq<Event>, j: Id) returns (e: Id)
    requires Empty(start)
    requires var w := Later(start, xs); j in w.db.jobs && !Over(w.db, j)
    ensures var w := Later(start, xs);
            && e in w.outbox && w.outbox[e].job == j
            && (Eligible(w, e)
                || ((exists m :: Names(w, m, e)) && w.db.now <= w.outbox[e].notifiedAt.value + w.replayAfter))
            && (forall m :: Names(w, m, e) ==> m !in w.acked && (!w.lost ==> m in w.stream))
  {
    EmptyIsValid(start);
    LaterKeeps(start, xs);
    e := UnfinishedJobIsQueued(Later(start, xs), j);
  }

  // ------------------------------------------------------------------- the relay

  /** The message names an outbox row that is marked as relayed at this instant. */
  predicate Marked(w: World, m: Id) {
    m in w.sent && m in w.stream && Matches(w.outbox, w.sent[m])
      && w.outbox[w.sent[m].event].notifiedAt == Some(w.db.now)
  }

  lemma RelayMarks(w: World, e: Id, m: Id, earlier: seq<Id>)
    requires e in w.outbox && m !in w.sent && forall x :: x in earlier ==> Marked(w, x)
    ensures Marked(Relay(w, e, m, false), m) && forall x :: x in earlier ==> Marked(Relay(w, e, m, false), x)
  {
  }

  lemma RelayMarksOrStays(w: World, e: Id, m: Id, earlier: seq<Id>, stays: bool)
    requires (!stays ==> e in w.outbox) && m !in w.sent && forall x :: x in earlier ==> Marked(w, x)
    ensures forall x :: x in earlier ==> Marked(if stays then w else Relay(w, e, m, true), x)
  {
  }

  /** The delivery service over its two stores. A send that fails leaves everything as it was; a process that
      dies between its writes leaves the first of them. */
  class Courier {
    const replayAfter: nat
    const batchSize: nat
    var db: Db
    var outbox: map<Id, Row>
    var receipts: set<Id>
    var dead: set<Id>
    var sent: map<Id, Fields>
    var stream: set<Id>
    var acked: set<Id>
    var lost: bool

    constructor (w: World, batchSize: nat)
      ensures State() == w && this.batchSize == batchSize
    {
      this.replayAfter, this.batchSize := w.replayAfter, batchSize;
      db, outbox, receipts, dead := w.db, w.outbox, w.receipts, w.dead;
      sent, stream, acked, lost := w.sent, w.stream, w.acked, w.lost;
    }

    function State(): World
      reads this
    {
      World(db, replayAfter, outbox, receipts, dead, sent, stream, acked, lost)
    }

    /** Relay the first eligible row, if there is one. A send that fails leaves everything as it was; a death after the
        send leaves a message whose row is not marked. */
    method RelayOne(message: Id, sendFails: bool, dies: bool) returns (did: bool, failed: bool, ghost e: Id)
      requires message !in sent
      modifies this
      ensures did ==> Chosen(old(State()), e) && State() == Relay(old(State()), e, message, false)
      ensures failed && !sendFails ==> Chosen(old(State()), e) && State() == Relay(old(State()), e, message, true)
      ensures !did && (failed ==> sendFails) ==> State() == old(State())
      ensures failed <==> (exists x :: Eligible(old(State()), x)) && (sendFails || dies)
      ensures did <==> (exists x :: Eligible(old(State()), x)) && !sendFails && !dies
    {
      e := 0;
      var waiting := set x | x in outbox && Eligible(State(), x);
      assert forall x :: Eligible(State(), x) ==> x in waiting;
      if waiting == {} { return false, false, e; }
      ghost var some :| some in waiting;
      ghost var first := ARowIsChosen(State(), waiting, some);
      var row :| row in waiting && forall x :: x in waiting && x != row ==> Earlier(outbox[row], row, outbox[x], x);
      e := row;
      if sendFails { return false, true, e; }
      var body := outbox[row];
      sent, stream := sent[message := Reference(row, body.job, body.trace)], stream + {message};
      if dies { return false, true, e; }
      outbox := outbox[row := body.(notifiedAt := Some(db.now), attempts := body.attempts + 1)];
      return true, false, e;
    }

    function Named(messages: seq<Id>): set<Id> { set m | m in messages }

    /** One poll of the relay: it stops at a failure, when the batch is full, or when no row is left to relay. Every
        message it counts is recorded on its row; a death may leave one more message behind. */
    method RelayOnce(messages: seq<Id>, sendFails: nat -> bool, dies: nat -> bool) returns (count: nat, failed: bool)
      requires |messages| == batchSize && (forall i :: 0 <= i < |messages| ==> messages[i] !in sent)
      requires forall i, k :: 0 <= i < k < |messages| ==> messages[i] != messages[k]
      modifies this
      ensures count <= batchSize && State() == old(State()).(outbox := outbox, sent := sent, stream := stream)
              && outbox.Keys == old(outbox).Keys
      ensures failed ==> count < batchSize && (sendFails(count) || dies(count))
      ensures !failed && count < batchSize ==> !exists x :: Eligible(State(), x)
      ensures sent.Keys == old(sent).Keys + Named(messages[..if failed && !sendFails(count) then count + 1 else count])
      ensures forall m :: m in messages[..count] ==> Marked(State(), m)
    {
      count := 0;
      while count < batchSize
        invariant count <= batchSize && State() == old(State()).(outbox := outbox, sent := sent, stream := stream)
                  && outbox.Keys == old(outbox).Keys
        invariant sent.Keys == old(sent).Keys + Named(messages[..count])
        invariant forall m :: m in messages[..count] ==> Marked(State(), m)
      {
        assert messages[..count + 1] == messages[..count] + [messages[count]];
        ghost var before := State();
        var did, stopped, e := RelayOne(messages[count], sendFails(count), dies(count));
        if stopped {
          RelayMarksOrStays(before, e, messages[count], messages[..count], sendFails(count));
          return count, true;
        }
        if !did { return count, false; }
        RelayMarks(before, e, messages[count], messages[..count]);
        count := count + 1;
      }
      return count, false;
    }

    /** Handle one delivered message; it is acknowledged only behind a durable record. */
    method ProcessMessage(m: Id, h: Handled, dies: bool) returns (ok: bool)
      requires m in sent
      modifies this
      ensures State() == Process(old(State()), m, h, dies)
      ensures ok <==> m in acked
    {
      if m in receipts || m in dead {
        acked := acked + {m};
        return true;
      }
      var f := sent[m];
      if !Matches(outbox, f) {
        dead := dead + {m};
      } else if h.Pending? {
        return m in acked;
      } else {
        if f.job !in db.jobs || !Terminal(db.jobs[f.job].state) { return m in acked; }
        if h.Impossible? { dead := dead + {m}; } else { receipts := receipts + {m}; }
      }
      if dies { return m in acked; }
      acked := acked + {m};
      return true;
    }
  }
}
