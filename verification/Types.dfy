/** The database rows that the service's transactions read and write, and the values they carry. */
module Types {
  datatype Option<+T> = None | Some(value: T)

  /** Identifiers (UUIDs, tokens, digests) are only ever compared for equality. */
  type Id = nat

  const SECOND: int := 1_000_000_000
  const MILLISECOND: int := 1_000_000
  const YUAN: nat := 100_000_000

  newtype int64 = x: int | -0x8000_0000_0000_0000 <= x < 0x8000_0000_0000_0000

  datatype Experiment = M1 | M2 | M3
  datatype Provider = Deepseek | Mock
  datatype Stage = Answer | Extraction | Mapping | Probe | Other

  // ------------------------------------------------------------ settlement record

  datatype Tokens = Tokens(input: int64, output: int64, total: int64, hit: int64, miss: int64)

  datatype UsageJson =
    | UsageAbsent
    | UsageNull
    | UsageMalformed
    | Usage(input: Option<int64>, output: Option<int64>, total: Option<int64>, hit: Option<int64>, miss: Option<int64>)

  /** The text of a recorded amount. The literal "0" is told apart because one check compares text. */
  datatype AmountText = LiteralZero | Number(units: int) | Malformed

  function AmountUnits(a: AmountText): Option<int> {
    match a
    case LiteralZero => Some(0)
    case Number(units) => Some(units)
    case Malformed => None
  }

  datatype CostStatus = Estimated | NotDispatched | StatusUnknown | OtherStatus
  datatype Transport = NoFailure | SnapshotStale | CacheWindowExpired | ReleaseGate | OtherFailure

  /** `choices` lists the message contents of the provider's reply; None is a null content. */
  datatype ResponseJson =
    | ResponseAbsent
    | ResponseNull
    | ResponseMalformed
    | Response(id: Option<Id>, modelMatches: bool, usage: UsageJson, choices: seq<Option<string>>)

  /** One call record as reported by the runtime; None stands for an absent, null or empty field. */
  datatype Record = Record(
    status: CostStatus, amount: Option<AmountText>, cny: bool, costReason: Transport,
    rawUsage: UsageJson, response: ResponseJson, transport: Transport, dispatched: Option<bool>,
    started: Option<int>, finished: Option<int>,
    attempt: Option<Id>, run: Option<Id>, stage: Option<Stage>, deepseekFlash: bool,
    requestId: Option<Id>, completionId: Option<Id>,
    wire: Option<Id>, wireSha: Id, payloadSha: Id,
    httpStatus: int, dispatchAt: Option<int>, dispatchMonotonic: Option<int>,
    retries: Option<int>, simulated: Option<bool>,
    snapshot: Option<Id>, claimedUpper: Option<int>)

  function BlankRecord(): Record {
    Record(OtherStatus, None, false, NoFailure, UsageAbsent, ResponseAbsent, NoFailure, None, None, None,
           None, None, None, false, None, None, None, 0, 0, 0, None, None, None, None, None, None)
  }

  // --------------------------------------------------------------- run contracts

  datatype PolicyVersion = PolicyV1 | PolicyV2 | PolicyUnsupported
  datatype Subexperiment = NoSubexperiment | CacheProtocol | Quality | Sequence | OtherSubexperiment

  /** The immutable execution contract of a run. `m2`/`m3` say which tool set and experiment
      it selects; optional fields are the limits its configuration may narrow. */
  datatype Contract = Contract(
    m2: bool, m3: bool, policy: PolicyVersion, sub: Subexperiment, diagnostic: bool, durable: bool,
    historical: bool, hotOnly: bool, cny: bool,
    costBudget: int, maxModelCalls: nat, maxOutputTokens: nat,
    maxForeground: Option<real>, maxBackground: Option<real>,
    backgroundCost: Option<int>, probeCost: Option<int>,
    probeEnabled: bool, probeCallsZero: bool,
    releaseSession: Option<Id>, revalidates: Option<Id>)

  datatype RunState = Queued | RunRunning | Completed | RunFailed | Cancelled | TimedOut | Interrupted

  datatype Run = Run(contract: Contract, provider: Provider, state: RunState, deadline: int,
                     cancelRequested: bool, owner: Option<Id>)

  // ---------------------------------------------------------------------- ledger

  datatype CallState = Reserved | Settled | Unknown

  /** The frozen request body: its length, its output limit and its canonical content. */
  datatype Payload = Payload(bytes: nat, maxTokens: int, content: Id)

  datatype Call = Call(
    attempt: Id, run: Id, provider: Provider, experiment: Experiment, stage: Stage, state: CallState,
    upper: nat, amount: Option<nat>, payload: Payload, snapshot: Id,
    job: Option<Id>, batch: Option<Id>, sub: Subexperiment, session: Option<Id>, prefix: Option<Id>,
    record: Option<Record>, receivedAt: Option<int>, owner: Option<Id>)

  datatype Halt = CostUnknown | CostExceededReservation | OwnerLoss

  datatype Budget = Budget(cap: nat, maxRequests: nat, known: int, reserved: int, attempted: int, halted: Option<Halt>)

  /** One budget row per experiment. */
  datatype Budgets = Budgets(m1: Budget, m2: Budget, m3: Budget) {
    function Get(e: Experiment): Budget {
      match e case M1 => m1 case M2 => m2 case M3 => m3
    }
    function Set(e: Experiment, b: Budget): Budgets {
      match e case M1 => this.(m1 := b) case M2 => this.(m2 := b) case M3 => this.(m3 := b)
    }
  }

  datatype EvidenceKind = LateUsage | NeverDispatched

  /** An applied reconciliation: the exact evidence that settled an UNKNOWN attempt. */
  datatype Audit = Audit(kind: EvidenceKind, evidence: Record, amount: nat)

  /** A registered live session; all sessions share one opening balance. */
  datatype Session = Session(cap: nat, maxRequests: nat)

  // ------------------------------------------------------------------------ jobs

  datatype JobState = WaitingPrefix | Running | ResultReady | Committed | Skipped | Failed | OutcomeUnknown

  datatype JobReason = NoReason | AwaitingRecovery | OtherReason

  datatype Job = Job(
    run: Id, key: Id, identity: Id, batch: Id, prefix: Id, state: JobState, owner: Option<Id>, leaseUntil: Option<int>,
    instance: Option<Id>,
    token: nat, attempt: nat, deadline: int, cancelled: bool, digest: Option<Id>, reason: JobReason)

  datatype BatchState = Created | BatchReady | Validated | BatchCommitted | Inconclusive | Rejected

  datatype Batch = Batch(
    run: Id, job: Option<Id>, state: BatchState, raw: Option<Id>, digest: Option<Id>, latest: Option<Id>,
    probeToken: Option<Id>, rounds: nat, models: nat, tools: nat, deadline: int)

  datatype Instance = Instance(stopped: bool, leaseUntil: int)

  /** The whole database. `calls` is the call table in insertion order; `now` is the database clock;
      `recovery` is the server's recovery switch. */
  datatype Db = Db(
    now: int, recovery: bool,
    runs: map<Id, Run>, jobs: map<Id, Job>, batches: map<Id, Batch>, instances: map<Id, Instance>,
    calls: seq<Call>, budgets: Budgets, audits: map<Id, Audit>,
    sessions: map<Id, Session>, opening: nat)
}
