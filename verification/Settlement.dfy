/** Settlement and late reconciliation as whole transactions: what each reply means, what a replay
    does, and which evidence can still resolve an unknown call. */
module Settlement {
  import opened Types
  import opened Tariff
  import opened Table
  import opened Ledger
  import opened LedgerLaws

  datatype ReconcileReply = Refused | Replayed | Previewed(amount: nat) | Applied(amount: nat)

  /** The operator's reconciliation of one M3 attempt; without `apply` it only previews. */
  function Reconcile(db: Db, attempt: Id, kind: EvidenceKind, e: Record, apply: bool): (ReconcileReply, Db) {
    match Find(db.calls, attempt)
    case None => (Refused, db)
    case Some(i) =>
      FindMeans(db.calls, attempt);
      var c := db.calls[i];
      if !Paid(c) || !c.experiment.M3? then (Refused, db)
      else if attempt in db.audits then
        (if db.audits[attempt].evidence == e && db.audits[attempt].kind == kind && c.state.Settled? then Replayed
           else Refused,
         db)
      else if !c.state.Unknown? then (Refused, db)
      else match EvidenceAmount(db, c, kind, e)
        case None => (Refused, db)
        case Some(amount) =>
          if db.budgets.m3.reserved < c.upper then (Refused, db)
          else if apply then (Applied(amount), Resolve(db, i, kind, e, amount))
          else (Previewed(amount), db)
  }

  datatype SettleReply = Accepted | NotFound | Conflict | AmountRejected | EvidenceRejected

  /** A settlement for a call already given up as unknown, or already reconciled, is late evidence. */
  predicate Late(db: Db, c: Call, r: Record) {
    && Paid(c) && c.experiment.M3? && (c.state.Unknown? || c.attempt in db.audits)
    && !(c.state.Unknown? && r.status.StatusUnknown? && c.record == Some(r))
  }

  function KindOf(r: Record): EvidenceKind { if ProvesNotDispatched(r, M3) then NeverDispatched else LateUsage }

  /** The runtime's settlement of one of its run's attempts. */
  function Settle(db: Db, run: Id, attempt: Id, r: Record): (SettleReply, Db) {
    match Find(db.calls, attempt)
    case None => (NotFound, db)
    case Some(i) =>
      FindMeans(db.calls, attempt);
      var c := db.calls[i];
      if c.run != run then (NotFound, db)
      else if Late(db, c, r) then
        var (reply, after) := Reconcile(db, attempt, KindOf(r), r, true);
        if reply.Refused? then (EvidenceRejected, db) else (Accepted, after)
      else if !c.state.Reserved? then (if c.record == Some(r) then Accepted else Conflict, db)
      else if Judge(db, c, r).AmountInvalid? then (AmountRejected, db)
      else (Accepted, Price(db, i, r))
  }

  // ------------------------------------------------------------------ invariants

  /** Every audit is late usage that priced its attempt; nothing else ever resolved an unknown call. */
  predicate AuditOk(db: Db, attempt: Id)
    requires attempt in db.audits
  {
    match Find(db.calls, attempt)
    case None => false
    case Some(i) =>
      FindMeans(db.calls, attempt);
      var c, audit := db.calls[i], db.audits[attempt];
      && Paid(c) && c.experiment.M3? && c.state.Settled? && c.amount == Some(audit.amount) && audit.kind.LateUsage?
      && LimitOfCall(db, c).Some? && VerifiedCost(audit.evidence, LimitOfCall(db, c).value) == Some(audit.amount)
      && (c.record.Some? ==> Unpriceable(db, c, c.record.value)) && c.receivedAt.None?
  }

  ghost predicate AuditsOk(db: Db) {
    forall a :: a in db.audits ==> AuditOk(db, a)
  }

  /** How one row may change: settled rows are frozen, an unknown row can only be settled and never gains a receipt. */
  predicate Evolves(c: Call, d: Call) {
    && SameCall(c, d)
    && (c.state.Settled? ==> d == c)
    && (c.state.Unknown? ==> d.receivedAt.None? && d.record == c.record && !d.state.Reserved?)
  }

  /** No call is ever removed, and each only moves forward. */
  ghost predicate CallsEvolve(s: seq<Call>, t: seq<Call>) {
    |s| <= |t| && forall i :: 0 <= i < |s| ==> Evolves(s[i], t[i])
  }

  lemma {:induction false} FindIsPositional(s: seq<Call>, t: seq<Call>, attempt: Id)
    requires |s| == |t| && forall i :: 0 <= i < |s| ==> t[i].attempt == s[i].attempt
    ensures Find(t, attempt) == Find(s, attempt)
  {
    if s != [] {
      FindIsPositional(s[..|s| - 1], t[..|t| - 1], attempt);
    }
  }

  /** Audits survive any step that keeps the settled rows and the runs' contracts. */
  lemma AuditsSurvive(db: Db, after: Db, a: Id)
    requires a in db.audits && AuditOk(db, a) && a in after.audits && after.audits[a] == db.audits[a]
    requires |after.calls| == |db.calls| && CallsEvolve(db.calls, after.calls) && after.runs == db.runs
    ensures AuditOk(after, a)
  {
    FindIsPositional(db.calls, after.calls, a);
    var i := Find(db.calls, a).value;
    FindMeans(db.calls, a);
    assert Evolves(db.calls[i], after.calls[i]);
  }

  lemma PriceEvolves(db: Db, i: nat, r: Record)
    requires RowsOk(db) && i < |db.calls| && db.calls[i].state.Reserved?
    ensures CallsEvolve(db.calls, Price(db, i, r).calls)
  {
    forall j | 0 <= j < |db.calls| ensures Evolves(db.calls[j], Price(db, i, r).calls[j]) {
      assert RowOk(db, db.calls[j]);
    }
  }

  lemma ResolveEvolves(db: Db, i: nat, kind: EvidenceKind, e: Record, amount: nat)
    requires RowsOk(db) && OpenM3(db, i)
    ensures CallsEvolve(db.calls, Resolve(db, i, kind, e, amount).calls)
  {
    assert RowOk(db, db.calls[i]);
  }

  lemma ResolveAtZeroEvolves(db: Db, i: nat)
    requires RowsOk(db) && i < |db.calls| && ZeroChargeApplies(db, i)
    ensures CallsEvolve(db.calls, ResolveAtZero(db, i).calls)
  {
    assert RowOk(db, db.calls[i]);
  }

  lemma MarkLostEvolves(db: Db, lost: Call -> bool, scope: Call -> bool)
    requires RowsOk(db)
    ensures CallsEvolve(db.calls, MarkLost(db, lost, scope).calls)
  {
    forall i | 0 <= i < |db.calls| ensures Evolves(db.calls[i], MarkLost(db, lost, scope).calls[i]) {
      assert RowOk(db, db.calls[i]);
    }
  }

  // ----------------------------------------------------------------- main results

  /** A later claim that a call was never dispatched cannot resolve it: a record that proves as much
      settles the call at once, so no unknown row carries one. */
  lemma NonDispatchNeverResolves(db: Db, attempt: Id, e: Record, apply: bool)
    requires LedgerInv(db) && AuditsOk(db)
    ensures Reconcile(db, attempt, NeverDispatched, e, apply) == (Refused, db)
  {
    FindMeans(db.calls, attempt);
    if attempt in db.audits {
      assert AuditOk(db, attempt);
    }
    if Find(db.calls, attempt).Some? {
      assert RowOk(db, db.calls[Find(db.calls, attempt).value]);
    }
  }

  /** The reserve always covers the call being resolved, so evidence decides alone. */
  lemma ReserveCoversOpenCalls(db: Db, i: nat)
    requires LedgerInv(db) && OpenM3(db, i)
    ensures db.budgets.m3.reserved >= db.calls[i].upper
  {
    assert Conserved(db, M3);
    RowWithinTotal(db.calls, i, HeldOf(M3));
  }

  lemma EvidenceDecides(db: Db, i: nat, kind: EvidenceKind, e: Record, apply: bool)
    requires LedgerInv(db) && AuditsOk(db) && i < |db.calls|
    requires Paid(db.calls[i]) && db.calls[i].experiment.M3? && db.calls[i].attempt !in db.audits
    ensures !Reconcile(db, db.calls[i].attempt, kind, e, apply).0.Refused?
            <==> db.calls[i].state.Unknown? && EvidenceAmount(db, db.calls[i], kind, e).Some?
  {
    FindMeans(db.calls, db.calls[i].attempt);
    if db.calls[i].state.Unknown? {
      ReserveCoversOpenCalls(db, i);
    }
  }

  lemma AppliedMeans(db: Db, attempt: Id, kind: EvidenceKind, e: Record, apply: bool) returns (i: nat)
    requires Reconcile(db, attempt, kind, e, apply).0.Applied?
    ensures var (reply, after) := Reconcile(db, attempt, kind, e, apply);
            && Find(db.calls, attempt) == Some(i) && OpenM3(db, i) && db.calls[i].attempt == attempt
            && attempt !in db.audits
            && EvidenceAmount(db, db.calls[i], kind, e) == Some(reply.amount)
            && after == Resolve(db, i, kind, e, reply.amount)
  {
    FindMeans(db.calls, attempt);
    i := Find(db.calls, attempt).value;
  }

  lemma ReconcileKeepsLedger(db: Db, attempt: Id, kind: EvidenceKind, e: Record, apply: bool)
    requires LedgerInv(db)
    ensures LedgerInv(Reconcile(db, attempt, kind, e, apply).1)
  {
    if Reconcile(db, attempt, kind, e, apply).0.Applied? {
      var i := AppliedMeans(db, attempt, kind, e, apply);
      ResolveKeeps(db, i, kind, e, Reconcile(db, attempt, kind, e, apply).0.amount);
    }
  }

  lemma ReconcileEvolves(db: Db, attempt: Id, kind: EvidenceKind, e: Record, apply: bool)
    requires RowsOk(db)
    ensures var after := Reconcile(db, attempt, kind, e, apply).1;
            CallsEvolve(db.calls, after.calls) && SameLimits(db, after)
  {
    NothingEvolves(db);
    if Reconcile(db, attempt, kind, e, apply).0.Applied? {
      var i := AppliedMeans(db, attempt, kind, e, apply);
      ResolveEvolves(db, i, kind, e, Reconcile(db, attempt, kind, e, apply).0.amount);
    }
  }

  lemma ReconcileKeeps(db: Db, attempt: Id, kind: EvidenceKind, e: Record, apply: bool)
    requires LedgerInv(db) && AuditsOk(db)
    ensures var after := Reconcile(db, attempt, kind, e, apply).1;
            LedgerInv(after) && AuditsOk(after) && CallsEvolve(db.calls, after.calls) && SameLimits(db, after)
  {
    ReconcileKeepsLedger(db, attempt, kind, e, apply);
    ReconcileEvolves(db, attempt, kind, e, apply);
    ReconcileKeepsAudits(db, attempt, kind, e, apply);
  }

  lemma ReconcileKeepsAudits(db: Db, attempt: Id, kind: EvidenceKind, e: Record, apply: bool)
    requires LedgerInv(db) && AuditsOk(db)
    ensures AuditsOk(Reconcile(db, attempt, kind, e, apply).1)
  {
    if Reconcile(db, attempt, kind, e, apply).0.Applied? {
      var i := AppliedMeans(db, attempt, kind, e, apply);
      NonDispatchNeverResolves(db, attempt, e, apply);
      ResolveAudits(db, i, kind, e, Reconcile(db, attempt, kind, e, apply).0.amount);
    }
  }

  lemma NothingEvolves(db: Db)
    requires RowsOk(db)
    ensures CallsEvolve(db.calls, db.calls)
  {
    forall j | 0 <= j < |db.calls| ensures Evolves(db.calls[j], db.calls[j]) {
      assert RowOk(db, db.calls[j]);
    }
  }

  lemma ResolveAudits(db: Db, i: nat, kind: EvidenceKind, e: Record, amount: nat)
    requires RowsOk(db) && AuditsOk(db) && OpenM3(db, i) && kind.LateUsage?
             && Find(db.calls, db.calls[i].attempt) == Some(i)
    requires EvidenceAmount(db, db.calls[i], kind, e) == Some(amount)
    ensures AuditsOk(Resolve(db, i, kind, e, amount))
  {
    var after := Resolve(db, i, kind, e, amount);
    ResolveEvolves(db, i, kind, e, amount);
    assert RowOk(db, db.calls[i]);
    forall a | a in after.audits ensures AuditOk(after, a) {
      if a == db.calls[i].attempt {
        FindIsPositional(db.calls, after.calls, a);
      } else {
        AuditsSurvive(db, after, a);
      }
    }
  }

  /** A settlement either changes nothing, prices a reserved call, or is a reconciliation. */
  lemma SettleMeans(db: Db, run: Id, attempt: Id, r: Record) returns (i: nat)
    ensures var after := Settle(db, run, attempt, r).1;
            || after == db
            || after == Reconcile(db, attempt, KindOf(r), r, true).1
            || (i < |db.calls| && db.calls[i].attempt == attempt && db.calls[i].state.Reserved?
                && !Judge(db, db.calls[i], r).AmountInvalid? && after == Price(db, i, r))
  {
    FindMeans(db.calls, attempt);
    i := if Find(db.calls, attempt).Some? then Find(db.calls, attempt).value else 0;
  }

  lemma SettleKeeps(db: Db, run: Id, attempt: Id, r: Record)
    requires LedgerInv(db) && AuditsOk(db)
    ensures var after := Settle(db, run, attempt, r).1;
            LedgerInv(after) && AuditsOk(after) && CallsEvolve(db.calls, after.calls) && SameLimits(db, after)
  {
    var after := Settle(db, run, attempt, r).1;
    var i := SettleMeans(db, run, attempt, r);
    NothingEvolves(db);
    ReconcileKeeps(db, attempt, KindOf(r), r, true);
    if after != db && after != Reconcile(db, attempt, KindOf(r), r, true).1 {
      PriceKeeps(db, i, r);
      PriceIsRowStep(db, i, r);
      PriceEvolves(db, i, r);
      forall a | a in db.audits ensures AuditOk(after, a) {
        AuditsSurvive(db, after, a);
      }
    }
  }

  /** Replaying the recorded settlement never moves the ledger. It is acknowledged unless the call is an
      M3 call that was given up as unknown and the record does not itself say that its cost is unknown. */
  lemma ReplayNeverMoves(db: Db, i: nat, r: Record)
    requires LedgerInv(db) && AuditsOk(db) && i < |db.calls| && db.calls[i].record == Some(r)
    ensures var c := db.calls[i];
            && Settle(db, c.run, c.attempt, r).1 == db
            && (Settle(db, c.run, c.attempt, r).0.Accepted? <==> !Late(db, c, r))
  {
    var c := db.calls[i];
    RowIsFound(db, i);
    if Late(db, c, r) {
      LateReplayIsRefused(db, i, r);
    }
  }

  lemma LateReplayIsRefused(db: Db, i: nat, r: Record)
    requires LedgerInv(db) && AuditsOk(db) && i < |db.calls| && db.calls[i].record == Some(r)
    requires Late(db, db.calls[i], r) && Find(db.calls, db.calls[i].attempt) == Some(i)
    ensures Reconcile(db, db.calls[i].attempt, KindOf(r), r, true) == (Refused, db)
  {
    assert RowOk(db, db.calls[i]);
    if db.calls[i].attempt in db.audits {
      assert AuditOk(db, db.calls[i].attempt);
    }
  }

  /** A call that a settlement leaves UNKNOWN answers that settlement's replay with an error, unless the record itself
      said that its cost is unknown. */
  lemma UnresolvedReplay(db: Db, i: nat, r: Record)
    requires LedgerInv(db) && AuditsOk(db) && i < |db.calls|
    requires var c := db.calls[i]; Paid(c) && c.experiment.M3? && c.state.Reserved? && Judge(db, c, r).Unresolved?
    ensures var c := db.calls[i]; var after := Settle(db, c.run, c.attempt, r).1;
            && i < |after.calls| && after.calls[i].state.Unknown?
            && Settle(after, c.run, c.attempt, r)
                 == (if r.status.StatusUnknown? then Accepted else EvidenceRejected, after)
  {
    var c := db.calls[i];
    RowIsFound(db, i);
    var after := Settle(db, c.run, c.attempt, r).1;
    assert after == Price(db, i, r);
    SettleKeeps(db, c.run, c.attempt, r);
    ReplayNeverMoves(after, i, r);
    RowIsFound(after, i);
  }

  /** In particular an estimate whose usage cannot be verified: it leaves the call UNKNOWN, and its replay is
      refused. */
  lemma UnverifiedEstimateReplayIsRefused(db: Db, i: nat, r: Record)
    requires LedgerInv(db) && AuditsOk(db) && i < |db.calls| && r.status.Estimated?
    requires var c := db.calls[i]; Paid(c) && c.experiment.M3? && c.state.Reserved? && Unpriceable(db, c, r)
    ensures var c := db.calls[i]; var after := Settle(db, c.run, c.attempt, r).1;
            i < |after.calls| && after.calls[i].state.Unknown?
              && Settle(after, c.run, c.attempt, r) == (EvidenceRejected, after)
  {
    UnresolvedReplay(db, i, r);
  }

  lemma RowIsFound(db: Db, i: nat)
    requires RowsOk(db) && i < |db.calls|
    ensures Find(db.calls, db.calls[i].attempt) == Some(i)
  {
    FindMeans(db.calls, db.calls[i].attempt);
  }

  /** Replaying the evidence that resolved an unknown call is acknowledged and changes nothing. */
  lemma EvidenceReplayIsAccepted(db: Db, attempt: Id, kind: EvidenceKind, e: Record)
    requires Reconcile(db, attempt, kind, e, true).0.Applied?
    ensures var after := Reconcile(db, attempt, kind, e, true).1;
            Reconcile(after, attempt, kind, e, true) == (Replayed, after)
  {
    var i := AppliedMeans(db, attempt, kind, e, true);
    FindIsPositional(db.calls, Reconcile(db, attempt, kind, e, true).1.calls, attempt);
  }

  // --------------------------------------------------------------- honest prompts

  /** The provider counted no more prompt tokens than the reservation allowed for. */
  predicate PromptWithin(c: Call, r: Record) {
    r.rawUsage.Usage? && r.rawUsage.input.Some? ==> r.rawUsage.input.value as int <= 2 * c.payload.bytes + 4096
  }

  predicate NoOvershoot(db: Db, e: Experiment) {
    !AnyOvershoot(db.calls, e)
  }

  lemma HonestPriceWithinUpper(db: Db, c: Call, r: Record)
    requires RowOk(db, c) && Paid(c) && c.experiment.M3? && PromptWithin(c, r) && Judge(db, c, r).Billed?
    ensures Judge(db, c, r).amount <= c.upper
  {
    VerifiedCostWithinUpper(r, c.payload.bytes, LimitOfCall(db, c).value);
  }

  lemma HonestSettleStaysWithin(db: Db, run: Id, attempt: Id, r: Record)
    requires LedgerInv(db) && AuditsOk(db) && NoOvershoot(db, M3)
    requires forall i :: 0 <= i < |db.calls| && db.calls[i].attempt == attempt ==> PromptWithin(db.calls[i], r)
    ensures NoOvershoot(Settle(db, run, attempt, r).1, M3)
  {
    var after := Settle(db, run, attempt, r).1;
    var i := SettleMeans(db, run, attempt, r);
    HonestReconcileStaysWithin(db, attempt, KindOf(r), r, true);
    if after != db && after != Reconcile(db, attempt, KindOf(r), r, true).1 {
      var c := db.calls[i];
      assert RowOk(db, c);
      if Judge(db, c, r).Billed? && Paid(c) && c.experiment.M3? {
        HonestPriceWithinUpper(db, c, r);
      }
    }
  }

  lemma HonestReconcileStaysWithin(db: Db, attempt: Id, kind: EvidenceKind, e: Record, apply: bool)
    requires LedgerInv(db) && AuditsOk(db) && NoOvershoot(db, M3)
    requires forall i :: 0 <= i < |db.calls| && db.calls[i].attempt == attempt ==> PromptWithin(db.calls[i], e)
    ensures NoOvershoot(Reconcile(db, attempt, kind, e, apply).1, M3)
  {
    if Reconcile(db, attempt, kind, e, apply).0.Applied? {
      var i := AppliedMeans(db, attempt, kind, e, apply);
      assert RowOk(db, db.calls[i]);
      if kind.LateUsage? {
        VerifiedCostWithinUpper(e, db.calls[i].payload.bytes, LimitOfCall(db, db.calls[i]).value);
      }
    }
  }

  /** Without overshoot the experiment's money is within its cap, and it is halted only by unknown calls. */
  lemma NoOvershootMeansWithinCap(db: Db, e: Experiment)
    requires LedgerInv(db) && NoOvershoot(db, e)
    ensures db.budgets.Get(e).known + db.budgets.Get(e).reserved <= db.budgets.Get(e).cap
    ensures db.budgets.Get(e).halted != Some(CostExceededReservation)
    ensures db.budgets.Get(e).halted.Some?
            <==> exists i ::
                   0 <= i < |db.calls| && Paid(db.calls[i]) && db.calls[i].experiment == e && db.calls[i].state.Unknown?
  {
    assert Conserved(db, e) && HaltExact(db, e);
    OverCapMeansOvershoot(db, e);
    if i :| 0 <= i < |db.calls| && Paid(db.calls[i]) && db.calls[i].experiment == e && db.calls[i].state.Unknown? {
      assert Stuck(e, db.calls[i]);
    }
  }
}
