/** One probe round of two phases that survives crashes: what a resuming worker is told, what it may still ask,
    and why no phase is ever asked twice. Counter limits are in JobLaws.BatchOk and Safety.ProbeStaysBounded. */
module Probe {
  import opened Types

  datatype Phase = Choose | Look

  /** A probe row of the ledger: the phase read back from its request, and its reusable content. */
  datatype ProbeRow = ProbeRow(phase: Option<Phase>, state: CallState, content: Option<Id>)

  // ------------------------------------------------------------- recovery material

  /** The row's answer can be reused. */
  predicate Usable(r: ProbeRow) { r.state.Settled? && r.phase.Some? && r.content.Some? }

  /** The ledger tells the whole story of the round: every row usable, no phase twice, none missing. */
  predicate Resolved(rows: seq<ProbeRow>, models: nat) {
    && (forall i :: 0 <= i < |rows| ==> Usable(rows[i]))
    && (forall i, k :: 0 <= i < k < |rows| ==> rows[i].phase != rows[k].phase)
    && |rows| == models
    && ((exists i :: 0 <= i < |rows| && rows[i].phase == Some(Look)) ==>
          exists i :: 0 <= i < |rows| && rows[i].phase == Some(Choose))
  }

  predicate Has(rows: seq<ProbeRow>, p: Phase) { exists i :: 0 <= i < |rows| && rows[i].phase == Some(p) }

  /** Collect the settled phases, or find that the round cannot be resumed. */
  method Material(rows: seq<ProbeRow>, models: nat) returns (unresolved: bool, prior: map<Phase, Id>)
    ensures unresolved <==> !Resolved(rows, models)
    ensures !unresolved ==> forall p :: p in prior <==> Has(rows, p)
    ensures !unresolved ==>
              forall p ::
                p in prior ==>
                  exists i :: 0 <= i < |rows| && rows[i].phase == Some(p) && rows[i].content == Some(prior[p])
  {
    unresolved, prior := false, map[];
    for n := 0 to |rows|
      invariant unresolved
                <==> (exists i :: 0 <= i < n && !Usable(rows[i]))
                     || exists i, k :: 0 <= i < k < n && rows[i].phase == rows[k].phase
      invariant !unresolved ==> forall p :: p in prior <==> exists i :: 0 <= i < n && rows[i].phase == Some(p)
      invariant !unresolved ==>
                  forall p ::
                    p in prior ==>
                      exists i :: 0 <= i < n && rows[i].phase == Some(p) && rows[i].content == Some(prior[p])
    {
      var r := rows[n];
      if !r.state.Settled? || r.phase.None? || r.content.None? || r.phase.value in prior {
        if !unresolved && Usable(r) {
          ghost var i :| 0 <= i < n && rows[i].phase == Some(r.phase.value);
          assert rows[i].phase == rows[n].phase;
        }
        unresolved := true;
        continue;
      }
      prior := prior[r.phase.value := r.content.value];
    }
    if |rows| != models { unresolved := true; }
    if Look in prior && Choose !in prior { unresolved := true; }
  }

  // --------------------------------------------------------------- a resuming worker

  datatype Stop = Disabled | UnsupportedContract | CallLimit | Abstained | ToolLimit | Observed | ObservationMissing
    | OutcomeUnresolved

  /** What the runtime is granted on resumption. `observed` holds the regions already opened in this round. */
  datatype Grant = Grant(unresolved: bool, models: nat, tools: nat, prior: map<Phase, Id>, regions: set<Id>,
                         observed: set<Id>)

  /** How the model answers a phase that is asked (None: the call was not admitted or failed), and which
      region a first-phase answer asks to open (None: anything but a well-formed open action). */
  datatype Replies = Replies(choose: Option<Id>, look: Option<Id>, action: Id -> Option<Id>)

  /** The round may be continued: enabled, under a supported limit, and told completely by its settled phases. */
  predicate Continues(g: Grant, enabled: bool, limit: int) {
    && enabled && 0 < limit <= 2 && !g.unresolved && g.models <= 2 && g.tools <= 4
    && |g.prior| == g.models && (Look in g.prior ==> Choose in g.prior)
  }

  /** The first phase is still missing and may be asked. */
  predicate AsksChoose(g: Grant, enabled: bool, limit: int, modelsLeft: nat) {
    Continues(g, enabled, limit) && Choose !in g.prior && g.models < limit && modelsLeft > 0
  }

  /** The region chosen in the first phase, settled before or answered now. */
  function Chosen(g: Grant, enabled: bool, limit: int, modelsLeft: nat, replies: Replies): Option<Id> {
    if !Continues(g, enabled, limit) then None else
    var selected := if Choose in g.prior then Some(g.prior[Choose])
                      else if AsksChoose(g, enabled, limit, modelsLeft) then replies.choose else None;
    if selected.Some? && replies.action(selected.value).Some? && replies.action(selected.value).value in g.regions
    then replies.action(selected.value) else None
  }

  /** Finish a round from what is already settled. Only missing phases are asked, each once and in order, within
      the run's limits; the chosen region is opened only if it was not opened before. */
  method Resume(g: Grant, enabled: bool, limit: int, modelsLeft: nat, replies: Replies)
    returns (stop: Stop, asked: seq<Phase>, fetched: seq<Id>)
    ensures asked <= [Choose, Look] || asked == [Look]
    ensures |asked| <= modelsLeft && (asked != [] ==> g.models + |asked| <= limit)
    ensures Choose in asked <==> AsksChoose(g, enabled, limit, modelsLeft)
    ensures var region, used := Chosen(g, enabled, limit, modelsLeft, replies), if Choose in asked then 1 else 0;
            && fetched
                 == (if region.Some? && Look !in g.prior && region.value !in g.observed && g.tools < 4
                       then [region.value] else [])
            && (Look in asked <==> region.Some? && Look !in g.prior && (region.value in g.observed || g.tools < 4)
                                   && g.models + used < limit && used < modelsLeft)
            && (stop.Observed?
                <==> (Look in asked && replies.look.Some?)
                     || (region.Some? && Look in g.prior && region.value in g.observed))
    ensures stop.OutcomeUnresolved? ==> asked != [] || (enabled && !Continues(g, enabled, limit))
    ensures enabled && 0 < limit <= 2 && !Continues(g, enabled, limit) ==> stop.OutcomeUnresolved?
    ensures stop.Disabled? <==> !enabled || limit == 0
    ensures stop.UnsupportedContract? <==> enabled && !(0 <= limit <= 2)
    ensures var region := Chosen(g, enabled, limit, modelsLeft, replies);
            && (stop.ObservationMissing? <==> region.Some? && Look in g.prior && region.value !in g.observed)
            && (stop.ToolLimit? <==> region.Some? && Look !in g.prior && region.value !in g.observed && g.tools >= 4)
            && (stop.Abstained? <==> Continues(g, enabled, limit) && region.None?
                                     && (Choose in g.prior || (Choose in asked && replies.choose.Some?)))
  {
    asked, fetched := [], [];
    if !enabled || limit == 0 { return Disabled, [], []; }
    if limit < 0 || limit > 2 { return UnsupportedContract, [], []; }
    if g.unresolved { return OutcomeUnresolved, [], []; }
    var used, left := g.models, modelsLeft;
    if g.models > 2 || g.tools > 4 || |g.prior| != used || (Look in g.prior && Choose !in g.prior) {
      return OutcomeUnresolved, [], [];
    }
    var selected: Id;
    if Choose in g.prior {
      selected := g.prior[Choose];
    } else {
      if used >= limit || left == 0 { return CallLimit, [], []; }
      used, left := used + 1, left - 1;
      asked := [Choose];
      if replies.choose.None? { return OutcomeUnresolved, asked, []; }
      selected := replies.choose.value;
    }
    var region := replies.action(selected);
    if region.None? || region.value !in g.regions { return Abstained, asked, []; }
    if Look in g.prior {
      return if region.value in g.observed then Observed else ObservationMissing, asked, [];
    }
    if region.value !in g.observed {
      if g.tools >= 4 { return ToolLimit, asked, []; }
      fetched := [region.value];
    }
    if used >= limit || left == 0 { return CallLimit, asked, fetched; }
    asked := asked + [Look];
    return if replies.look.Some? then Observed else OutcomeUnresolved, asked, fetched;
  }
}
