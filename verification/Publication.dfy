/** Publishing a validated batch: every candidate the report validated is validated again, facts are addressed by their
    content, and either all of them are published or nothing is. */
module Publication {
  import opened Types

  /** One line of the report. `content` stands for its requirement, candidate and source snapshot. */
  datatype Item = Item(candidate: Id, digest: Id, validated: bool, content: Id)

  /** A stored candidate, and what validating it again says now; `fingerprint` is the content address of its fact. */
  datatype Candidate = Candidate(id: Id, digest: Id, again: bool, content: Id, versionValid: bool, fingerprint: Id,
                                 inputs: set<Id>)

  datatype FactRow = FactRow(id: Id, report: Id, candidate: Id, invalidated: bool)

  /** The fact table by fingerprint, the evidence (fact, report, candidate), and the inputs (output, input) of facts. */
  datatype Tables = Tables(facts: map<Id, FactRow>, evidence: set<(Id, Id, Id)>, edges: set<(Id, Id)>)

  datatype Report = Report(id: Id, bound: bool, items: seq<Item>, expires: int)

  /** The report's line is about this candidate and, if it was validated, nothing has changed since. */
  predicate Stands(t: Tables, item: Item, c: Candidate) {
    && item.candidate == c.id && item.digest == c.digest
    && (item.validated ==>
          c.again && c.content == item.content && c.versionValid
            && (c.fingerprint in t.facts ==> !t.facts[c.fingerprint].invalidated))
  }

  /** `bound` says that the report is the batch's latest and names its run, contract, configuration and candidates. */
  predicate Publishable(t: Tables, r: Report, cs: seq<Candidate>, start: int, end: int, deadline: int) {
    && r.bound && start < r.expires && |cs| == |r.items| && (forall i :: 0 <= i < |cs| ==> Stands(t, r.items[i], cs[i]))
    && end < r.expires && end < deadline
  }

  /** A report is published exactly if it is bound, covers these very candidates, has not expired by the time the
      transaction ends, which is before the deadline, and every candidate it validated is validated again with the same
      content, in a valid version, for a fact that nobody invalidated. */
  lemma PublishableMeans(t: Tables, r: Report, cs: seq<Candidate>, start: int, end: int, deadline: int)
    requires start <= end
    ensures Publishable(t, r, cs, start, end, deadline) <==>
            && r.bound && end < r.expires && end < deadline && |cs| == |r.items|
            && forall i :: 0 <= i < |cs| ==>
                 && cs[i].id == r.items[i].candidate && cs[i].digest == r.items[i].digest
                 && (r.items[i].validated ==>
                       && cs[i].again && cs[i].content == r.items[i].content && cs[i].versionValid
                       && (cs[i].fingerprint !in t.facts || !t.facts[cs[i].fingerprint].invalidated))
  {
    if |cs| == |r.items| {
      forall i | 0 <= i < |cs|
        ensures Stands(t, r.items[i], cs[i]) <==>
                && cs[i].id == r.items[i].candidate && cs[i].digest == r.items[i].digest
                && (r.items[i].validated ==>
                      && cs[i].again && cs[i].content == r.items[i].content && cs[i].versionValid
                      && (cs[i].fingerprint !in t.facts || !t.facts[cs[i].fingerprint].invalidated))
      {
      }
    }
  }

  /** The fingerprints to publish, in the report's order. */
  function Due(items: seq<Item>, cs: seq<Candidate>): seq<Id>
    requires |items| == |cs|
  {
    if cs == [] then [] else
    Due(items[..|cs| - 1], cs[..|cs| - 1]) + if items[|cs| - 1].validated then [cs[|cs| - 1].fingerprint] else []
  }

  lemma {:induction false} DueMeans(items: seq<Item>, cs: seq<Candidate>, fp: Id)
    requires |items| == |cs|
    ensures fp in Due(items, cs) <==> exists i :: 0 <= i < |cs| && items[i].validated && cs[i].fingerprint == fp
  {
    if cs != [] {
      DueMeans(items[..|cs| - 1], cs[..|cs| - 1], fp);
      if i :| 0 <= i < |cs| && items[i].validated && cs[i].fingerprint == fp {
        assert i == |cs| - 1 || (items[..|cs| - 1][i].validated && cs[..|cs| - 1][i].fingerprint == fp);
      }
    }
  }

  ghost predicate FactsHold(was: map<Id, FactRow>, facts: map<Id, FactRow>, report: Id, due: seq<Id>) {
    && (forall fp :: fp in facts <==> fp in was || fp in due)
    && (forall fp :: fp in was ==> facts[fp] == was[fp])
    && (forall fp :: fp in facts && fp !in was ==> facts[fp].report == report && !facts[fp].invalidated)
  }

  /** The tables after the first candidates of a report: one row for every due fingerprint and no other new row, no old
      row touched, and the evidence and inputs of every due candidate. */
  ghost predicate Holds(t: Tables, after: Tables, report: Id, items: seq<Item>, cs: seq<Candidate>)
    requires |items| == |cs|
  {
    && FactsHold(t.facts, after.facts, report, Due(items, cs))
    && after.evidence == t.evidence + EvidenceOf(after.facts, report, items, cs)
    && after.edges == t.edges + EdgesOf(after.facts, items, cs)
  }

  function EvidenceOf(facts: map<Id, FactRow>, report: Id, items: seq<Item>, cs: seq<Candidate>): set<(Id, Id, Id)>
    requires |items| == |cs|
  {
    set i | 0 <= i < |cs| && items[i].validated && cs[i].fingerprint in facts ::
      (facts[cs[i].fingerprint].id, report, cs[i].id)
  }

  function EdgesOf(facts: map<Id, FactRow>, items: seq<Item>, cs: seq<Candidate>): set<(Id, Id)>
    requires |items| == |cs|
  {
    set i, x | 0 <= i < |cs| && items[i].validated && cs[i].fingerprint in facts && x in cs[i].inputs ::
      (facts[cs[i].fingerprint].id, x)
  }

  /** The ids returned are those of the rows at the due fingerprints. */
  predicate Returns(facts: map<Id, FactRow>, due: seq<Id>, ids: seq<Id>) {
    |ids| == |due| && forall k :: 0 <= k < |due| ==> due[k] in facts && facts[due[k]].id == ids[k]
  }

  ghost predicate AllStand(t: Tables, r: Report, cs: seq<Candidate>, n: nat)
    requires n <= |cs| == |r.items|
  {
    forall i :: 0 <= i < n ==> Stands(t, r.items[i], cs[i])
  }

  /** The loop's state after n candidates. */
  ghost predicate Progress(t: Tables, work: Tables, r: Report, cs: seq<Candidate>, n: nat, published: seq<Id>)
    requires n <= |cs| == |r.items|
  {
    Holds(t, work, r.id, r.items[..n], cs[..n]) && Returns(work.facts, Due(r.items[..n], cs[..n]), published)
  }

  /** A fingerprint that this report added is not an invalidated one. */
  lemma StillStanding(t: Tables, work: Tables, r: Report, cs: seq<Candidate>, n: nat, published: seq<Id>)
    requires n < |cs| == |r.items| && Progress(t, work, r, cs, n, published)
    ensures var fp := cs[n].fingerprint;
            (fp in work.facts && work.facts[fp].invalidated) <==> (fp in t.facts && t.facts[fp].invalidated)
  {
  }

  lemma WholeReport(t: Tables, work: Tables, r: Report, cs: seq<Candidate>, published: seq<Id>)
    requires |cs| == |r.items| && Progress(t, work, r, cs, |cs|, published)
    ensures Holds(t, work, r.id, r.items, cs) && Returns(work.facts, Due(r.items, cs), published)
  {
    assert r.items[..|cs|] == r.items && cs[..|cs|] == cs;
  }

  /** The transaction over the fact tables. */
  class Publisher {
    var tables: Tables

    constructor (t: Tables)
      ensures tables == t
    {
      tables := t;
    }

    /** Publish a report, or change nothing. `newIds` are the row ids drawn for the candidates. */
    method Publish(r: Report, cs: seq<Candidate>, newIds: seq<Id>, start: int, end: int, deadline: int)
      returns (ok: bool, published: seq<Id>)
      requires |newIds| == |cs|
      modifies this
      ensures ok <==> Publishable(old(tables), r, cs, start, end, deadline)
      ensures !ok ==> tables == old(tables) && published == []
      ensures ok ==> Holds(old(tables), tables, r.id, r.items, cs) && Returns(tables.facts, Due(r.items, cs), published)
    {
      ghost var before := tables;
      published := [];
      if !r.bound || start >= r.expires || |cs| != |r.items| { return false, []; }
      var work := tables;
      for n := 0 to |cs|
        invariant tables == before && AllStand(before, r, cs, n) && Progress(before, work, r, cs, n, published)
      {
        var item, c := r.items[n], cs[n];
        StillStanding(before, work, r, cs, n, published);
        if item.candidate != c.id || item.digest != c.digest { return false, []; }
        if !item.validated {
          SkippedKeeps(before, work, r, cs, n, published);
          continue;
        }
        if !c.again || c.content != item.content || !c.versionValid { return false, []; }
        if c.fingerprint in work.facts && work.facts[c.fingerprint].invalidated { return false, []; }
        AddedKeeps(before, work, r, cs, n, newIds[n], published);
        work := Added(work, r.id, c, newIds[n]);
        published := published + [work.facts[c.fingerprint].id];
      }
      WholeReport(before, work, r, cs, published);
      if end >= r.expires || end >= deadline { return false, []; }
      tables := work;
      return true, published;
    }
  }

  /** Insert the candidate's fact unless its fingerprint is there already, and attach its evidence and inputs. */
  function Added(t: Tables, report: Id, c: Candidate, newId: Id): Tables {
    var facts := if c.fingerprint in t.facts then t.facts
                   else t.facts[c.fingerprint := FactRow(newId, report, c.id, false)];
    var id := facts[c.fingerprint].id;
    Tables(facts, t.evidence + {(id, report, c.id)}, t.edges + set x | x in c.inputs :: (id, x))
  }

  lemma SkippedKeeps(t: Tables, work: Tables, r: Report, cs: seq<Candidate>, n: nat, published: seq<Id>)
    requires n < |cs| == |r.items| && !r.items[n].validated && Progress(t, work, r, cs, n, published)
    ensures Progress(t, work, r, cs, n + 1, published)
  {
    assert r.items[..n + 1][..n] == r.items[..n] && cs[..n + 1][..n] == cs[..n];
    assert EvidenceOf(work.facts, r.id, r.items[..n + 1], cs[..n + 1])
             == EvidenceOf(work.facts, r.id, r.items[..n], cs[..n]);
    assert EdgesOf(work.facts, r.items[..n + 1], cs[..n + 1]) == EdgesOf(work.facts, r.items[..n], cs[..n]);
  }

  lemma AddedKeeps(t: Tables, work: Tables, r: Report, cs: seq<Candidate>, n: nat, newId: Id, published: seq<Id>)
    requires n < |cs| == |r.items| && r.items[n].validated && Progress(t, work, r, cs, n, published)
    ensures var after := Added(work, r.id, cs[n], newId);
            Progress(t, after, r, cs, n + 1, published + [after.facts[cs[n].fingerprint].id])
  {
    DueGrows(r, cs, n);
    AddedFacts(t.facts, work, r.id, Due(r.items[..n], cs[..n]), cs[n], newId);
    AddedIds(work, r.id, Due(r.items[..n], cs[..n]), cs[n], newId, published);
    AddedEvidence(t, work, r, cs, n, newId);
    AddedEdges(t, work, r, cs, n, newId);
  }

  lemma AddedFacts(was: map<Id, FactRow>, work: Tables, report: Id, due: seq<Id>, c: Candidate, newId: Id)
    requires FactsHold(was, work.facts, report, due)
    ensures FactsHold(was, Added(work, report, c, newId).facts, report, due + [c.fingerprint])
  {
  }

  lemma AddedIds(work: Tables, report: Id, due: seq<Id>, c: Candidate, newId: Id, ids: seq<Id>)
    requires Returns(work.facts, due, ids)
    ensures var facts := Added(work, report, c, newId).facts;
            Returns(facts, due + [c.fingerprint], ids + [facts[c.fingerprint].id])
  {
  }

  lemma DueGrows(r: Report, cs: seq<Candidate>, n: nat)
    requires n < |cs| == |r.items| && r.items[n].validated
    ensures Due(r.items[..n + 1], cs[..n + 1]) == Due(r.items[..n], cs[..n]) + [cs[n].fingerprint]
  {
    assert r.items[..n + 1][..n] == r.items[..n] && cs[..n + 1][..n] == cs[..n];
  }

  lemma AddedEvidence(t: Tables, work: Tables, r: Report, cs: seq<Candidate>, n: nat, newId: Id)
    requires n < |cs| == |r.items| && r.items[n].validated && Holds(t, work, r.id, r.items[..n], cs[..n])
    ensures var after := Added(work, r.id, cs[n], newId);
            EvidenceOf(after.facts, r.id, r.items[..n + 1], cs[..n + 1])
              == EvidenceOf(work.facts, r.id, r.items[..n], cs[..n])
                 + {(after.facts[cs[n].fingerprint].id, r.id, cs[n].id)}
  {
    DueIsStored(t, work, r, cs, n);
  }

  lemma AddedEdges(t: Tables, work: Tables, r: Report, cs: seq<Candidate>, n: nat, newId: Id)
    requires n < |cs| == |r.items| && r.items[n].validated && Holds(t, work, r.id, r.items[..n], cs[..n])
    ensures var after := Added(work, r.id, cs[n], newId);
            EdgesOf(after.facts, r.items[..n + 1], cs[..n + 1])
              == EdgesOf(work.facts, r.items[..n], cs[..n])
                 + set x | x in cs[n].inputs :: (after.facts[cs[n].fingerprint].id, x)
  {
    DueIsStored(t, work, r, cs, n);
  }

  lemma DueIsStored(t: Tables, work: Tables, r: Report, cs: seq<Candidate>, n: nat)
    requires n <= |cs| == |r.items| && Holds(t, work, r.id, r.items[..n], cs[..n])
    ensures forall i :: 0 <= i < n && r.items[i].validated ==> cs[i].fingerprint in work.facts
  {
    forall i | 0 <= i < n && r.items[i].validated ensures cs[i].fingerprint in work.facts {
      DueMeans(r.items[..n], cs[..n], cs[i].fingerprint);
      assert r.items[..n][i].validated && cs[..n][i].fingerprint == cs[i].fingerprint;
    }
  }

  // ------------------------------------------------------------------------ replay

  /** Publishing the same report again is accepted for as long as nothing has changed, changes no table, and returns
      the same ids. */
  lemma ReplayPublishesNothingNew(t: Tables, after: Tables, twice: Tables, r: Report, cs: seq<Candidate>, ids: seq<Id>,
                                  idsAgain: seq<Id>)
    requires |cs| == |r.items| && (forall i :: 0 <= i < |cs| ==> Stands(t, r.items[i], cs[i]))
    requires Holds(t, after, r.id, r.items, cs) && Returns(after.facts, Due(r.items, cs), ids)
    requires Holds(after, twice, r.id, r.items, cs) && Returns(twice.facts, Due(r.items, cs), idsAgain)
    ensures forall i :: 0 <= i < |cs| ==> Stands(after, r.items[i], cs[i])
    ensures twice == after && idsAgain == ids
  {
    assert twice.facts == after.facts;
  }

  /** A published fact was validated by the report and again at publication; nothing else is ever inserted. */
  lemma OnlyValidatedIsPublished(t: Tables, after: Tables, r: Report, cs: seq<Candidate>, fp: Id)
    requires |cs| == |r.items| && (forall i :: 0 <= i < |cs| ==> Stands(t, r.items[i], cs[i]))
             && Holds(t, after, r.id, r.items, cs)
    requires fp in after.facts && fp !in t.facts
    ensures exists i ::
              0 <= i < |cs| && cs[i].fingerprint == fp && r.items[i].validated && cs[i].again
                && cs[i].content == r.items[i].content
  {
    DueMeans(r.items, cs, fp);
  }
}
