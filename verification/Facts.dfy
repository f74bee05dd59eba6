/** Reading published facts: the walk over every transitive input, coverage of a question, bounded paging,
    and the final check that reused facts are still the only answer to their question. */
module Facts {
  import opened Types

  datatype Kind = Scalar | WholeSet

  datatype Requirement = Requirement(entity: Id, concept: Id, period: Id, unit: Id, scope: Id, kind: Kind)

  /** A fact as readers see it. `value` is its canonical decimal text. */
  datatype Fact = Fact(id: Id, entity: Id, concept: Id, period: Id, unit: Id, currency: Id, scope: Id, value: Id,
                       version: Id, report: Id)

  datatype Row = Row(fact: Fact, tenant: Id, config: Id, invalidated: bool)

  /** `current` says whether this is its document's current version; every document has one. */
  datatype Version = Version(tenant: Id, revoked: bool, current: bool, ready: bool)

  /** `edges` holds (output, input) pairs of derived facts. */
  datatype Store = Store(rows: map<Id, Row>, versions: map<Id, Version>, edges: set<(Id, Id)>)

  datatype Scope = Scope(tenant: Id, versions: set<Id>, config: Id, historical: bool)

  // --------------------------------------------------------------- transitive inputs

  predicate Path(edges: set<(Id, Id)>, p: seq<Id>) {
    |p| >= 2 && forall i :: 0 <= i < |p| - 1 ==> (p[i], p[i + 1]) in edges
  }

  /** x is an input of f, or an input of an input, and so on. */
  ghost predicate Reaches(edges: set<(Id, Id)>, f: Id, x: Id) {
    exists p :: Path(edges, p) && p[0] == f && p[|p| - 1] == x
  }

  function InputsOf(edges: set<(Id, Id)>, from: set<Id>): set<Id> { set e | e in edges && e.0 in from :: e.1 }

  lemma ReachesOne(edges: set<(Id, Id)>, f: Id, x: Id)
    requires (f, x) in edges
    ensures Reaches(edges, f, x)
  {
    assert Path(edges, [f, x]);
  }

  lemma ReachesOn(edges: set<(Id, Id)>, f: Id, x: Id, y: Id)
    requires Reaches(edges, f, x) && (x, y) in edges
    ensures Reaches(edges, f, y)
  {
    var p :| Path(edges, p) && p[0] == f && p[|p| - 1] == x;
    assert Path(edges, p + [y]);
  }

  lemma {:induction false} ClosedContainsPath(edges: set<(Id, Id)>, closed: set<Id>, p: seq<Id>)
    requires Path(edges, p) && p[1] in closed && InputsOf(edges, closed) <= closed
    ensures p[|p| - 1] in closed
  {
    if |p| > 2 {
      assert (p[|p| - 2], p[|p| - 1]) in edges;
      ClosedContainsPath(edges, closed, p[..|p| - 1]);
      assert p[|p| - 1] in InputsOf(edges, closed);
    }
  }

  /** The recursive query: new inputs are followed until none is left, so cycles end it too. */
  method WalkInputs(edges: set<(Id, Id)>, f: Id) returns (inputs: set<Id>)
    ensures forall x :: x in inputs <==> Reaches(edges, f, x)
  {
    inputs := InputsOf(edges, {f});
    var frontier := inputs;
    ghost var all := set e | e in edges :: e.1;
    forall x | x in inputs ensures Reaches(edges, f, x) {
      ReachesOne(edges, f, x);
    }
    while frontier != {}
      invariant frontier <= inputs <= all && InputsOf(edges, {f}) <= inputs
      invariant forall x :: x in inputs ==> Reaches(edges, f, x)
      invariant InputsOf(edges, inputs - frontier) <= inputs
      decreases |all - inputs|, |frontier|
    {
      var next := InputsOf(edges, frontier) - inputs;
      FollowedInputs(edges, f, inputs, frontier);
      if next != {} { SmallerRest(all, inputs, next); }
      frontier, inputs := next, inputs + next;
    }
    ClosedIsEverything(edges, f, inputs);
  }

  lemma SmallerRest(all: set<Id>, inputs: set<Id>, next: set<Id>)
    requires next <= all && next !! inputs && next != {}
    ensures |all - (inputs + next)| < |all - inputs|
  {
    assert all - inputs == (all - (inputs + next)) + next;
  }

  lemma FollowedInputs(edges: set<(Id, Id)>, f: Id, inputs: set<Id>, frontier: set<Id>)
    requires frontier <= inputs && (forall x :: x in inputs ==> Reaches(edges, f, x))
             && InputsOf(edges, inputs - frontier) <= inputs
    ensures forall y :: y in InputsOf(edges, frontier) ==> Reaches(edges, f, y)
    ensures InputsOf(edges, inputs) <= inputs + InputsOf(edges, frontier)
  {
    forall y | y in InputsOf(edges, frontier) ensures Reaches(edges, f, y) {
      var e :| e in edges && e.0 in frontier && e.1 == y;
      ReachesOn(edges, f, e.0, y);
    }
    forall y | y in InputsOf(edges, inputs) ensures y in inputs + InputsOf(edges, frontier) {
      var e :| e in edges && e.0 in inputs && e.1 == y;
      if e.0 !in frontier { assert y in InputsOf(edges, inputs - frontier); }
    }
  }

  lemma ClosedIsEverything(edges: set<(Id, Id)>, f: Id, inputs: set<Id>)
    requires InputsOf(edges, {f}) <= inputs && InputsOf(edges, inputs) <= inputs
    ensures forall x :: Reaches(edges, f, x) ==> x in inputs
  {
    forall x | Reaches(edges, f, x) ensures x in inputs {
      var p :| Path(edges, p) && p[0] == f && p[|p| - 1] == x;
      assert (p[0], p[1]) in edges && p[1] in InputsOf(edges, {f});
      ClosedContainsPath(edges, inputs, p);
    }
  }

  // --------------------------------------------------------------------- validity

  /** The keys of the tables: every row names an existing version, and every edge two existing rows. */
  predicate WellFormed(s: Store) {
    && (forall id :: id in s.rows ==> s.rows[id].fact.id == id && s.rows[id].fact.version in s.versions)
    && (forall e :: e in s.edges ==> e.0 in s.rows && e.1 in s.rows)
  }

  predicate InScope(s: Store, c: Scope, id: Id)
    requires WellFormed(s) && id in s.rows
  {
    var r := s.rows[id];
    var v := s.versions[r.fact.version];
    && r.tenant == c.tenant && v.tenant == c.tenant && !v.revoked && (c.historical || v.current) && v.ready
    && r.fact.version in c.versions && r.config == c.config && !r.invalidated
  }

  predicate SameQuestion(f: Fact, g: Fact) {
    f.entity == g.entity && f.concept == g.concept && f.period == g.period && f.unit == g.unit && f.scope == g.scope
  }

  predicate Conflicted(s: Store, c: Scope, x: Id)
    requires WellFormed(s) && x in s.rows
  {
    exists p :: p in s.rows && InScope(s, c, p) && SameQuestion(s.rows[p].fact, s.rows[x].fact)
                && s.rows[p].fact.currency == s.rows[x].fact.currency && s.rows[p].fact.value != s.rows[x].fact.value
  }

  /** A fact that readers may see: it is in scope, and so is every transitive input, none with a conflicting peer. */
  ghost predicate Current(s: Store, c: Scope, id: Id)
    requires WellFormed(s)
  {
    id in s.rows && InScope(s, c, id)
      && forall x :: x in s.rows && Reaches(s.edges, id, x) ==> InScope(s, c, x) && !Conflicted(s, c, x)
  }

  /** Why a stored fact cannot be used: another tenant's, a revoked document, a version that is not ready, was
      superseded or is not in the question's scope, another configuration, or invalidated. */
  predicate Unusable(s: Store, c: Scope, x: Id)
    requires WellFormed(s) && x in s.rows
  {
    var row, version := s.rows[x], s.versions[s.rows[x].fact.version];
    || row.tenant != c.tenant || version.tenant != c.tenant || version.revoked || !version.ready
    || (!version.current && !c.historical) || row.fact.version !in c.versions || row.config != c.config
    || row.invalidated
  }

  /** Two usable facts for the same question and currency with different values. */
  predicate Contradict(s: Store, c: Scope, x: Id, p: Id)
    requires WellFormed(s) && x in s.rows && p in s.rows
  {
    var f, g := s.rows[x].fact, s.rows[p].fact;
    && !Unusable(s, c, p) && f.entity == g.entity && f.concept == g.concept && f.period == g.period && f.unit == g.unit
    && f.scope == g.scope && f.currency == g.currency && f.value != g.value
  }

  /** Whatever cannot be used spoils everything derived from it, at any distance, and so does a contradicted input;
      nothing else keeps a stored fact from its readers. */
  lemma OnlySpoiltFactsAreHidden(s: Store, c: Scope, f: Id)
    requires WellFormed(s) && f in s.rows
    ensures !Current(s, c, f) <==>
            || Unusable(s, c, f)
            || (exists x :: x in s.rows && Reaches(s.edges, f, x) && Unusable(s, c, x))
            || (exists x, p :: x in s.rows && p in s.rows && Reaches(s.edges, f, x) && Contradict(s, c, x, p))
  {
    forall x | x in s.rows
      ensures InScope(s, c, x) <==> !Unusable(s, c, x)
      ensures Conflicted(s, c, x) <==> exists p :: p in s.rows && Contradict(s, c, x, p)
    {
      forall p | p in s.rows
        ensures Contradict(s, c, x, p) <==>
                InScope(s, c, p) && SameQuestion(s.rows[p].fact, s.rows[x].fact)
                && s.rows[p].fact.currency == s.rows[x].fact.currency && s.rows[p].fact.value != s.rows[x].fact.value
      {
      }
    }
  }

  method CheckFact(s: Store, c: Scope, id: Id) returns (ok: bool)
    requires WellFormed(s)
    ensures ok <==> Current(s, c, id)
  {
    if id !in s.rows || !InScope(s, c, id) { return false; }
    var inputs := WalkInputs(s.edges, id);
    return !(exists x :: x in inputs && x in s.rows && (!InScope(s, c, x) || Conflicted(s, c, x)));
  }

  /** Every transitive input is a stored fact. */
  lemma InputsAreStored(s: Store, f: Id, x: Id)
    requires WellFormed(s) && Reaches(s.edges, f, x)
    ensures x in s.rows
  {
    var p :| Path(s.edges, p) && p[0] == f && p[|p| - 1] == x;
    assert (p[|p| - 2], p[|p| - 2 + 1]) in s.edges;
  }

  predicate Matches(f: Fact, r: Requirement) {
    f.entity == r.entity && f.concept == r.concept && f.period == r.period && f.unit == r.unit && f.scope == r.scope
  }

  predicate Wanted(f: Fact, reqs: seq<Requirement>) { exists i :: 0 <= i < |reqs| && Matches(f, reqs[i]) }

  function Asked(reqs: seq<Requirement>): Fact -> bool { (f: Fact) => Wanted(f, reqs) }

  function NamedIn(ids: set<Id>): Fact -> bool { (f: Fact) => f.id in ids }

  predicate Ascending(fs: seq<Fact>) { forall i, k :: 0 <= i < k < |fs| ==> fs[i].id < fs[k].id }

  /** The facts a reader gets: current ones that were asked for, by id, at most 201. */
  ghost predicate Reads(s: Store, c: Scope, wanted: Fact -> bool, fs: seq<Fact>)
    requires WellFormed(s)
  {
    && Ascending(fs) && |fs| <= 201
    && (forall i :: 0 <= i < |fs| ==> Current(s, c, fs[i].id) && s.rows[fs[i].id].fact == fs[i] && wanted(fs[i]))
    && (|fs| <= 200 ==> forall id :: Current(s, c, id) && wanted(s.rows[id].fact) ==> s.rows[id].fact in fs)
  }

  ghost function Hits(s: Store, c: Scope, wanted: Fact -> bool): set<Id>
    requires WellFormed(s)
  {
    set id | id in s.rows && Current(s, c, id) && wanted(s.rows[id].fact)
  }

  /** The scan so far: exactly the hits among the ids already passed. */
  ghost predicate Scanned(rows: map<Id, Row>, hits: set<Id>, fs: seq<Fact>, left: set<Id>) {
    && Ascending(fs)
    && (forall i :: 0 <= i < |fs| ==> fs[i].id in hits && fs[i].id in rows && rows[fs[i].id].fact == fs[i])
    && (forall id, i :: id in left && 0 <= i < |fs| ==> fs[i].id < id)
    && (forall id :: id in hits && id !in left ==> id in rows && rows[id].fact in fs)
  }

  lemma ScanTake(rows: map<Id, Row>, hits: set<Id>, fs: seq<Fact>, left: set<Id>, id: Id)
    requires Scanned(rows, hits, fs, left) && id in left && id in hits && id in rows && rows[id].fact.id == id
             && forall v :: v in left ==> id <= v
    ensures Scanned(rows, hits, fs + [rows[id].fact], left - {id})
  {
    var more := fs + [rows[id].fact];
    forall x | x in hits && x !in left - {id} ensures x in rows && rows[x].fact in more {
      if x == id { assert more[|fs|] == rows[id].fact; }
    }
  }

  /** The scan in id order, stopping at the row limit. */
  method ReadFacts(s: Store, c: Scope, wanted: Fact -> bool) returns (fs: seq<Fact>)
    requires WellFormed(s)
    ensures Reads(s, c, wanted, fs)
  {
    fs := [];
    var left := s.rows.Keys;
    ghost var hits := Hits(s, c, wanted);
    while left != {} && |fs| < 201
      invariant left <= s.rows.Keys && |fs| <= 201 && Scanned(s.rows, hits, fs, left)
      decreases |left|
    {
      var id := Least(left);
      var ok := CheckFact(s, c, id);
      if ok && wanted(s.rows[id].fact) {
        ScanTake(s.rows, hits, fs, left, id);
        fs := fs + [s.rows[id].fact];
      }
      left := left - {id};
    }
    ScanIsRead(s, c, wanted, fs, left);
  }

  lemma ScanIsRead(s: Store, c: Scope, wanted: Fact -> bool, fs: seq<Fact>, left: set<Id>)
    requires WellFormed(s) && Scanned(s.rows, Hits(s, c, wanted), fs, left) && |fs| <= 201
             && (left == {} || |fs| == 201)
    ensures Reads(s, c, wanted, fs)
  {
    if |fs| <= 200 {
      forall id | Current(s, c, id) && wanted(s.rows[id].fact) ensures s.rows[id].fact in fs {
        assert id in Hits(s, c, wanted);
      }
    }
  }

  method Least(s: set<Id>) returns (least: Id)
    requires s != {}
    ensures least in s && forall v :: v in s ==> least <= v
  {
    least :| least in s;
    var rest := s - {least};
    while rest != {}
      invariant rest < s && least in s && forall v :: v in s && v !in rest ==> least <= v
      decreases |rest|
    {
      var v :| v in rest;
      if v < least { least := v; }
      rest := rest - {v};
    }
  }

  // --------------------------------------------------------------------- coverage

  datatype Status = Full | Partial | Missing | UnknownCoverage

  datatype Reason = SetUnproven | Conflicting | NoFact

  datatype Coverage = Coverage(status: Status, matched: seq<(Requirement, seq<Id>)>,
                               missing: seq<(Requirement, Reason)>,
                               conflicts: seq<(Requirement, seq<Id>)>)

  function ValuesFor(facts: seq<Fact>, r: Requirement): set<Id> { set f | f in facts && Matches(f, r) :: f.value }

  function IdsFor(facts: seq<Fact>, r: Requirement): seq<Id> {
    if facts == [] then []
      else IdsFor(facts[..|facts| - 1], r) + if Matches(facts[|facts| - 1], r) then [facts[|facts| - 1].id] else []
  }

  /** The requirement is scalar and the facts agree on exactly one value for it. */
  ghost predicate Answered(facts: seq<Fact>, r: Requirement) {
    r.kind.Scalar? && exists v :: ValuesFor(facts, r) == {v}
  }

  /** Why a requirement is not answered. */
  ghost function WhyMissing(facts: seq<Fact>, r: Requirement): Reason {
    if r.kind.WholeSet? then SetUnproven else if ValuesFor(facts, r) == {} then NoFact else Conflicting
  }

  /** The two lists split the question: each requirement, in order, is in exactly one of them. */
  ghost function MatchedOf(facts: seq<Fact>, reqs: seq<Requirement>): seq<(Requirement, seq<Id>)> {
    if reqs == [] then [] else
    var last := reqs[|reqs| - 1];
    MatchedOf(facts, reqs[..|reqs| - 1]) + if Answered(facts, last) then [(last, IdsFor(facts, last))] else []
  }

  ghost function MissingOf(facts: seq<Fact>, reqs: seq<Requirement>): seq<(Requirement, Reason)> {
    if reqs == [] then [] else
    var last := reqs[|reqs| - 1];
    MissingOf(facts, reqs[..|reqs| - 1]) + if Answered(facts, last) then [] else [(last, WhyMissing(facts, last))]
  }

  /** The scalar requirements with more than one value, each with every fact that answers it. */
  ghost predicate Disputed(facts: seq<Fact>, r: Requirement) {
    r.kind.Scalar? && !Answered(facts, r) && ValuesFor(facts, r) != {}
  }

  ghost function ConflictsOf(facts: seq<Fact>, reqs: seq<Requirement>): seq<(Requirement, seq<Id>)> {
    if reqs == [] then [] else
    var last := reqs[|reqs| - 1];
    ConflictsOf(facts, reqs[..|reqs| - 1]) + if Disputed(facts, last) then [(last, IdsFor(facts, last))] else []
  }

  ghost predicate AllAnswered(facts: seq<Fact>, reqs: seq<Requirement>) { forall r :: r in reqs ==> Answered(facts, r) }

  ghost predicate NoneAnswered(facts: seq<Fact>, reqs: seq<Requirement>) {
    forall r :: r in reqs ==> !Answered(facts, r)
  }

  lemma {:induction false} MatchedAndMissingPartition(facts: seq<Fact>, reqs: seq<Requirement>)
    ensures |MatchedOf(facts, reqs)| + |MissingOf(facts, reqs)| == |reqs|
    ensures |MatchedOf(facts, reqs)| == |reqs| <==> AllAnswered(facts, reqs)
    ensures |MatchedOf(facts, reqs)| == 0 <==> NoneAnswered(facts, reqs)
  {
    if reqs != [] {
      var last := reqs[|reqs| - 1];
      MatchedAndMissingPartition(facts, reqs[..|reqs| - 1]);
      assert reqs == reqs[..|reqs| - 1] + [last];
    }
  }

  ghost function StatusOf(facts: seq<Fact>, reqs: seq<Requirement>, truncated: bool): Status {
    if reqs == [] || truncated then UnknownCoverage
    else if AllAnswered(facts, reqs) then Full
    else if !NoneAnswered(facts, reqs) then Partial
    else if exists r :: r in reqs && r.kind.WholeSet? then UnknownCoverage
    else Missing
  }

  /** Some fact answers the requirement, and all that do give one value. */
  predicate OneValueIn(facts: seq<Fact>, r: Requirement) {
    r.kind.Scalar? && (exists f :: f in facts && Matches(f, r))
      && forall f, g :: f in facts && g in facts && Matches(f, r) && Matches(g, r) ==> f.value == g.value
  }

  lemma AnsweredMeans(facts: seq<Fact>, r: Requirement)
    ensures Answered(facts, r) <==> OneValueIn(facts, r)
    ensures ValuesFor(facts, r) == {} <==> forall f :: f in facts ==> !Matches(f, r)
  {
    if f :| f in facts && Matches(f, r) {
      assert f.value in ValuesFor(facts, r);
      if OneValueIn(facts, r) {
        assert ValuesFor(facts, r) == {f.value};
      }
      if Answered(facts, r) {
        forall g | g in facts && Matches(g, r) ensures g.value == f.value {
          assert g.value in ValuesFor(facts, r);
        }
      }
    }
  }

  /** The status in terms of which requirements have one value: all FULL, some but not all PARTIAL, none MISSING;
      UNKNOWN if there is nothing to judge, the facts were cut off, or none has one and a whole set was asked for. */
  lemma StatusMeans(facts: seq<Fact>, reqs: seq<Requirement>, truncated: bool)
    ensures var status := StatusOf(facts, reqs, truncated);
            var all := forall r :: r in reqs ==> OneValueIn(facts, r);
            var some := exists r :: r in reqs && OneValueIn(facts, r);
            var sets := exists r :: r in reqs && r.kind.WholeSet?;
            && (status.Full? <==> reqs != [] && !truncated && all)
            && (status.Partial? <==> reqs != [] && !truncated && some && !all)
            && (status.Missing? <==> reqs != [] && !truncated && !some && !sets)
            && (status.UnknownCoverage? <==> reqs == [] || truncated || (!some && sets))
  {
    forall r | r in reqs ensures Answered(facts, r) <==> OneValueIn(facts, r) {
      AnsweredMeans(facts, r);
    }
    if reqs != [] { assert reqs[0] in reqs; }
  }

  /** The ids listed are those of the facts that answer the requirement. */
  lemma {:induction false} IdsMean(facts: seq<Fact>, r: Requirement, id: Id)
    ensures id in IdsFor(facts, r) <==> exists f :: f in facts && Matches(f, r) && f.id == id
  {
    if facts != [] {
      var front, last := facts[..|facts| - 1], facts[|facts| - 1];
      IdsMean(front, r, id);
      assert facts == front + [last];
      if f :| f in facts && Matches(f, r) && f.id == id {
        assert f in front || f == last;
      }
    }
  }

  /** The lists: a requirement with one value is matched, with the facts that answer it. */
  lemma {:induction false} MatchedMeans(facts: seq<Fact>, reqs: seq<Requirement>, r: Requirement, ids: seq<Id>)
    ensures (r, ids) in MatchedOf(facts, reqs) <==> r in reqs && OneValueIn(facts, r) && ids == IdsFor(facts, r)
  {
    if reqs != [] {
      AnsweredMeans(facts, reqs[|reqs| - 1]);
      MatchedMeans(facts, reqs[..|reqs| - 1], r, ids);
      assert reqs == reqs[..|reqs| - 1] + [reqs[|reqs| - 1]];
    }
  }

  /** Any other is missing: as a set that cannot be proved whole, as having no fact, or as having several values. */
  lemma {:induction false} MissingMeans(facts: seq<Fact>, reqs: seq<Requirement>, r: Requirement, why: Reason)
    ensures (r, why) in MissingOf(facts, reqs) <==>
            && r in reqs && !OneValueIn(facts, r)
            && (why.SetUnproven? <==> r.kind.WholeSet?)
            && (why.NoFact? <==> r.kind.Scalar? && forall f :: f in facts ==> !Matches(f, r))
  {
    if reqs != [] {
      AnsweredMeans(facts, reqs[|reqs| - 1]);
      MissingMeans(facts, reqs[..|reqs| - 1], r, why);
      assert reqs == reqs[..|reqs| - 1] + [reqs[|reqs| - 1]];
    }
  }

  /** And only one with several values is a conflict, with every fact that answers it. */
  lemma {:induction false} ConflictsMean(facts: seq<Fact>, reqs: seq<Requirement>, r: Requirement, ids: seq<Id>)
    ensures (r, ids) in ConflictsOf(facts, reqs) <==>
            && r in reqs && r.kind.Scalar? && !OneValueIn(facts, r) && (exists f :: f in facts && Matches(f, r))
            && ids == IdsFor(facts, r)
  {
    if reqs != [] {
      AnsweredMeans(facts, reqs[|reqs| - 1]);
      ConflictsMean(facts, reqs[..|reqs| - 1], r, ids);
      assert reqs == reqs[..|reqs| - 1] + [reqs[|reqs| - 1]];
    }
  }

  method CoverageOf(reqs: seq<Requirement>, facts: seq<Fact>, truncated: bool) returns (c: Coverage)
    ensures c == Coverage(StatusOf(facts, reqs, truncated), MatchedOf(facts, reqs), MissingOf(facts, reqs),
                          ConflictsOf(facts, reqs))
  {
    var matched, missing, conflicts := [], [], [];
    for n := 0 to |reqs|
      invariant matched == MatchedOf(facts, reqs[..n]) && missing == MissingOf(facts, reqs[..n])
                && conflicts == ConflictsOf(facts, reqs[..n])
    {
      var r := reqs[n];
      assert reqs[..n + 1][..n] == reqs[..n];
      if r.kind.WholeSet? {
        missing := missing + [(r, SetUnproven)];
        continue;
      }
      var ids, values := Collect(facts, r);
      OneValue(values);
      if |values| > 1 {
        conflicts := conflicts + [(r, ids)];
        missing := missing + [(r, Conflicting)];
      } else if |ids| > 0 {
        matched := matched + [(r, ids)];
      } else {
        missing := missing + [(r, NoFact)];
      }
    }
    assert reqs[..|reqs|] == reqs;
    MatchedAndMissingPartition(facts, reqs);
    var state := Missing;
    if |reqs| == 0 || truncated {
      state := UnknownCoverage;
    } else if |matched| == |reqs| {
      state := Full;
    } else if |matched| > 0 {
      state := Partial;
    } else if exists r :: r in reqs && r.kind.WholeSet? {
      state := UnknownCoverage;
    }
    return Coverage(state, matched, missing, conflicts);
  }

  lemma OneValue(values: set<Id>)
    ensures |values| == 1 <==> exists v :: values == {v}
  {
    if |values| == 1 {
      var v :| v in values;
      assert |values - {v}| == 0;
      assert values == {v};
    }
  }

  method Collect(facts: seq<Fact>, r: Requirement) returns (ids: seq<Id>, values: set<Id>)
    ensures ids == IdsFor(facts, r) && values == ValuesFor(facts, r) && (|ids| > 0 <==> values != {})
  {
    ids, values := [], {};
    for k := 0 to |facts|
      invariant ids == IdsFor(facts[..k], r) && values == ValuesFor(facts[..k], r) && (|ids| > 0 <==> values != {})
    {
      assert facts[..k + 1] == facts[..k] + [facts[k]] && facts[..k + 1][..k] == facts[..k];
      if Matches(facts[k], r) {
        ids := ids + [facts[k].id];
        values := values + {facts[k].value};
        assert facts[k].value in values;
      }
    }
    assert facts[..|facts|] == facts;
  }

  // ----------------------------------------------------------------------- paging

  datatype Page = Page(coverage: Coverage, facts: seq<Fact>, offset: nat, end: nat, next: Option<nat>)

  /** One page of a read: at most `limit` facts from `offset`, shortened until its encoding fits. `bytes`
      measures the encoding of a page by its bounds. */
  method ReadPage(rows: seq<Fact>, reqs: seq<Requirement>, limit: nat, offset: int, bytes: (nat, nat) -> nat)
    returns (page: Option<Page>)
    requires |rows| <= 201
    ensures var (facts, most) := (if |rows| > 200 then rows[..200] else rows, if limit == 0 then 20 else limit);
            page.None? <==> most > 20 || offset < 0 || offset > |facts|
                            || forall e :: offset <= e <= |facts| && e <= offset + most ==> bytes(offset, e) > 24000
    ensures page.Some? ==>
              var (facts, most) := (if |rows| > 200 then rows[..200] else rows, if limit == 0 then 20 else limit);
              var p := page.value;
              && most <= 20 && p.offset == offset && offset <= p.end <= |facts| && p.end <= offset + most
              && p.facts == facts[offset..p.end] && bytes(p.offset, p.end) <= 24000
              && (forall e :: p.end < e <= |facts| && e <= offset + most ==> bytes(p.offset, e) > 24000)
              && p.coverage.status == StatusOf(p.facts, reqs, |rows| > 200 || offset > 0 || p.end < |facts|)
              && p.coverage.matched == MatchedOf(p.facts, reqs) && p.coverage.missing == MissingOf(p.facts, reqs)
              && p.coverage.conflicts == ConflictsOf(p.facts, reqs)
              && p.next == if offset < p.end < |facts| then Some(p.end) else None
  {
    var truncated := |rows| > 200;
    var facts := if truncated then rows[..200] else rows;
    var most := if limit == 0 then 20 else limit;
    if most > 20 || offset < 0 || offset > |facts| { return None; }
    var end := if offset + most < |facts| then offset + most else |facts|;
    while true
      invariant offset <= end <= |facts| && end <= offset + most
      invariant forall e :: end < e <= |facts| && e <= offset + most ==> bytes(offset, e) > 24000
      decreases end
    {
      var coverage := CoverageOf(reqs, facts[offset..end], truncated || offset > 0 || end < |facts|);
      if bytes(offset, end) <= 24000 {
        return Some(Page(coverage, facts[offset..end], offset, end,
                         if offset < end < |facts| then Some(end) else None));
      }
      if end == offset { return None; }
      end := end - 1;
    }
    return None;
  }

  /** FULL coverage is about the whole store, not the page: it comes only with a first page that holds every
      current fact asked for, and then each requirement has one value among all current facts, whose every
      transitive input is stored, in scope and without a conflicting peer. */
  lemma FullMeansComplete(s: Store, c: Scope, reqs: seq<Requirement>, rows: seq<Fact>, facts: seq<Fact>, offset: nat,
                          end: nat)
    requires WellFormed(s) && Reads(s, c, Asked(reqs), rows)
    requires facts == (if |rows| > 200 then rows[..200] else rows) && offset <= end <= |facts|
    requires StatusOf(facts[offset..end], reqs, |rows| > 200 || offset > 0 || end < |facts|) == Full
    ensures offset == 0 && end == |rows| && facts == rows
    ensures forall r :: r in reqs ==> r.kind.Scalar? && OneAnswer(s, c, r)
    ensures forall f :: f in rows ==> WhollyInScope(s, c, f)
  {
    FullIsWhole(reqs, rows, facts, offset, end);
    forall f | f in rows ensures WhollyInScope(s, c, f) {
      ReadIsWhollyInScope(s, c, f);
    }
    forall r | r in reqs ensures OneAnswer(s, c, r) {
      OneAnswerAmongAll(s, c, reqs, rows, r);
    }
  }

  lemma FullIsWhole(reqs: seq<Requirement>, rows: seq<Fact>, facts: seq<Fact>, offset: nat, end: nat)
    requires facts == (if |rows| > 200 then rows[..200] else rows) && offset <= end <= |facts|
    requires StatusOf(facts[offset..end], reqs, |rows| > 200 || offset > 0 || end < |facts|) == Full
    ensures offset == 0 && end == |rows| && facts == rows && AllAnswered(rows, reqs)
  {
    assert facts[0..|facts|] == facts;
  }

  /** The fact and every transitive input are stored and in scope, and no input has a conflicting peer. */
  ghost predicate WhollyInScope(s: Store, c: Scope, f: Fact)
    requires WellFormed(s)
  {
    && f.id in s.rows && InScope(s, c, f.id)
    && forall x :: Reaches(s.edges, f.id, x) ==> x in s.rows && InScope(s, c, x) && !Conflicted(s, c, x)
  }

  lemma ReadIsWhollyInScope(s: Store, c: Scope, f: Fact)
    requires WellFormed(s) && Current(s, c, f.id)
    ensures WhollyInScope(s, c, f)
  {
    forall x | Reaches(s.edges, f.id, x) ensures x in s.rows && InScope(s, c, x) && !Conflicted(s, c, x) {
      InputsAreStored(s, f.id, x);
    }
  }

  /** Some current fact answers the requirement, and all current facts that answer it agree. */
  ghost predicate OneAnswer(s: Store, c: Scope, r: Requirement)
    requires WellFormed(s)
  {
    exists f :: Current(s, c, f) && Matches(s.rows[f].fact, r)
                && forall g ::
                     Current(s, c, g) && Matches(s.rows[g].fact, r) ==> s.rows[g].fact.value == s.rows[f].fact.value
  }

  lemma OneAnswerAmongAll(s: Store, c: Scope, reqs: seq<Requirement>, rows: seq<Fact>, r: Requirement)
    requires WellFormed(s) && Reads(s, c, Asked(reqs), rows) && |rows| <= 200 && r in reqs && Answered(rows, r)
    ensures OneAnswer(s, c, r)
  {
    var v :| ValuesFor(rows, r) == {v};
    assert v in ValuesFor(rows, r);
    var f :| f in rows && Matches(f, r) && f.value == v;
    var i :| 0 <= i < |reqs| && reqs[i] == r;
    forall g | Current(s, c, g) && Matches(s.rows[g].fact, r) ensures s.rows[g].fact.value == v {
      assert Wanted(s.rows[g].fact, reqs) && s.rows[g].fact in rows;
      assert s.rows[g].fact.value in ValuesFor(rows, r);
    }
  }

  // ------------------------------------------------------------------------ reuse

  function IdSet(fs: seq<Fact>): set<Id> { set f | f in fs :: f.id }

  predicate DistinctIds(fs: seq<Fact>) { forall i, k :: 0 <= i < k < |fs| ==> fs[i].id != fs[k].id }

  lemma {:induction false} IdCount(fs: seq<Fact>)
    ensures |IdSet(fs)| <= |fs| && (|IdSet(fs)| == |fs| <==> DistinctIds(fs))
  {
    if fs != [] {
      var front, last := fs[..|fs| - 1], fs[|fs| - 1];
      IdCount(front);
      assert fs == front + [last];
      assert IdSet(fs) == IdSet(front) + {last.id};
      if last.id in IdSet(front) {
        var f :| f in front && f.id == last.id;
        var i :| 0 <= i < |front| && front[i] == f;
        assert fs[i].id == fs[|fs| - 1].id;
      }
    }
  }

  lemma SubsetCount(a: set<Id>, b: set<Id>)
    requires a <= b
    ensures |a| <= |b| && (|a| == |b| ==> a == b)
  {
    assert b == a + (b - a);
  }

  /** What the answer recorded of a fact is still what the store says. */
  predicate Unchanged(f: Fact, g: Fact) {
    g.id == f.id && g.report == f.report && g.version == f.version && g.value == f.value && g.unit == f.unit
  }

  function ScalarOf(f: Fact): Requirement { Requirement(f.entity, f.concept, f.period, f.unit, f.scope, Scalar) }

  /** Every reused fact is current and unchanged, named once, and no current fact answers its question otherwise. */
  ghost predicate ReuseOk(s: Store, c: Scope, reused: seq<Fact>)
    requires WellFormed(s)
  {
    && |reused| <= 20 && DistinctIds(reused)
    && (forall f :: f in reused ==> Current(s, c, f.id) && Unchanged(f, s.rows[f.id].fact)) && AllDecided(s, c, reused)
  }

  /** `current` holds exactly the stored facts of the reused ids. */
  ghost predicate Stored(s: Store, reused: seq<Fact>, current: seq<Fact>)
    requires WellFormed(s)
  {
    && (forall f :: f in reused ==> f.id in s.rows && s.rows[f.id].fact in current)
    && (forall g :: g in current ==> exists f :: f in reused && f.id in s.rows && g == s.rows[f.id].fact)
  }

  /** Reading exactly the reused ids finds as many facts as ids only if all are current and named once. */
  lemma AllFound(s: Store, c: Scope, reused: seq<Fact>, current: seq<Fact>)
    requires WellFormed(s) && Reads(s, c, NamedIn(IdSet(reused)), current) && |current| == |reused|
    ensures DistinctIds(reused) && Stored(s, reused, current) && forall f :: f in reused ==> Current(s, c, f.id)
  {
    IdCount(reused);
    IdCount(current);
    assert IdSet(current) <= IdSet(reused);
    SubsetCount(IdSet(current), IdSet(reused));
    forall f | f in reused ensures Current(s, c, f.id) && s.rows[f.id].fact in current {
      assert f.id in IdSet(current);
      var g :| g in current && g.id == f.id;
    }
    forall g | g in current ensures exists f :: f in reused && f.id in s.rows && g == s.rows[f.id].fact {
      assert g.id in IdSet(reused);
      var f :| f in reused && f.id == g.id;
    }
  }

  lemma NoneMissing(s: Store, c: Scope, reused: seq<Fact>, current: seq<Fact>)
    requires WellFormed(s) && |reused| <= 20 && Reads(s, c, NamedIn(IdSet(reused)), current)
    requires DistinctIds(reused) && forall f :: f in reused ==> Current(s, c, f.id)
    ensures |current| == |reused|
  {
    IdCount(reused);
    IdCount(current);
    assert DistinctIds(current) && IdSet(current) <= IdSet(reused);
    SubsetCount(IdSet(current), IdSet(reused));
    forall id | id in IdSet(reused) ensures id in IdSet(current) {
      var f :| f in reused && f.id == id;
      assert Current(s, c, id) && NamedIn(IdSet(reused))(s.rows[id].fact);
      assert s.rows[id].fact in current;
    }
    assert IdSet(current) == IdSet(reused);
  }

  /** The stored facts of the reused ids, if each is current and named once. */
  method ReadReused(s: Store, c: Scope, reused: seq<Fact>) returns (found: bool, current: seq<Fact>)
    requires WellFormed(s) && |reused| <= 20
    ensures found <==> DistinctIds(reused) && forall f :: f in reused ==> Current(s, c, f.id)
    ensures found ==> Stored(s, reused, current)
  {
    current := ReadFacts(s, c, NamedIn(IdSet(reused)));
    found := |current| == |reused|;
    if found {
      AllFound(s, c, reused, current);
    } else if DistinctIds(reused) && forall f :: f in reused ==> Current(s, c, f.id) {
      NoneMissing(s, c, reused, current);
    }
  }

  /** The last check before an answer commits. It refuses exactly what ReuseOk rules out, and any reuse on whose
      questions more than 200 current facts bear. */
  method ValidateReuse(s: Store, c: Scope, reused: seq<Fact>) returns (ok: bool)
    requires WellFormed(s)
    ensures ok <==> reused == [] || (ReuseOk(s, c, reused) && |Bearing(s, c, reused)| <= 200)
  {
    if |reused| == 0 { return true; }
    if |reused| > 20 { return false; }
    var found, current := ReadReused(s, c, reused);
    if !found { return false; }
    var decided := StillDecided(s, c, reused, current);
    if !decided { return false; }
    ok := ContentUnchanged(s, reused, current);
  }

  method ContentUnchanged(s: Store, reused: seq<Fact>, current: seq<Fact>) returns (same: bool)
    requires WellFormed(s) && Stored(s, reused, current)
    ensures same <==> forall f :: f in reused ==> Unchanged(f, s.rows[f.id].fact)
  {
    for n := 0 to |reused|
      invariant forall i :: 0 <= i < n ==> Unchanged(reused[i], s.rows[reused[i].id].fact)
    {
      var found := FindUnchanged(s, reused, current, n);
      if !found {
        assert reused[n] in reused;
        return false;
      }
    }
    return true;
  }

  /** The fact answers the question of some reused fact. */
  ghost predicate Bears(s: Store, reused: seq<Fact>, f: Fact)
    requires WellFormed(s)
  {
    exists g :: g in reused && g.id in s.rows && Matches(f, ScalarOf(s.rows[g.id].fact))
  }

  /** The current facts that answer the question of some reused fact. */
  ghost function Bearing(s: Store, c: Scope, reused: seq<Fact>): set<Id>
    requires WellFormed(s)
  {
    set id | id in s.rows && Current(s, c, id) && Bears(s, reused, s.rows[id].fact)
  }

  method FindUnchanged(s: Store, reused: seq<Fact>, current: seq<Fact>, n: nat) returns (found: bool)
    requires WellFormed(s) && Stored(s, reused, current) && n < |reused|
    ensures found <==> Unchanged(reused[n], s.rows[reused[n].id].fact)
  {
    var expected := reused[n];
    assert expected in reused;
    found := false;
    for k := 0 to |current|
      invariant !found && forall i :: 0 <= i < k ==> !Unchanged(expected, current[i])
    {
      if Unchanged(expected, current[k]) {
        assert current[k] in current;
        return true;
      }
    }
  }

  /** Re-read everything that bears on the reused facts' questions and check that each still has one answer. */
  method StillDecided(s: Store, c: Scope, reused: seq<Fact>, current: seq<Fact>) returns (decided: bool)
    requires WellFormed(s) && reused != [] && Stored(s, reused, current)
    ensures decided <==> |Bearing(s, c, reused)| <= 200 && AllDecided(s, c, reused)
  {
    assert reused[0] in reused;
    var requirements := RequirementsOf(current);
    var all := ReadFacts(s, c, Asked(requirements));
    var coverage := CoverageOf(requirements, all, |all| > 200);
    decided := coverage.status.Full?;
    FullMeansDecided(s, c, reused, current, requirements, all);
    BearingIsAsked(s, c, reused, current, requirements);
    ReadCounts(s, c, Asked(requirements), all);
  }

  /** A read runs into its limit exactly if there are more than 200 facts to read. */
  lemma ReadCounts(s: Store, c: Scope, wanted: Fact -> bool, fs: seq<Fact>)
    requires WellFormed(s) && Reads(s, c, wanted, fs)
    ensures |fs| <= 200 <==> |Hits(s, c, wanted)| <= 200
  {
    IdCount(fs);
    assert DistinctIds(fs) && IdSet(fs) <= Hits(s, c, wanted);
    SubsetCount(IdSet(fs), Hits(s, c, wanted));
    if |fs| <= 200 {
      forall id | id in Hits(s, c, wanted) ensures id in IdSet(fs) {
        assert s.rows[id].fact in fs;
      }
      assert IdSet(fs) == Hits(s, c, wanted);
    }
  }

  lemma BearingIsAsked(s: Store, c: Scope, reused: seq<Fact>, current: seq<Fact>, reqs: seq<Requirement>)
    requires WellFormed(s) && Stored(s, reused, current) && QuestionsOf(reqs, current)
    ensures Bearing(s, c, reused) == Hits(s, c, Asked(reqs))
  {
    forall f ensures Bears(s, reused, f) <==> Wanted(f, reqs) {
      BearsIsWanted(s, reused, current, reqs, f);
    }
  }

  lemma BearsIsWanted(s: Store, reused: seq<Fact>, current: seq<Fact>, reqs: seq<Requirement>, f: Fact)
    requires WellFormed(s) && Stored(s, reused, current) && QuestionsOf(reqs, current)
    ensures Bears(s, reused, f) <==> Wanted(f, reqs)
  {
    if Bears(s, reused, f) {
      var g :| g in reused && g.id in s.rows && Matches(f, ScalarOf(s.rows[g.id].fact));
      assert s.rows[g.id].fact in current && ScalarOf(s.rows[g.id].fact) in reqs;
    }
    if Wanted(f, reqs) {
      var i :| 0 <= i < |reqs| && Matches(f, reqs[i]);
      assert reqs[i] in reqs;
      var h :| h in current && reqs[i] == ScalarOf(h);
      var g :| g in reused && g.id in s.rows && h == s.rows[g.id].fact;
    }
  }

  lemma FullMeansDecided(s: Store, c: Scope, reused: seq<Fact>, current: seq<Fact>, reqs: seq<Requirement>,
                         all: seq<Fact>)
    requires WellFormed(s) && Stored(s, reused, current) && reqs != [] && Reads(s, c, Asked(reqs), all)
    requires QuestionsOf(reqs, current)
    ensures StatusOf(all, reqs, |all| > 200) == Full <==> |all| <= 200 && AllDecided(s, c, reused)
  {
    FullMeansAllAnswered(all, reqs, |all| > 200);
    SameQuestions(s, c, reused, current, reqs);
    if |all| <= 200 {
      assert forall r :: r in reqs ==> r.kind.Scalar?;
      CoverageDecides(s, c, reqs, all);
    }
  }

  lemma FullMeansAllAnswered(facts: seq<Fact>, reqs: seq<Requirement>, truncated: bool)
    ensures StatusOf(facts, reqs, truncated) == Full <==> reqs != [] && !truncated && AllAnswered(facts, reqs)
  {
  }

  predicate QuestionsOf(reqs: seq<Requirement>, facts: seq<Fact>) {
    (forall f :: f in facts ==> ScalarOf(f) in reqs)
      && (forall r :: r in reqs ==> exists f :: f in facts && r == ScalarOf(f))
  }

  ghost predicate EachAnswered(s: Store, c: Scope, reqs: seq<Requirement>)
    requires WellFormed(s)
  {
    forall r :: r in reqs ==> OneAnswer(s, c, r)
  }

  ghost predicate AllDecided(s: Store, c: Scope, reused: seq<Fact>)
    requires WellFormed(s) && forall f :: f in reused ==> f.id in s.rows
  {
    forall f :: f in reused ==> OneAnswer(s, c, ScalarOf(s.rows[f.id].fact))
  }

  /** One requirement per question, in order of first appearance. */
  method RequirementsOf(facts: seq<Fact>) returns (reqs: seq<Requirement>)
    ensures QuestionsOf(reqs, facts) && (facts != [] ==> reqs != [])
  {
    reqs := [];
    for n := 0 to |facts|
      invariant forall r :: r in reqs <==> exists i :: 0 <= i < n && r == ScalarOf(facts[i])
      invariant n > 0 ==> reqs != []
    {
      if ScalarOf(facts[n]) !in reqs { reqs := reqs + [ScalarOf(facts[n])]; }
    }
  }

  lemma SameQuestions(s: Store, c: Scope, reused: seq<Fact>, current: seq<Fact>, reqs: seq<Requirement>)
    requires WellFormed(s) && Stored(s, reused, current) && QuestionsOf(reqs, current)
    ensures EachAnswered(s, c, reqs) <==> AllDecided(s, c, reused)
  {
    forall f | f in reused ensures ScalarOf(s.rows[f.id].fact) in reqs {
      assert s.rows[f.id].fact in current;
    }
    forall r | r in reqs ensures exists f :: f in reused && r == ScalarOf(s.rows[f.id].fact) {
      var h :| h in current && r == ScalarOf(h);
      var g :| g in reused && g.id in s.rows && h == s.rows[g.id].fact;
    }
  }

  /** Within the scan limit, every question is answered by the facts read exactly if it has one answer in the store. */
  lemma CoverageDecides(s: Store, c: Scope, reqs: seq<Requirement>, all: seq<Fact>)
    requires WellFormed(s) && Reads(s, c, Asked(reqs), all) && |all| <= 200 && forall r :: r in reqs ==> r.kind.Scalar?
    ensures AllAnswered(all, reqs) <==> EachAnswered(s, c, reqs)
  {
    forall r | r in reqs ensures Answered(all, r) <==> OneAnswer(s, c, r) {
      if Answered(all, r) { OneAnswerAmongAll(s, c, reqs, all, r); }
      if OneAnswer(s, c, r) { AnsweredByAll(s, c, reqs, all, r); }
    }
  }

  lemma AnsweredByAll(s: Store, c: Scope, reqs: seq<Requirement>, rows: seq<Fact>, r: Requirement)
    requires WellFormed(s) && Reads(s, c, Asked(reqs), rows) && |rows| <= 200 && r in reqs && r.kind.Scalar?
             && OneAnswer(s, c, r)
    ensures Answered(rows, r)
  {
    var f :| Current(s, c, f) && Matches(s.rows[f].fact, r)
      && forall g :: Current(s, c, g) && Matches(s.rows[g].fact, r) ==> s.rows[g].fact.value == s.rows[f].fact.value;
    var i :| 0 <= i < |reqs| && reqs[i] == r;
    assert Wanted(s.rows[f].fact, reqs) && s.rows[f].fact in rows;
    assert s.rows[f].fact.value in ValuesFor(rows, r);
    forall v | v in ValuesFor(rows, r) ensures v == s.rows[f].fact.value {
      var h :| h in rows && Matches(h, r) && h.value == v;
      assert Current(s, c, h.id) && s.rows[h.id].fact == h;
    }
    assert ValuesFor(rows, r) == {s.rows[f].fact.value};
  }

  // ---------------------------------------------------------------- the scan limit

  /** Ten documents report the same twenty values, and one value is also derived: 201 facts, the last of them
      derived. */
  function CrowdFact(id: Id): Fact { Fact(id, 0, Question(id), 0, 0, 0, 0, Question(id), Document(id), id) }

  function Question(id: Id): (q: Id)
    ensures q < 20 && (id < 20 ==> q == id)
  {
    id % 20
  }

  function Document(id: Id): (d: Id)
    ensures d < 10
  {
    id / 20 % 10
  }

  lemma {:induction false} FirstNumbers(n: nat) returns (ids: set<Id>)
    ensures |ids| == n && forall id: nat :: id in ids <==> id < n
  {
    if n == 0 {
      ids := {};
    } else {
      var fewer := FirstNumbers(n - 1);
      ids := fewer + {n - 1};
    }
  }

  ghost predicate Crowd(s: Store, c: Scope) {
    && (forall id: nat :: id in s.rows <==> id < 201)
    && (forall id: nat :: id < 201 ==> s.rows[id] == Row(CrowdFact(id), 0, 0, false))
    && (forall v: nat :: v in s.versions <==> v < 10)
    && (forall v :: v in s.versions ==> s.versions[v] == Version(0, false, true, true))
    && s.edges == {(200, 1)} && c.tenant == 0 && c.config == 0 && (forall v: nat :: v in c.versions <==> v < 10)
  }

  lemma CrowdInScope(s: Store, c: Scope)
    requires Crowd(s, c)
    ensures WellFormed(s) && forall id :: id in s.rows ==> InScope(s, c, id)
  {
  }

  lemma CrowdIsCurrent(s: Store, c: Scope, id: Id)
    requires Crowd(s, c) && id < 201
    ensures WellFormed(s) && Current(s, c, id)
  {
    CrowdInScope(s, c);
    forall x | Reaches(s.edges, id, x) ensures x == 1 {
      OneEdge(id, x);
    }
    assert !Conflicted(s, c, 1);
  }

  lemma OneEdge(id: Id, x: Id)
    requires Reaches({(200, 1)}, id, x)
    ensures id == 200 && x == 1
  {
    var p :| Path({(200, 1)}, p) && p[0] == id && p[|p| - 1] == x;
    assert (p[0], p[0 + 1]) in {(200, 1)};
    assert (p[|p| - 2], p[|p| - 2 + 1]) in {(200, 1)};
  }

  ghost predicate CrowdReuse(reused: seq<Fact>) {
    |reused| == 20 && forall i: nat :: i < 20 ==> reused[i] == CrowdFact(i)
  }

  lemma CrowdBears(s: Store, c: Scope, reused: seq<Fact>, id: Id)
    requires Crowd(s, c) && CrowdReuse(reused) && id < 201 && WellFormed(s)
    ensures Bears(s, reused, s.rows[id].fact)
  {
    var g := reused[Question(id)];
    assert g in reused && g.id in s.rows && s.rows[g.id].fact == g;
  }

  lemma CrowdAgrees(s: Store, c: Scope, id: Id)
    requires Crowd(s, c) && id < 20
    ensures WellFormed(s) && OneAnswer(s, c, ScalarOf(s.rows[id].fact))
  {
    CrowdIsCurrent(s, c, id);
    var r := ScalarOf(s.rows[id].fact);
    forall g | Current(s, c, g) && Matches(s.rows[g].fact, r) ensures s.rows[g].fact.value == s.rows[id].fact.value {
      assert s.rows[g] == Row(CrowdFact(g), 0, 0, false);
    }
    assert Matches(s.rows[id].fact, r);
  }

  lemma CrowdReuseIsOk(s: Store, c: Scope, reused: seq<Fact>)
    requires Crowd(s, c) && CrowdReuse(reused)
    ensures WellFormed(s) && ReuseOk(s, c, reused)
  {
    CrowdInScope(s, c);
    forall f | f in reused
      ensures f.id in s.rows && Current(s, c, f.id) && Unchanged(f, s.rows[f.id].fact)
              && OneAnswer(s, c, ScalarOf(s.rows[f.id].fact))
    {
      var i: nat :| i < 20 && reused[i] == f;
      CrowdIsCurrent(s, c, i);
      CrowdAgrees(s, c, i);
    }
  }

  /** The limit is a real refusal: twenty current, unchanged and undisputed facts on whose questions 201 facts bear. */
  lemma CrowdedReuseIsRefused() returns (s: Store, c: Scope, reused: seq<Fact>)
    ensures WellFormed(s) && |c.versions| == 10 && |reused| == 20 && ReuseOk(s, c, reused)
            && |Bearing(s, c, reused)| == 201
  {
    var ids := FirstNumbers(201);
    var docs := FirstNumbers(10);
    s := Store(map id | id in ids :: Row(CrowdFact(id), 0, 0, false),
               map v | v in docs :: Version(0, false, true, true), {(200, 1)});
    c := Scope(0, docs, 0, false);
    reused := seq(20, i requires 0 <= i < 20 => CrowdFact(i));
    CrowdReuseIsOk(s, c, reused);
    forall id: nat | id < 201 ensures Current(s, c, id) && Bears(s, reused, s.rows[id].fact) {
      CrowdIsCurrent(s, c, id);
      CrowdBears(s, c, reused, id);
    }
    assert Bearing(s, c, reused) == ids;
  }
}
