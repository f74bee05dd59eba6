/** The renderer over real sources: what a supported answer item rests on when its claims were judged by the
    validator. */
module Release {
  import opened Types
  import opened Answer
  import Validator

  /** The regions observed for this answer, and what a claim and its requirement mean to the validator. */
  datatype Reading = Reading(sources: map<Id, Validator.Source>, quoted: Claim -> Validator.Candidate,
                             entity: Facts.Requirement -> Id, concept: Facts.Requirement -> Validator.Concept)

  /** The claim's region was observed, and its text proves the claimed value. */
  ghost predicate Proved(s: Reading, c: Claim) {
    c.region in s.sources && Validator.Proves(s.sources[c.region], s.quoted(c), s.entity(c.key), s.concept(c.key))
  }

  /** The renderer's judge is the validator, run on the regions that were read for this answer. */
  ghost predicate Judged(g: Given, s: Reading, claims: seq<Claim>) {
    g.regions == s.sources.Keys
      && forall c :: c in claims && c.region in s.sources ==> (g.judge(c).Supports? <==> Proved(s, c))
  }

  /** Run the validator on a claim of an observed region. */
  method JudgeClaim(s: Reading, c: Claim, code: Validator.Why -> Id) returns (j: Judgement)
    requires c.region in s.sources && Validator.Lexed(s.sources[c.region])
    ensures j.Supports? <==> Proved(s, c)
  {
    var outcome := Validator.SemanticSource(s.quoted(c), s.sources[c.region], s.entity(c.key), s.concept(c.key));
    if outcome.ValidatedValue? { return Supports; }
    return Doubts([code(outcome.reason)]);
  }

  /** A supported item rests on evidence: every claim with a proof and every matching fact gives its value, and there is
      one of the two. Without a fact the value is proved by an observed region. */
  lemma SupportedMeansProved(g: Given, s: Reading, d: Draft, item: Item)
    requires Judged(g, s, d.claims) && !Refusable(g, d) && ItemOk(g, d.claims, item) && item.supported
    ensures forall c :: c in d.claims && c.key == item.requirement && Proved(s, c) ==> g.canon(c.value) == item.value
    ensures forall f :: f in g.facts && Facts.Matches(f, item.requirement) ==> g.canon(f.value) == item.value
    ensures item.origin.ValidatedFact? <==> exists f :: f in g.facts && Facts.Matches(f, item.requirement)
    ensures item.origin.ObservedSource? ==>
              exists c :: c in d.claims && c.key == item.requirement && g.canon(c.value) == item.value && Proved(s, c)
  {
    var v := item.value.value;
    forall c | c in d.claims && c.key == item.requirement && Proved(s, c) ensures g.canon(c.value) == Some(v) {
      assert !BadClaim(g, c);
      assert g.canon(c.value).value in ClaimValues(g, d.claims, item.requirement);
    }
    forall f | f in g.facts && Facts.Matches(f, item.requirement)
      ensures g.canon(f.value) == Some(v) && FactValues(g, item.requirement) != {}
    {
      assert !BadFact(g, f);
      assert g.canon(f.value).value in FactValues(g, item.requirement);
    }
    if item.origin.ObservedSource? {
      assert v in ClaimValues(g, d.claims, item.requirement);
      var c :| c in d.claims && c.key == item.requirement && g.judge(c).Supports? && g.canon(c.value) == Some(v);
      assert !BadClaim(g, c);
    }
  }

  /** And the other way: a requirement stays inconclusive exactly if nothing proves a value for it, or if proofs and
      facts disagree. */
  lemma UnsupportedMeansUnproved(g: Given, s: Reading, d: Draft, item: Item)
    requires Judged(g, s, d.claims) && !Refusable(g, d) && ItemOk(g, d.claims, item)
    ensures !item.supported <==>
            (forall v :: !Gives(g, s, d, item.requirement, v))
              || (exists v, w :: v != w && Gives(g, s, d, item.requirement, v) && Gives(g, s, d, item.requirement, w))
  {
    var values := Values(g, d.claims, item.requirement);
    forall v ensures v in values <==> Gives(g, s, d, item.requirement, v) {
      ValuesAreGiven(g, s, d, item.requirement, v);
    }
    if v :| v in values {
      if w :| w in values && w != v {
      } else {
        assert values == {v};
      }
    }
  }

  /** Some matching fact, or some proved claim, gives the requirement this value. */
  ghost predicate Gives(g: Given, s: Reading, d: Draft, r: Facts.Requirement, v: Id) {
    || (exists f :: f in g.facts && Facts.Matches(f, r) && g.canon(f.value) == Some(v))
    || (exists c :: c in d.claims && c.key == r && g.canon(c.value) == Some(v) && Proved(s, c))
  }

  lemma ValuesAreGiven(g: Given, s: Reading, d: Draft, r: Facts.Requirement, v: Id)
    requires Judged(g, s, d.claims) && !Refusable(g, d)
    ensures v in Values(g, d.claims, r) <==> Gives(g, s, d, r, v)
  {
    if v in ClaimValues(g, d.claims, r) {
      var c :| c in d.claims && c.key == r && g.judge(c).Supports? && g.canon(c.value) == Some(v);
      assert !BadClaim(g, c) && Proved(s, c);
    }
    if c :| c in d.claims && c.key == r && g.canon(c.value) == Some(v) && Proved(s, c) {
      assert g.judge(c).Supports?;
    }
  }
}
