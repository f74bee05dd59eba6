/** Rendering the final answer: each requirement is supported exactly when the validated evidence agrees on one
    value for it, and nothing outside the question gets in. */
module Answer {
  import opened Types
  import opened Facts

  /** A claim of the runtime about one requirement. `legible` stands for its length and number-format limits. */
  datatype Claim = Claim(key: Requirement, region: Id, value: Id, legible: bool)

  datatype AbstainReason = Insufficient | Ambiguous | OtherText

  datatype Abstention = Abstention(key: Requirement, reason: AbstainReason)

  datatype Draft = Draft(claims: seq<Claim>, abstentions: seq<Abstention>)

  /** What the source validator says of a claim. */
  datatype Judgement = Supports | Doubts(codes: seq<Id>)

  datatype Why = Doubt(code: Id) | ConflictingEvidence | NoSupportedClaim

  datatype Origin = NoOrigin | ValidatedFact | ObservedSource

  datatype Item = Item(requirement: Requirement, supported: bool, value: Option<Id>, origin: Origin, reasons: seq<Why>,
                       sources: seq<Id>)

  datatype Verdict = NotSupportedHere | AllSupported | PartlySupported | Inconclusive

  datatype Refusal = ClaimOutsideQuestion | ClaimInvalid | AbstentionOutsideQuestion | AbstentionInvalid
    | FactOutsideQuestion | InvalidFactValue | SourceNotObserved

  datatype Reply = Refused(reason: Refusal)
    | Rendered(verdict: Verdict, items: seq<Item>, used: seq<Fact>, regions: seq<Id>)

  /** What the renderer is given besides the draft: the question's requirements, the reused facts, the regions
      read for this answer, decimal parsing to canonical text, the validator, and a fact's own sources. */
  datatype Given = Given(reqs: seq<Requirement>, facts: seq<Fact>, regions: set<Id>, canon: Id -> Option<Id>,
                         judge: Claim -> Judgement, leaves: Fact -> seq<Id>)

  // ----------------------------------------------------------------- specification

  function FactValues(g: Given, r: Requirement): set<Id> {
    set f | f in g.facts && Matches(f, r) && g.canon(f.value).Some? :: g.canon(f.value).value
  }

  function ClaimValues(g: Given, claims: seq<Claim>, r: Requirement): set<Id> {
    set c | c in claims && c.key == r && g.judge(c).Supports? && g.canon(c.value).Some? :: g.canon(c.value).value
  }

  /** The distinct values that facts and validated claims give a requirement. */
  function Values(g: Given, claims: seq<Claim>, r: Requirement): set<Id> {
    FactValues(g, r) + ClaimValues(g, claims, r)
  }

  /** The sources of a requirement's facts, then the regions of its validated claims, in order. */
  function FactSources(g: Given, facts: seq<Fact>, r: Requirement): seq<Id> {
    if facts == [] then [] else
    var last := facts[|facts| - 1];
    FactSources(g, facts[..|facts| - 1], r) + if Matches(last, r) then g.leaves(last) else []
  }

  function ClaimSources(g: Given, claims: seq<Claim>, r: Requirement): seq<Id> {
    if claims == [] then [] else
    var last := claims[|claims| - 1];
    ClaimSources(g, claims[..|claims| - 1], r) + if last.key == r && g.judge(last).Supports? then [last.region] else []
  }

  function Listed(codes: seq<Id>): seq<Why> { seq(|codes|, i requires 0 <= i < |codes| => Doubt(codes[i])) }

  /** What the validator held against the requirement's other claims, in order. */
  function ClaimDoubts(g: Given, claims: seq<Claim>, r: Requirement): seq<Why> {
    if claims == [] then [] else
    var last := claims[|claims| - 1];
    ClaimDoubts(g, claims[..|claims| - 1], r)
      + if last.key == r && g.judge(last).Doubts? then Listed(g.judge(last).codes) else []
  }

  predicate BadClaim(g: Given, c: Claim) {
    c.key !in g.reqs || !c.legible || g.canon(c.value).None? || c.region !in g.regions
  }

  predicate BadAbstention(g: Given, a: Abstention) { a.key !in g.reqs || a.reason.OtherText? }

  predicate BadFact(g: Given, f: Fact) { !Wanted(f, g.reqs) || g.canon(f.value).None? }

  /** Anything outside the question, malformed, or not read for this answer refuses the whole draft. */
  predicate Refusable(g: Given, d: Draft) {
    || (exists c :: c in d.claims && BadClaim(g, c))
    || (exists a :: a in d.abstentions && BadAbstention(g, a))
    || (exists f :: f in g.facts && BadFact(g, f))
  }

  ghost predicate Single(values: set<Id>) { exists v :: values == {v} }

  ghost predicate ItemOk(g: Given, claims: seq<Claim>, item: Item) {
    var values := Values(g, claims, item.requirement);
    && (item.supported <==> Single(values))
    && (item.supported ==> item.value.Some? && values == {item.value.value})
    && (!item.supported ==> item.value.None? && item.sources == [] && item.origin.NoOrigin?)
    && (item.supported ==>
          (item.origin.ValidatedFact? <==> FactValues(g, item.requirement) != {}) && !item.origin.NoOrigin?)
    && (item.supported ==>
          item.sources == FactSources(g, g.facts, item.requirement) + ClaimSources(g, claims, item.requirement))
    && var doubts := ClaimDoubts(g, claims, item.requirement);
    item.reasons == (if item.supported then doubts else if values != {} then doubts + [ConflictingEvidence]
                     else if doubts == [] then [NoSupportedClaim] else doubts)
  }

  function Supported(items: seq<Item>): nat {
    if items == [] then 0 else Supported(items[..|items| - 1]) + if items[|items| - 1].supported then 1 else 0
  }

  lemma {:induction false} SupportedCounts(items: seq<Item>)
    ensures Supported(items) <= |items|
    ensures Supported(items) == |items| <==> forall i :: 0 <= i < |items| ==> items[i].supported
    ensures Supported(items) == 0 <==> forall i :: 0 <= i < |items| ==> !items[i].supported
  {
    if items != [] { SupportedCounts(items[..|items| - 1]); }
  }

  ghost predicate VerdictOk(items: seq<Item>, v: Verdict) {
    && (v.NotSupportedHere? <==> items == [])
    && (v.AllSupported? <==> items != [] && forall i :: 0 <= i < |items| ==> items[i].supported)
    && (v.Inconclusive? <==> items != [] && forall i :: 0 <= i < |items| ==> !items[i].supported)
  }

  // ---------------------------------------------------------------------- rendering

  /** The facts of one requirement: their values, and their sources in order. */
  method GatherFacts(g: Given, r: Requirement) returns (values: set<Id>, sources: seq<Id>, matching: seq<Fact>)
    requires forall f :: f in g.facts ==> !BadFact(g, f)
    ensures values == FactValues(g, r) && forall f :: f in matching <==> f in g.facts && Matches(f, r)
    ensures matching == [] <==> values == {}
    ensures sources == FactSources(g, g.facts, r)
  {
    values, sources, matching := {}, [], [];
    for n := 0 to |g.facts|
      invariant forall v :: v in values
                  <==> exists i :: 0 <= i < n && Matches(g.facts[i], r) && g.canon(g.facts[i].value) == Some(v)
      invariant forall f :: f in matching <==> exists i :: 0 <= i < n && Matches(g.facts[i], r) && g.facts[i] == f
      invariant matching == [] <==> values == {}
      invariant sources == FactSources(g, g.facts[..n], r)
    {
      var f := g.facts[n];
      assert g.facts[..n + 1][..n] == g.facts[..n];
      if Matches(f, r) {
        assert !BadFact(g, f);
        values := values + {g.canon(f.value).value};
        assert g.canon(f.value).value in values;
        sources := sources + g.leaves(f);
        matching := matching + [f];
      }
    }
    assert g.facts[..|g.facts|] == g.facts;
  }

  method GatherClaims(g: Given, claims: seq<Claim>, r: Requirement)
    returns (values: set<Id>, sources: seq<Id>, doubts: seq<Why>)
    requires forall c :: c in claims ==> !BadClaim(g, c)
    ensures values == ClaimValues(g, claims, r) && sources == ClaimSources(g, claims, r)
            && doubts == ClaimDoubts(g, claims, r)
  {
    values, sources, doubts := {}, [], [];
    for n := 0 to |claims|
      invariant forall v :: v in values
                  <==> exists i ::
                         0 <= i < n && claims[i].key == r && g.judge(claims[i]).Supports?
                           && g.canon(claims[i].value) == Some(v)
      invariant sources == ClaimSources(g, claims[..n], r) && doubts == ClaimDoubts(g, claims[..n], r)
    {
      var c := claims[n];
      assert claims[..n + 1][..n] == claims[..n];
      if c.key != r { continue; }
      assert !BadClaim(g, c);
      match g.judge(c) {
        case Doubts(codes) =>
          doubts := doubts + Listed(codes);
        case Supports =>
          values := values + {g.canon(c.value).value};
          sources := sources + [c.region];
      }
    }
    assert claims[..|claims|] == claims;
  }

  method RenderItem(g: Given, claims: seq<Claim>, r: Requirement) returns (item: Item, matching: seq<Fact>)
    requires (forall c :: c in claims ==> !BadClaim(g, c)) && forall f :: f in g.facts ==> !BadFact(g, f)
    ensures item.requirement == r && ItemOk(g, claims, item)
            && forall f :: f in matching <==> f in g.facts && Matches(f, r)
  {
    var factValues, factSources, candidates := GatherFacts(g, r);
    var claimValues, claimSources, doubts := GatherClaims(g, claims, r);
    matching := candidates;
    var values := factValues + claimValues;
    OneValue(values);
    if |values| == 1 {
      var v :| v in values;
      assert |values - {v}| == 0;
      assert values == {v};
      var origin := if |candidates| > 0 then ValidatedFact else ObservedSource;
      item := Item(r, true, Some(v), origin, doubts, factSources + claimSources);
    } else {
      if |values| > 1 { doubts := doubts + [ConflictingEvidence]; }
      if |doubts| == 0 { doubts := doubts + [NoSupportedClaim]; }
      item := Item(r, false, None, NoOrigin, doubts, []);
    }
  }

  /** The checks before rendering: every claim, abstention and fact belongs to the question. */
  method CheckDraft(g: Given, d: Draft) returns (refusal: Option<Refusal>)
    ensures refusal.Some? <==> Refusable(g, d)
  {
    for i := 0 to |d.claims|
      invariant forall k ::
                  0 <= k < i ==> d.claims[k].key in g.reqs && d.claims[k].legible && g.canon(d.claims[k].value).Some?
    {
      assert d.claims[i] in d.claims;
      if d.claims[i].key !in g.reqs { assert BadClaim(g, d.claims[i]); return Some(ClaimOutsideQuestion); }
      if !d.claims[i].legible || g.canon(d.claims[i].value).None? {
        assert BadClaim(g, d.claims[i]);
        return Some(ClaimInvalid);
      }
    }
    for i := 0 to |d.abstentions|
      invariant forall k :: 0 <= k < i ==> !BadAbstention(g, d.abstentions[k])
    {
      assert d.abstentions[i] in d.abstentions;
      if d.abstentions[i].key !in g.reqs {
        assert BadAbstention(g, d.abstentions[i]);
        return Some(AbstentionOutsideQuestion);
      }
      if d.abstentions[i].reason.OtherText? {
        assert BadAbstention(g, d.abstentions[i]);
        return Some(AbstentionInvalid);
      }
    }
    for i := 0 to |g.facts|
      invariant forall k :: 0 <= k < i ==> !BadFact(g, g.facts[k])
    {
      assert g.facts[i] in g.facts;
      if !Wanted(g.facts[i], g.reqs) { assert BadFact(g, g.facts[i]); return Some(FactOutsideQuestion); }
      if g.canon(g.facts[i].value).None? { assert BadFact(g, g.facts[i]); return Some(InvalidFactValue); }
    }
    for i := 0 to |d.claims|
      invariant forall k :: 0 <= k < i ==> d.claims[k].region in g.regions
    {
      assert d.claims[i] in d.claims;
      if d.claims[i].region !in g.regions { assert BadClaim(g, d.claims[i]); return Some(SourceNotObserved); }
    }
    return None;
  }

  /** The regions of supported items that were read for this answer, each once. */
  method AddRegions(g: Given, sources: seq<Id>, regions: seq<Id>) returns (more: seq<Id>)
    requires forall i, k :: 0 <= i < k < |regions| ==> regions[i] != regions[k]
    ensures forall i, k :: 0 <= i < k < |more| ==> more[i] != more[k]
    ensures forall x :: x in more <==> x in regions || (x in sources && x in g.regions)
  {
    more := regions;
    for n := 0 to |sources|
      invariant forall i, k :: 0 <= i < k < |more| ==> more[i] != more[k]
      invariant forall x :: x in more <==> x in regions || (x in sources[..n] && x in g.regions)
    {
      if sources[n] in g.regions && sources[n] !in more { more := more + [sources[n]]; }
    }
    assert sources[..|sources|] == sources;
  }

  /** One item per requirement so far, each as its evidence demands. */
  ghost predicate ItemsOk(g: Given, claims: seq<Claim>, items: seq<Item>) {
    |items| <= |g.reqs|
      && forall i :: 0 <= i < |items| ==> items[i].requirement == g.reqs[i] && ItemOk(g, claims, items[i])
  }

  predicate SupportsBy(item: Item, f: Fact) { item.supported && Matches(f, item.requirement) }

  /** The used facts are those of supported requirements. */
  ghost predicate UsedOk(g: Given, items: seq<Item>, used: seq<Fact>) {
    forall f :: f in used <==> f in g.facts && exists i :: 0 <= i < |items| && SupportsBy(items[i], f)
  }

  predicate CitedBy(item: Item, x: Id) { item.supported && x in item.sources }

  /** The cited regions are those of supported requirements that were read for this answer, each once. */
  ghost predicate RegionsOk(g: Given, items: seq<Item>, regions: seq<Id>) {
    && (forall i, k :: 0 <= i < k < |regions| ==> regions[i] != regions[k])
    && (forall x :: x in regions <==> x in g.regions && exists i :: 0 <= i < |items| && CitedBy(items[i], x))
  }

  lemma UsedGrows(g: Given, items: seq<Item>, used: seq<Fact>, item: Item, matching: seq<Fact>)
    requires UsedOk(g, items, used) && forall f :: f in matching <==> f in g.facts && Matches(f, item.requirement)
    ensures UsedOk(g, items + [item], if item.supported then used + matching else used)
  {
    var more := items + [item];
    assert more[|items|] == item;
    forall f
      ensures (exists i :: 0 <= i < |more| && SupportsBy(more[i], f))
              <==> (exists i :: 0 <= i < |items| && SupportsBy(items[i], f)) || SupportsBy(item, f)
    {
      if i :| 0 <= i < |items| && SupportsBy(items[i], f) { assert SupportsBy(more[i], f); }
      if SupportsBy(item, f) { assert SupportsBy(more[|items|], f); }
    }
  }

  lemma RegionsGrow(g: Given, items: seq<Item>, regions: seq<Id>, item: Item, more: seq<Id>)
    requires RegionsOk(g, items, regions) && forall i, k :: 0 <= i < k < |more| ==> more[i] != more[k]
    requires forall x :: x in more <==> x in regions || (item.supported && x in item.sources && x in g.regions)
    ensures RegionsOk(g, items + [item], more)
  {
    var all := items + [item];
    assert all[|items|] == item;
    forall x
      ensures (exists i :: 0 <= i < |all| && CitedBy(all[i], x))
              <==> (exists i :: 0 <= i < |items| && CitedBy(items[i], x)) || CitedBy(item, x)
    {
      if i :| 0 <= i < |items| && CitedBy(items[i], x) { assert CitedBy(all[i], x); }
      if CitedBy(item, x) { assert CitedBy(all[|items|], x); }
    }
  }

  lemma {:induction false} ItemsGrow(g: Given, claims: seq<Claim>, items: seq<Item>, item: Item)
    requires ItemsOk(g, claims, items) && |items| < |g.reqs| && item.requirement == g.reqs[|items|]
             && ItemOk(g, claims, item)
    ensures ItemsOk(g, claims, items + [item])
            && Supported(items + [item]) == Supported(items) + if item.supported then 1 else 0
  {
    var more := items + [item];
    assert more[..|items|] == items;
    forall i | 0 <= i < |more| ensures more[i].requirement == g.reqs[i] && ItemOk(g, claims, more[i]) {
      assert more[i] == if i < |items| then items[i] else item;
    }
  }

  /** The verdict follows from the count of supported requirements. */
  method Conclude(items: seq<Item>, accepted: nat) returns (verdict: Verdict)
    requires accepted == Supported(items)
    ensures VerdictOk(items, verdict)
  {
    SupportedCounts(items);
    verdict := Verdict.Inconclusive;
    if |items| == 0 {
      verdict := NotSupportedHere;
    } else if accepted == |items| {
      verdict := AllSupported;
    } else if accepted > 0 {
      verdict := PartlySupported;
    }
  }

  method Render(g: Given, d: Draft) returns (reply: Reply)
    ensures reply.Refused? <==> Refusable(g, d)
    ensures reply.Rendered? ==>
              && |reply.items| == |g.reqs| && ItemsOk(g, d.claims, reply.items) && VerdictOk(reply.items, reply.verdict)
              && UsedOk(g, reply.items, reply.used) && RegionsOk(g, reply.items, reply.regions)
  {
    var refusal := CheckDraft(g, d);
    if refusal.Some? { return Refused(refusal.value); }
    var items, used, regions, accepted := [], [], [], 0;
    for n := 0 to |g.reqs|
      invariant |items| == n && accepted == Supported(items) && ItemsOk(g, d.claims, items)
      invariant UsedOk(g, items, used) && RegionsOk(g, items, regions)
    {
      var item, matching := RenderItem(g, d.claims, g.reqs[n]);
      ItemsGrow(g, d.claims, items, item);
      UsedGrows(g, items, used, item, matching);
      var more := regions;
      if item.supported {
        accepted := accepted + 1;
        used := used + matching;
        more := AddRegions(g, item.sources, regions);
      }
      RegionsGrow(g, items, regions, item, more);
      items, regions := items + [item], more;
    }
    var verdict := Conclude(items, accepted);
    return Rendered(verdict, items, used, regions);
  }

  // ------------------------------------------------------------------ independence

  /** The same question, and the same claims, abstentions and facts, in any order and number. */
  ghost predicate SameEvidence(g: Given, d: Draft, h: Given, e: Draft) {
    && h == g.(facts := h.facts) && (forall f :: f in g.facts <==> f in h.facts)
    && (forall c :: c in d.claims <==> c in e.claims) && (forall a :: a in d.abstentions <==> a in e.abstentions)
  }

  lemma SameValues(g: Given, d: Draft, h: Given, e: Draft, r: Requirement)
    requires SameEvidence(g, d, h, e)
    ensures FactValues(g, r) == FactValues(h, r) && ClaimValues(g, d.claims, r) == ClaimValues(h, e.claims, r)
  {
  }

  /** Neither order nor repetition of claims, abstentions and facts changes whether a draft is refused, the verdict,
      or the status, value and origin of any requirement. */
  lemma OrderAndRepetitionDoNotMatter(g: Given, d: Draft, h: Given, e: Draft, items: seq<Item>, others: seq<Item>,
                                      v: Verdict, w: Verdict)
    requires SameEvidence(g, d, h, e)
    requires ItemsOk(g, d.claims, items) && VerdictOk(items, v) && ItemsOk(h, e.claims, others) && VerdictOk(others, w)
             && |items| == |others|
    ensures Refusable(g, d) <==> Refusable(h, e)
    ensures v == w
    ensures forall i :: 0 <= i < |items| ==>
              items[i].supported == others[i].supported && items[i].value == others[i].value
                && items[i].origin == others[i].origin
  {
    SameRefusal(g, d, h, e);
    forall i | 0 <= i < |items|
      ensures items[i].supported == others[i].supported && items[i].value == others[i].value
              && items[i].origin == others[i].origin
    {
      SameItem(g, d, h, e, items[i], others[i]);
    }
  }

  lemma SameRefusal(g: Given, d: Draft, h: Given, e: Draft)
    requires SameEvidence(g, d, h, e)
    ensures Refusable(g, d) <==> Refusable(h, e)
  {
  }

  lemma SameItem(g: Given, d: Draft, h: Given, e: Draft, x: Item, y: Item)
    requires SameEvidence(g, d, h, e) && x.requirement == y.requirement && ItemOk(g, d.claims, x)
             && ItemOk(h, e.claims, y)
    ensures x.supported == y.supported && x.value == y.value && x.origin == y.origin
  {
    SameValues(g, d, h, e, x.requirement);
    var values := Values(g, d.claims, x.requirement);
    if x.supported {
      assert x.value.value in values;
    }
  }
}
