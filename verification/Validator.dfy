/** The source validator: when a reported value may be called VALIDATED. Text is given already lexed - which
    words, years, numbers and declarations each line and cell carry - and the scan over it is modelled in full. */
module Validator {
  import opened Types

  // ------------------------------------------------------------------------ tokens

  datatype Unit = CnyUnit | RatioUnit | UsdUnit

  datatype UnitWord = Yuan | MillionYuan | TenThousandYuan | Percent | RatioWord | Usd | OtherWord

  datatype Currency = NoCurrency | Renminbi | Dollar

  /** One unit declaration; a compound one also names a currency. */
  datatype UnitDeclaration = UnitDeclaration(word: UnitWord, currency: Currency, compound: bool)

  /** A line of the declarations: a consolidated title, or a scope declaration that is or is not `consolidated`. */
  datatype ScopeLine = ScopeLine(title: bool, scope: Option<bool>)

  /** A table cell: its text, the fiscal year it normalizes to, whether it is marked as a year, its number if it
      is a well-formed decimal, and whether it ends in a percent sign. As a row label it may be a header word,
      name concepts, or be one of two component labels or the total-net-profit label. */
  datatype Cell = Cell(text: Id, year: Option<Id>, marked: bool, number: Option<real>, percent: bool,
                       headerWord: bool, concepts: seq<Id>, component: Option<Id>, parentText: Id, netProfit: bool)

  datatype Line = Line(cells: seq<Cell>, blank: bool, boundary: bool)

  /** A source region with everything the validator reads from it. `income` says whether the reviewed
      income-statement association holds for a given header line. */
  datatype Source = Source(
    quoted: bool, hashOk: bool, bound: bool, bindingInvalid: bool, entities: set<Id>, basisDoubt: bool,
    noteMissing: bool,
    scopes: seq<ScopeLine>, units: seq<UnitDeclaration>, lines: seq<Line>, income: nat -> bool)

  /** A reported value and what it claims; `quotes` are the cell texts that its quote contains. */
  datatype Candidate = Candidate(consolidated: bool, unit: Unit, period: Id, rawText: Id, value: real, quotes: set<Id>)

  /** The concept asked for: its catalogue unit, and whether it is net profit. */
  datatype Concept = Concept(id: Id, unit: Unit, isNetProfit: bool)

  datatype Outcome = ValidatedValue | RejectedFor(reason: Why) | InconclusiveFor(reason: Why)

  datatype Why =
    | QuoteNotInSource | HashMismatch | EntityMismatch | UnsupportedScope | ConceptUnitMismatch | SourceUnitMismatch
    | MultipleHeaders
    | DuplicateYearColumn | YearColumnUnproven | PeriodNotInHeader | RowOutsideTable | HierarchyUnproven
    | AssociationUnproven
    | ColumnCountAmbiguous | QuoteDoesNotSupport | RowUnproven | DuplicateRows | RawValueMismatch | NumericUnitMismatch
    | InvalidNumeric | ValueMismatch | DoubtsRemain

  // ------------------------------------------------------------------ declarations

  function ScaleOf(w: UnitWord): real {
    match w case MillionYuan => 1000000.0 case TenThousandYuan => 10000.0 case Percent => 0.01 case _ => 1.0
  }

  /** The unit and scale a declaration states, if it is one of the supported ones. */
  function Reads(d: UnitDeclaration): Option<(Unit, real)> {
    if d.word.OtherWord? then None else
    var unit := if d.word.Percent? || d.word.RatioWord? then RatioUnit else if d.word.Usd? then UsdUnit else CnyUnit;
    Some((if d.currency.Dollar? then UsdUnit else unit, ScaleOf(d.word)))
  }

  /** All declarations are supported and agree. */
  predicate UnitsAgree(units: seq<UnitDeclaration>, unit: Unit, scale: real) {
    units != [] && forall k :: 0 <= k < |units| ==> Reads(units[k]) == Some((unit, scale))
  }

  predicate AnyCompound(units: seq<UnitDeclaration>) { exists k :: 0 <= k < |units| && units[k].compound }

  predicate ScopeSupported(scopes: seq<ScopeLine>) {
    exists k :: 0 <= k < |scopes| && (scopes[k].title || scopes[k].scope == Some(true))
  }

  predicate ScopeConflicting(scopes: seq<ScopeLine>) { exists k :: 0 <= k < |scopes| && scopes[k].scope == Some(false) }

  // ------------------------------------------------------------------- the table

  predicate Row(l: Line) { |l.cells| >= 2 }

  predicate HeaderLine(s: Source, h: nat) { h < |s.lines| && Row(s.lines[h]) && s.lines[h].cells[0].headerWord }

  function MarkedYears(cells: seq<Cell>): nat {
    if cells == [] then 0
      else MarkedYears(cells[..|cells| - 1])
           + if cells[|cells| - 1].year.Some? && cells[|cells| - 1].marked then 1 else 0
  }

  /** A differently labelled line with several explicit fiscal years is a second header too. */
  predicate HiddenHeader(s: Source, i: nat) {
    s.bound && i < |s.lines| && Row(s.lines[i]) && !s.lines[i].cells[0].headerWord
      && MarkedYears(s.lines[i].cells[1..]) >= 2
  }

  predicate OnlyHeader(s: Source, h: nat) {
    HeaderLine(s, h) && forall i :: 0 <= i < |s.lines| ==> (HeaderLine(s, i) ==> i == h) && !HiddenHeader(s, i)
  }

  /** The one column of the header that normalizes to the period. */
  predicate OnlyColumn(header: seq<Cell>, period: Id, col: nat) {
    0 < col < |header| && forall k :: 0 <= k < |header| ==> (header[k].year == Some(period) <==> k == col)
  }

  /** A line that ends the table section: a new declaration, or loose text outside a bound table. */
  predicate Breaks(s: Source, l: Line) {
    (s.bound && l.boundary) || (!Row(l) && !l.blank && !(s.bound && !l.boundary))
  }

  /** Before line n is read, the section that the header opened is still open. */
  predicate Open(s: Source, h: nat, n: nat) {
    h < n && forall j :: h < j < n && j < |s.lines| ==> !Breaks(s, s.lines[j])
  }

  function LastLine(s: Source, n: nat): Option<nat>
    requires n <= |s.lines|
  {
    if n == 0 then None else if !Row(s.lines[n - 1]) && s.lines[n - 1].blank then LastLine(s, n - 1) else Some(n - 1)
  }

  /** The nearest line above n that is not blank is a wrapped label inside the open section. */
  predicate Continued(s: Source, h: nat, n: nat)
    requires n <= |s.lines|
  {
    Open(s, h, n) && s.bound && LastLine(s, n).Some? && LastLine(s, n).value > h && LastLine(s, n).value < |s.lines|
      && !Row(s.lines[LastLine(s, n).value])
  }

  /** The rest of a wrapped label is not a row of its own. */
  predicate Skipped(s: Source, h: nat, n: nat)
    requires n < |s.lines|
  {
    Continued(s, h, n) && !(s.bound && s.lines[n].boundary)
  }

  predicate ReadAsRow(s: Source, h: nat, n: nat) { n < |s.lines| && n != h && Row(s.lines[n]) && !Skipped(s, h, n) }

  predicate InSection(s: Source, h: nat, n: nat)
    requires n < |s.lines|
  {
    Open(s, h, n) && !Breaks(s, s.lines[n])
  }

  /** The row directly above n, if the nearest non-blank line is one that was read as a row. */
  function RowAbove(s: Source, h: nat, n: nat): Option<seq<Cell>>
    requires n <= |s.lines|
  {
    var j := LastLine(s, n);
    if j.Some? && j.value < |s.lines| && ReadAsRow(s, h, j.value) then Some(s.lines[j.value].cells) else None
  }

  /** The row's label claims the concept: by catalogue alias, as a component row, or as the net-profit total. */
  predicate Claims(s: Source, k: Concept, h: nat, n: nat) {
    && ReadAsRow(s, h, n)
    && var first := s.lines[n].cells[0];
    (first.concepts == [k.id] || first.component == Some(k.id) || (k.isNetProfit && first.netProfit))
  }

  /** Such a row supports the candidate: inside the section, with its hierarchy and association proven where its
      label needs them, as many columns as the header, and label and value both quoted. */
  predicate RowProves(s: Source, k: Concept, c: Candidate, h: nat, col: nat, n: nat)
    requires h < |s.lines| && n < |s.lines| && Row(s.lines[n])
  {
    var cells, header := s.lines[n].cells, s.lines[h].cells;
    && InSection(s, h, n)
    && (cells[0].component == Some(k.id) ==>
          RowAbove(s, h, n).Some? && |RowAbove(s, h, n).value| == |header| && RowAbove(s, h, n).value != []
            && RowAbove(s, h, n).value[0].text == cells[0].parentText && s.income(h))
    && (k.isNetProfit && cells[0].netProfit ==> s.income(h))
    && |cells| == |header| && col < |cells| && cells[0].text in c.quotes && cells[col].text in c.quotes
  }

  /** The value in the row's period column is the candidate's raw text and, scaled, its value. */
  predicate CellProves(c: Candidate, cell: Cell, scale: real) {
    && cell.text == c.rawText && (cell.percent ==> c.unit.RatioUnit? && scale == 0.01)
    && cell.number.Some? && cell.number.value * scale == c.value
  }

  /** Exactly one row claims the concept, and it proves the candidate. */
  ghost predicate OneRow(s: Source, k: Concept, c: Candidate, h: nat, col: nat, n: nat)
    requires h < |s.lines|
  {
    Claims(s, k, h, n) && (forall i :: Claims(s, k, h, i) ==> i == n) && RowProves(s, k, c, h, col, n)
  }

  /** Everything that VALIDATED stands for, apart from the table scan. */
  predicate Grounded(s: Source, c: Candidate, entity: Id, k: Concept) {
    && s.quoted && s.hashOk && !s.bindingInvalid && s.entities == {entity} && !s.basisDoubt && !s.noteMissing
    && c.consolidated && ScopeSupported(s.scopes) && !ScopeConflicting(s.scopes) && k.unit == c.unit
  }

  ghost predicate Proves(s: Source, c: Candidate, entity: Id, k: Concept) {
    && Grounded(s, c, entity, k)
    && exists h, col, n, scale :: TableProves(s, c, k, h, col, n, scale)
  }

  /** One header, one period column, one row of the concept anywhere, and its cell and the one agreed unit
      give the value. */
  ghost predicate TableProves(s: Source, c: Candidate, k: Concept, h: nat, col: nat, n: nat, scale: real) {
    && OnlyHeader(s, h) && OnlyColumn(s.lines[h].cells, c.period, col) && UnitsAgree(s.units, c.unit, scale)
    && OneRow(s, k, c, h, col, n) && CellProves(c, s.lines[n].cells[col], scale)
    && (AnyCompound(s.units) ==> s.income(h))
  }

  // ----------------------------------------------------------------------- scanning

  method ReadScopes(scopes: seq<ScopeLine>) returns (supported: bool, conflicting: bool)
    ensures supported == ScopeSupported(scopes) && conflicting == ScopeConflicting(scopes)
  {
    supported, conflicting := false, false;
    for n := 0 to |scopes|
      invariant supported <==> exists k :: 0 <= k < n && (scopes[k].title || scopes[k].scope == Some(true))
      invariant conflicting <==> exists k :: 0 <= k < n && scopes[k].scope == Some(false)
    {
      if scopes[n].title { supported := true; }
      if scopes[n].scope.Some? {
        if scopes[n].scope.value { supported := true; } else { conflicting := true; }
      }
    }
  }

  /** Two supported declarations among the first n say different things. */
  predicate Disagree(units: seq<UnitDeclaration>, n: nat)
    requires n <= |units|
  {
    exists i, k ::
      0 <= i < k < n && Reads(units[i]).Some? && Reads(units[k]).Some? && Reads(units[i]) != Reads(units[k])
  }

  /** Fold the declarations; a disagreement is only ever noticed with the declaration before. */
  method ReadUnits(units: seq<UnitDeclaration>)
    returns (unit: Option<Unit>, scale: real, ambiguous: bool, unsupported: bool, compound: bool)
    ensures compound == AnyCompound(units)
    ensures unit.Some? && !ambiguous && !unsupported ==> UnitsAgree(units, unit.value, scale)
    ensures unit.None? || ambiguous || unsupported ==> forall u, x :: !UnitsAgree(units, u, x)
  {
    unit, scale, ambiguous, unsupported, compound := None, 1.0, false, false, false;
    for n := 0 to |units|
      invariant compound <==> exists k :: 0 <= k < n && units[k].compound
      invariant unsupported <==> exists k :: 0 <= k < n && Reads(units[k]).None?
      invariant unit.None? <==> forall k :: 0 <= k < n ==> Reads(units[k]).None?
      invariant unit.Some? ==> exists k :: 0 <= k < n && Reads(units[k]) == Some((unit.value, scale))
      invariant unit.Some? && !ambiguous ==>
                  forall k :: 0 <= k < n && Reads(units[k]).Some? ==> Reads(units[k]) == Some((unit.value, scale))
      invariant ambiguous ==> Disagree(units, n)
    {
      var d := units[n];
      if d.compound { compound := true; }
      match Reads(d) {
        case None => unsupported := true;
        case Some((next, factor)) =>
          if unit.Some? && (unit.value != next || scale != factor) {
            ambiguous := true;
            ghost var k :| 0 <= k < n && Reads(units[k]) == Some((unit.value, scale));
            assert Reads(units[k]) != Reads(units[n]);
          }
          unit, scale := Some(next), factor;
      }
    }
    if unit.None? || ambiguous || unsupported {
      assert unit.None? && units != [] ==> Reads(units[0]).None?;
      forall u, x ensures !UnitsAgree(units, u, x) {
        NoAgreement(units, u, x);
      }
    }
  }

  lemma NoAgreement(units: seq<UnitDeclaration>, u: Unit, x: real)
    requires Disagree(units, |units|) || (exists k :: 0 <= k < |units| && Reads(units[k]).None?) || units == []
    ensures !UnitsAgree(units, u, x)
  {
    if Disagree(units, |units|) {
      var i, k :| 0 <= i < k < |units| && Reads(units[i]).Some? && Reads(units[k]).Some?
                  && Reads(units[i]) != Reads(units[k]);
      assert Reads(units[i]) != Some((u, x)) || Reads(units[k]) != Some((u, x));
    }
  }

  datatype Header = Header(line: nat, col: nat)

  datatype Found = FoundHeader(header: Header) | NoHeader(outcome: Outcome)

  method CountMarked(cells: seq<Cell>) returns (marked: nat)
    ensures marked == MarkedYears(cells)
  {
    marked := 0;
    for n := 0 to |cells|
      invariant marked == MarkedYears(cells[..n])
    {
      assert cells[..n + 1][..n] == cells[..n];
      if cells[n].year.Some? && cells[n].marked { marked := marked + 1; }
    }
    assert cells[..|cells|] == cells;
  }

  /** The period's column in one header line: none, one, or a duplicate. */
  method FindColumn(cells: seq<Cell>, period: Id) returns (col: int, hasYear: bool, duplicate: bool)
    ensures -1 <= col < |cells|
    ensures !duplicate && col >= 0 ==> forall k :: 0 <= k < |cells| ==> (cells[k].year == Some(period) <==> k == col)
    ensures !duplicate && col < 0 ==> forall k :: 0 <= k < |cells| ==> cells[k].year != Some(period)
    ensures duplicate ==>
              exists i, k :: 0 <= i < k < |cells| && cells[i].year == Some(period) && cells[k].year == Some(period)
  {
    col, hasYear, duplicate := -1, false, false;
    for n := 0 to |cells|
      invariant -1 <= col < n && !duplicate
      invariant col >= 0 ==> forall k :: 0 <= k < n ==> (cells[k].year == Some(period) <==> k == col)
      invariant col < 0 ==> forall k :: 0 <= k < n ==> cells[k].year != Some(period)
    {
      if cells[n].year.Some? { hasYear := true; }
      if cells[n].year == Some(period) {
        if col >= 0 {
          duplicate := true;
          assert cells[col].year == Some(period) && cells[n].year == Some(period);
          return;
        }
        col := n;
      }
    }
  }

  lemma NoOtherColumn(s: Source, header: Option<nat>, col: int, period: Id)
    requires header.None? ==> forall i :: 0 <= i < |s.lines| ==> !HeaderLine(s, i)
    requires header.Some? ==> HeaderLine(s, header.value) && -1 <= col < |s.lines[header.value].cells|
    requires header.Some? && col >= 0 ==>
               forall k ::
                 0 <= k < |s.lines[header.value].cells| ==>
                   (s.lines[header.value].cells[k].year == Some(period) <==> k == col)
    requires header.Some? && col < 0 ==>
               forall k ::
                 0 <= k < |s.lines[header.value].cells| ==> s.lines[header.value].cells[k].year != Some(period)
    ensures forall h: nat, x: nat ::
              OnlyHeader(s, h) && OnlyColumn(s.lines[h].cells, period, x) ==> header == Some(h) && x == col
  {
    forall h: nat, x: nat | OnlyHeader(s, h) && OnlyColumn(s.lines[h].cells, period, x)
      ensures header == Some(h) && x == col
    {
      assert header.Some? ==> header.value == h;
      assert s.lines[h].cells[x].year == Some(period);
    }
  }

  /** Read every line for headers before any row is read. */
  method FindHeader(s: Source, period: Id) returns (found: Found)
    ensures found.FoundHeader? ==>
              OnlyHeader(s, found.header.line) && OnlyColumn(s.lines[found.header.line].cells, period, found.header.col)
    ensures found.NoHeader? ==>
              !found.outcome.ValidatedValue?
                && forall h: nat, col: nat :: OnlyHeader(s, h) ==> !OnlyColumn(s.lines[h].cells, period, col)
  {
    var header: Option<nat>, col: int, hasYear := None, -1, false;
    for n := 0 to |s.lines|
      invariant header.None? ==> forall i :: 0 <= i < n ==> !HeaderLine(s, i)
      invariant header.Some? ==>
                  HeaderLine(s, header.value) && header.value < n
                    && forall i :: 0 <= i < n && HeaderLine(s, i) ==> i == header.value
      invariant forall i :: 0 <= i < n ==> !HiddenHeader(s, i)
      invariant header.Some? ==> -1 <= col < |s.lines[header.value].cells|
      invariant header.Some? && col >= 0 ==>
                  forall k ::
                    0 <= k < |s.lines[header.value].cells| ==>
                      (s.lines[header.value].cells[k].year == Some(period) <==> k == col)
      invariant header.Some? && col < 0 ==>
                  forall k ::
                    0 <= k < |s.lines[header.value].cells| ==> s.lines[header.value].cells[k].year != Some(period)
    {
      var cells := s.lines[n].cells;
      if |cells| < 2 { continue; }
      if cells[0].headerWord {
        assert HeaderLine(s, n);
        if header.Some? { return NoHeader(InconclusiveFor(MultipleHeaders)); }
        header := Some(n);
        var duplicate;
        col, hasYear, duplicate := FindColumn(cells, period);
        if duplicate { return NoHeader(InconclusiveFor(DuplicateYearColumn)); }
      } else if s.bound {
        var marked := CountMarked(cells[1..]);
        if marked >= 2 {
          assert HiddenHeader(s, n);
          return NoHeader(InconclusiveFor(MultipleHeaders));
        }
      }
    }
    NoOtherColumn(s, header, col, period);
    if header.None? { return NoHeader(InconclusiveFor(YearColumnUnproven)); }
    if col < 0 && hasYear { return NoHeader(RejectedFor(PeriodNotInHeader)); }
    if col < 1 { return NoHeader(InconclusiveFor(YearColumnUnproven)); }
    return FoundHeader(Header(header.value, col));
  }

  /** What lexing guarantees: every line has a cell, and a blank one has nothing else. */
  predicate Lexed(s: Source) {
    forall i ::
      0 <= i < |s.lines| ==>
        |s.lines[i].cells| >= 1 && (s.lines[i].blank ==> |s.lines[i].cells| == 1 && !s.lines[i].boundary)
  }

  lemma OpenNext(s: Source, h: nat, n: nat)
    requires n < |s.lines|
    ensures Open(s, h, n + 1) <==> n == h || (Open(s, h, n) && !Breaks(s, s.lines[n]))
  {
  }

  /** The three variables of the scan after one more line. */
  lemma StateNext(s: Source, h: nat, n: nat)
    requires Lexed(s) && HeaderLine(s, h) && n < |s.lines|
    ensures Continued(s, h, n + 1)
            <==> if s.lines[n].blank then Continued(s, h, n)
                   else n != h && !Row(s.lines[n]) && s.bound && Open(s, h, n + 1)
    ensures RowAbove(s, h, n + 1)
              == if s.lines[n].blank then RowAbove(s, h, n)
                   else if ReadAsRow(s, h, n) then Some(s.lines[n].cells) else None
  {
    OpenNext(s, h, n);
  }

  /** A row is read: it does not claim the concept, or it proves the candidate, or it settles the outcome. */
  method ReadRow(s: Source, k: Concept, c: Candidate, h: nat, col: nat, n: nat, inside: bool,
                 previous: Option<seq<Cell>>)
    returns (claims: bool, outcome: Option<Outcome>)
    requires HeaderLine(s, h) && col < |s.lines[h].cells| && ReadAsRow(s, h, n) && inside == InSection(s, h, n)
             && (inside ==> previous == RowAbove(s, h, n))
    ensures outcome.None? ==> claims == Claims(s, k, h, n) && (claims ==> RowProves(s, k, c, h, col, n))
    ensures outcome.Some? ==> !outcome.value.ValidatedValue? && Claims(s, k, h, n) && !RowProves(s, k, c, h, col, n)
  {
    var cells, header := s.lines[n].cells, s.lines[h].cells;
    var ids := cells[0].concepts;
    if cells[0].component == Some(k.id) {
      if !inside { return true, Some(InconclusiveFor(RowOutsideTable)); }
      if previous.None? || |previous.value| != |header| || previous.value[0].text != cells[0].parentText {
        return true, Some(InconclusiveFor(HierarchyUnproven));
      }
      if !s.income(h) { return true, Some(InconclusiveFor(AssociationUnproven)); }
      ids := [k.id];
    }
    if k.isNetProfit && cells[0].netProfit {
      if !inside { return true, Some(InconclusiveFor(RowOutsideTable)); }
      if !s.income(h) { return true, Some(InconclusiveFor(AssociationUnproven)); }
      ids := [k.id];
    }
    if ids != [k.id] { return false, None; }
    if !inside { return true, Some(InconclusiveFor(RowOutsideTable)); }
    if |cells| != |header| { return true, Some(InconclusiveFor(ColumnCountAmbiguous)); }
    if cells[0].text !in c.quotes || cells[col].text !in c.quotes {
      return true, Some(RejectedFor(QuoteDoesNotSupport));
    }
    return true, None;
  }

  /** The second pass: keep track of the section, of wrapped labels and of the row above, and read every row. */
  method ScanRows(s: Source, k: Concept, c: Candidate, h: nat, col: nat) returns (row: nat, outcome: Option<Outcome>)
    requires Lexed(s) && HeaderLine(s, h) && col < |s.lines[h].cells|
    ensures outcome.None? ==> OneRow(s, k, c, h, col, row)
    ensures outcome.Some? ==> !outcome.value.ValidatedValue? && forall n :: !OneRow(s, k, c, h, col, n)
  {
    var matching, inside, continued, previous: Option<seq<Cell>> := 0, false, false, None;
    row := 0;
    ghost var first: nat := 0;
    for n := 0 to |s.lines|
      invariant inside == Open(s, h, n) && continued == Continued(s, h, n) && previous == RowAbove(s, h, n)
      invariant matching == 0 ==> forall i :: 0 <= i < n ==> !Claims(s, k, h, i)
      invariant matching == 1 ==>
                  row < n && Claims(s, k, h, row) && RowProves(s, k, c, h, col, row)
                    && forall i :: 0 <= i < n && Claims(s, k, h, i) ==> i == row
      invariant matching > 1 ==> first < row < n && Claims(s, k, h, first) && Claims(s, k, h, row)
    {
      OpenNext(s, h, n);
      StateNext(s, h, n);
      if n == h {
        inside, continued, previous := true, false, None;
        continue;
      }
      var line := s.lines[n];
      if s.bound && inside && line.boundary {
        inside, continued, previous := false, false, None;
      }
      if |line.cells| < 2 {
        if !line.blank {
          previous := None;
          if s.bound && inside && !line.boundary {
            continued := true;
          } else {
            inside, continued := false, false;
          }
        }
        continue;
      }
      if continued {
        continued, previous := false, None;
        continue;
      }
      var claims, verdict := ReadRow(s, k, c, h, col, n, inside, previous);
      if verdict.Some? { return row, verdict; }
      previous := Some(line.cells);
      if claims {
        matching, first := matching + 1, row;
        row := n;
      }
    }
    if matching == 0 { return row, Some(InconclusiveFor(RowUnproven)); }
    if matching > 1 { return row, Some(InconclusiveFor(DuplicateRows)); }
    return row, None;
  }

  /** The numeric checks on the one cell that was found. */
  method CheckCell(c: Candidate, cell: Cell, unit: Option<Unit>, scale: real, ambiguous: bool)
    returns (outcome: Option<Outcome>)
    ensures outcome.Some? ==>
              !outcome.value.ValidatedValue? && (unit.Some? && !ambiguous ==> !CellProves(c, cell, scale))
    ensures outcome.None? && unit.Some? && !ambiguous ==> CellProves(c, cell, scale)
  {
    if cell.text != c.rawText { return Some(RejectedFor(RawValueMismatch)); }
    if cell.percent && (!c.unit.RatioUnit? || (unit.Some? && !ambiguous && scale != 0.01)) {
      return Some(RejectedFor(NumericUnitMismatch));
    }
    if cell.number.None? { return Some(RejectedFor(InvalidNumeric)); }
    if unit.Some? && !ambiguous && cell.number.value * scale != c.value { return Some(RejectedFor(ValueMismatch)); }
    return None;
  }

  /** A value is VALIDATED exactly when the source proves it. */
  method SemanticSource(c: Candidate, s: Source, entity: Id, k: Concept) returns (outcome: Outcome)
    requires Lexed(s)
    ensures outcome.ValidatedValue? <==> Proves(s, c, entity, k)
  {
    var doubts := s.bindingInvalid;
    if !s.quoted { return RejectedFor(QuoteNotInSource); }
    if !s.hashOk { return RejectedFor(HashMismatch); }
    if s.entities != {} && entity !in s.entities { return RejectedFor(EntityMismatch); }
    OneEntity(s.entities, entity);
    if |s.entities| != 1 { doubts := true; }
    if s.basisDoubt || s.noteMissing { doubts := true; }
    if !c.consolidated { return RejectedFor(UnsupportedScope); }
    var supportedScope, conflictingScope := ReadScopes(s.scopes);
    if !supportedScope || conflictingScope { doubts := true; }
    if k.unit != c.unit { return RejectedFor(ConceptUnitMismatch); }
    assert doubts <==> !Grounded(s, c, entity, k);
    outcome := Settle(c, s, k, doubts);
    if outcome.ValidatedValue? {
      assert Proves(s, c, entity, k);
    }
  }

  lemma OneEntity(known: set<Id>, entity: Id)
    ensures known == {} || entity in known ==> (|known| != 1 <==> known != {entity})
  {
    if entity in known {
      assert known == (known - {entity}) + {entity};
      assert |known - {entity}| == 0 ==> known - {entity} == {};
    }
  }

  /** A table that proves the value proves it in one way only. */
  lemma OneWay(s: Source, c: Candidate, k: Concept, h: nat, col: nat, n: nat, x: real, h2: nat, col2: nat)
    requires TableProves(s, c, k, h, col, n, x) && OnlyHeader(s, h2) && OnlyColumn(s.lines[h2].cells, c.period, col2)
    ensures h == h2 && col == col2
  {
    assert s.lines[h].cells[col].year == Some(c.period);
  }

  lemma OneUnit(units: seq<UnitDeclaration>, u: Unit, x: real, v: Unit, y: real)
    requires UnitsAgree(units, u, x) && UnitsAgree(units, v, y)
    ensures u == v && x == y
  {
    assert Reads(units[0]) == Some((u, x));
  }

  /** Units, header, rows and cell, in the order in which each may settle the outcome. */
  method Settle(c: Candidate, s: Source, k: Concept, doubtsBefore: bool) returns (outcome: Outcome)
    requires Lexed(s)
    ensures outcome.ValidatedValue?
            <==> !doubtsBefore && exists h, col, n, scale :: TableProves(s, c, k, h, col, n, scale)
  {
    var doubts := doubtsBefore;
    var unit, scale, ambiguous, unsupported, compound := ReadUnits(s.units);
    if unit.None? || ambiguous || unsupported { doubts := true; }
    if unit.Some? && !ambiguous && unit.value != c.unit {
      forall h: nat, col: nat, n: nat, x: real ensures !TableProves(s, c, k, h, col, n, x) {
        if TableProves(s, c, k, h, col, n, x) && !unsupported { OneUnit(s.units, unit.value, scale, c.unit, x); }
      }
      return RejectedFor(SourceUnitMismatch);
    }
    var found := FindHeader(s, c.period);
    if found.NoHeader? { return found.outcome; }
    var h, col := found.header.line, found.header.col;
    var row, settled := ScanRows(s, k, c, h, col);
    if settled.Some? {
      forall h2: nat, col2: nat, n: nat, x: real ensures !TableProves(s, c, k, h2, col2, n, x) {
        if TableProves(s, c, k, h2, col2, n, x) { OneWay(s, c, k, h2, col2, n, x, h, col); }
      }
      return settled.value;
    }
    var cell := CheckCell(c, s.lines[row].cells[col], unit, scale, ambiguous);
    if cell.Some? {
      forall h2: nat, col2: nat, n: nat, x: real ensures !TableProves(s, c, k, h2, col2, n, x) {
        if TableProves(s, c, k, h2, col2, n, x) {
          OneWay(s, c, k, h2, col2, n, x, h, col);
          if unit.Some? && !ambiguous && !unsupported { OneUnit(s.units, unit.value, scale, c.unit, x); }
        }
      }
      return cell.value;
    }
    if compound && !s.income(h) { doubts := true; }
    if doubts {
      forall h2: nat, col2: nat, n: nat, x: real ensures doubtsBefore || !TableProves(s, c, k, h2, col2, n, x) {
        if TableProves(s, c, k, h2, col2, n, x) { OneWay(s, c, k, h2, col2, n, x, h, col); }
      }
      return InconclusiveFor(DoubtsRemain);
    }
    assert TableProves(s, c, k, h, col, row, scale);
    return ValidatedValue;
  }
}
