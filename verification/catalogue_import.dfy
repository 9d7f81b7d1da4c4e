/** internal/modules/catalogue/app/import.go: products from spreadsheet rows. */
module CatalogueImport {
  import opened Wrappers
  import opened Importer

  datatype Unit = Unit(code: string, id: Uuid)

  datatype Product = Product(name: string, hsnSac: string, baseUnit: Uuid)

  datatype ImportError = Forbidden

  function NameKey(c: Cases, name: string): string {
    c.Lower(Trim(name))
  }

  function KeyOf(c: Cases, p: Product): string {
    NameKey(c, p.name)
  }

  function ExistingNames(c: Cases, ps: seq<Product>): set<string> {
    if ps == [] then {} else ExistingNames(c, ps[..|ps| - 1]) + {KeyOf(c, ps[|ps| - 1])}
  }

  /** Units by upper-cased code; of two alike the later one counts. */
  function UnitByCode(c: Cases, us: seq<Unit>): map<string, Uuid> {
    if us == [] then map[] else UnitByCode(c, us[..|us| - 1])[c.Upper(us[|us| - 1].code) := us[|us| - 1].id]
  }

  /** What validation alone says of a row. */
  function VerdictOf(c: Cases, units: map<string, Uuid>, row: Row): Verdict<Product> {
    var name, code := Trim(Field(row, "name")), c.Upper(Trim(Field(row, "base_uom_code")));
    if name == "" then Rejected(row.number, About("name is required", ""))
    else if code !in units then Rejected(row.number, About("base_uom_code does not match any existing unit", code))
    else Accepted(row.number, c.Lower(name), Product(name, Trim(Field(row, "hsn_sac_code")), units[code]),
                  About("a product of this name already exists", name))
  }

  function Verdicts(c: Cases, units: map<string, Uuid>, rows: seq<Row>): (vs: seq<Verdict<Product>>)
    ensures |vs| == |rows| && forall i | 0 <= i < |rows| :: vs[i] == VerdictOf(c, units, rows[i])
  {
    seq(|rows|, i requires 0 <= i < |rows| => VerdictOf(c, units, rows[i]))
  }

  class Catalogue {
    const cases: Cases
    var products: seq<Product>
    var units: seq<Unit>

    constructor (cases: Cases, units: seq<Unit>)
      ensures this.cases == cases && this.units == units && products == []
    {
      this.cases := cases;
      this.units := units;
      products := [];
    }

    method LoadNames() returns (names: set<string>)
      ensures names == ExistingNames(cases, products)
    {
      names := {};
      for i := 0 to |products|
        invariant names == ExistingNames(cases, products[..i])
      {
        assert products[..i + 1][..i] == products[..i];
        names := names + {NameKey(cases, products[i].name)};
      }
      assert products[..|products|] == products;
    }

    method LoadUnits() returns (byCode: map<string, Uuid>)
      ensures byCode == UnitByCode(cases, units)
    {
      byCode := map[];
      for i := 0 to |units|
        invariant byCode == UnitByCode(cases, units[..i])
      {
        assert units[..i + 1][..i] == units[..i];
        byCode := byCode[cases.Upper(units[i].code) := units[i].id];
      }
      assert units[..|units|] == units;
    }

    /** One row of the loop. */
    method ImportRow(b: Builder, byCode: map<string, Uuid>, names: set<string>, row: Row, dryRun: bool,
                     ghost before: seq<Verdict<Product>>, ghost existing: set<string>)
      returns (names': set<string>)
      requires forall k :: k in names <==> Taken(before, existing, k)
      modifies this`products, b
      ensures var v := VerdictOf(cases, byCode, row);
        && b.results == old(b.results) + [ResultOf(before, existing, v, dryRun)]
        && products == old(products) + (if Fresh(before, existing, v) && !dryRun then [v.entity] else [])
        && names' == names + if v.Accepted? then {v.key} else {}
    {
      names' := names;
      var name := Trim(Field(row, "name"));
      var hsnSac := Trim(Field(row, "hsn_sac_code"));
      var code := cases.Upper(Trim(Field(row, "base_uom_code")));
      if name == "" {
        b.Append(RowResult(row.number, Error, About("name is required", "")));
        return;
      }
      if code !in byCode {
        b.Append(RowResult(row.number, Error, About("base_uom_code does not match any existing unit", code)));
        return;
      }
      var key := cases.Lower(name);
      if key in names {
        b.Append(RowResult(row.number, Duplicate, About("a product of this name already exists", name)));
        return;
      }
      names' := names + {key};
      if dryRun {
        b.Append(RowResult(row.number, Valid, NoMessage));
        return;
      }
      products := products + [Product(name, hsnSac, byCode[code])];
      b.Append(RowResult(row.number, Committed, NoMessage));
    }

    method ImportProducts(mayManage: bool, rows: seq<Row>, dryRun: bool) returns (r: Result<Report, ImportError>)
      modifies this`products
      ensures r.Ok? <==> mayManage
      ensures r.Err? ==> products == old(products)
      ensures r.Ok? ==>
        var vs, existing := Verdicts(cases, UnitByCode(cases, units), rows), ExistingNames(cases, old(products));
        && IsReport(r.value, dryRun, Results(vs, existing, dryRun))
        && products == old(products) + if dryRun then [] else Written(vs, existing)
    {
      hide VerdictOf, ExistingNames, UnitByCode, ResultOf, IsReport;
      if !mayManage { return Err(Forbidden); }
      var b := new Builder(dryRun);
      var names := LoadNames();
      var byCode := LoadUnits();
      ghost var vs, existing := Verdicts(cases, byCode, rows), names;
      ghost var written: seq<Product> := [];
      for i := 0 to |rows|
        invariant fresh(b) && products == old(products) + written
        invariant Progress(vs, existing, dryRun, i, b.results, names, written)
      {
        ProgressStep(vs, existing, dryRun, i, b.results, names, written);
        ghost var more := if Fresh(vs[..i], existing, vs[i]) && !dryRun then [vs[i].entity] else [];
        Regroup(old(products), written, more);
        written := written + more;
        names := ImportRow(b, byCode, names, rows[i], dryRun, vs[..i], existing);
      }
      assert vs[..|rows|] == vs;
      var report := b.Report();
      return Ok(report);
    }
  }

  // ---------- Laws ----------

  lemma {:induction false} VerdictsKeyed(c: Cases, units: map<string, Uuid>, rows: seq<Row>)
    ensures KeyedBy(Verdicts(c, units, rows), p => KeyOf(c, p))
  {
    forall i | 0 <= i < |rows| && VerdictOf(c, units, rows[i]).Accepted?
      ensures KeyOf(c, VerdictOf(c, units, rows[i]).entity) == VerdictOf(c, units, rows[i]).key
    {
      TrimTwice(Field(rows[i], "name"));
    }
  }

  lemma {:induction false} ExistingHasKey(c: Cases, ps: seq<Product>, key: string)
    ensures key in ExistingNames(c, ps) <==> HasKey(ps, p => KeyOf(c, p), key)
  {
    if ps != [] {
      var n := |ps| - 1;
      ExistingHasKey(c, ps[..n], key);
      HasKeyAppend(ps[..n], ps[n], p => KeyOf(c, p), key);
      assert ps[..n] + [ps[n]] == ps;
    }
  }

  /** Importing the same rows again, in either mode, writes nothing: every row that was committed or a
    * duplicate is now a duplicate, every other row is the same error. */
  lemma {:induction false} ReimportCommitsNothing(c: Cases, units: map<string, Uuid>, ps: seq<Product>, rows: seq<Row>,
                                                  dryRun: bool)
    ensures var vs := Verdicts(c, units, rows);
            var after := ps + Written(vs, ExistingNames(c, ps));
      && Written(vs, ExistingNames(c, after)) == []
      && forall i | 0 <= i < |rows|
          :: Results(vs, ExistingNames(c, after), dryRun)[i].outcome == if vs[i].Accepted? then Duplicate else Error
  {
    var vs := Verdicts(c, units, rows);
    var written := Written(vs, ExistingNames(c, ps));
    VerdictsKeyed(c, units, rows);
    forall v <- vs | v.Accepted? ensures v.key in ExistingNames(c, ps + written) {
      var i :| 0 <= i < |vs| && vs[i] == v;
      assert Taken(vs, ExistingNames(c, ps), v.key);
      WrittenKeys(vs, ExistingNames(c, ps), p => KeyOf(c, p), v.key);
      ExistingHasKey(c, ps, v.key);
      ExistingHasKey(c, ps + written, v.key);
      HasKeyConcat(ps, written, p => KeyOf(c, p), v.key);
    }
    NothingLeft(vs, ExistingNames(c, ps + written), dryRun);
  }

  /** An import never gives two products the same name, up to case and surrounding space. */
  lemma {:induction false} NamesStayDistinct(c: Cases, units: map<string, Uuid>, ps: seq<Product>, rows: seq<Row>)
    requires DistinctKeys(ps, p => KeyOf(c, p))
    ensures DistinctKeys(ps + Written(Verdicts(c, units, rows), ExistingNames(c, ps)), p => KeyOf(c, p))
  {
    var vs, existing := Verdicts(c, units, rows), ExistingNames(c, ps);
    var ws := Written(vs, existing);
    VerdictsKeyed(c, units, rows);
    WrittenAreDistinct(vs, existing, p => KeyOf(c, p));
    forall j | 0 <= j < |ws| ensures !HasKey(ps, p => KeyOf(c, p), KeyOf(c, ws[j])) {
      WrittenKeys(vs, existing, p => KeyOf(c, p), KeyOf(c, ws[j]));
      ExistingHasKey(c, ps, KeyOf(c, ws[j]));
    }
  }

  // ---------- What is accepted, and what is the same ----------

  /** A row is acceptable exactly if it has a name and its unit is known; it becomes the product of its
    * trimmed cells. */
  lemma {:induction false} AcceptedExactly(c: Cases, units: map<string, Uuid>, row: Row)
    ensures var v, code := VerdictOf(c, units, row), c.Upper(Text(row, "base_uom_code"));
      && v.number == row.number
      && (v.Accepted? <==> Text(row, "name") != "" && code in units)
      && (v.Accepted? ==> v.entity == Product(Text(row, "name"), Text(row, "hsn_sac_code"), units[code]))
  {
    assert Trim("") == "";
  }

  /** A code is known exactly if some unit bears it, in any case, and stands for the last that does. */
  lemma {:induction false} UnitsByCode(c: Cases, us: seq<Unit>, code: string)
    ensures code in UnitByCode(c, us) <==> exists i | 0 <= i < |us| :: c.Upper(us[i].code) == code
    ensures forall i | 0 <= i < |us| && c.Upper(us[i].code) == code
                       && forall j | i < j < |us| :: c.Upper(us[j].code) != code :: UnitByCode(c, us)[code] == us[i].id
  {
    if us != [] {
      var n := |us| - 1;
      UnitsByCode(c, us[..n], code);
      assert forall i | 0 <= i < n :: us[..n][i] == us[i];
    }
  }

  /** The names are alike but for case and surrounding space. */
  predicate SameName(c: Cases, p: Product, q: Product) {
    AlikeButCase(c, Trim(p.name), Trim(q.name))
  }

  lemma {:induction false} KeysTellNames(c: Cases, p: Product, q: Product)
    ensures KeyOf(c, p) == KeyOf(c, q) <==> SameName(c, p, q)
  {
    SameLower(c, Trim(p.name), Trim(q.name));
  }

  /** If no two products bear the same name, none do after an import. */
  lemma {:induction false} ProductsStayDistinct(c: Cases, units: map<string, Uuid>, ps: seq<Product>, rows: seq<Row>)
    requires forall i, j | 0 <= i < j < |ps| :: !SameName(c, ps[i], ps[j])
    ensures var after := ps + Written(Verdicts(c, units, rows), ExistingNames(c, ps));
            forall i, j | 0 <= i < j < |after| :: !SameName(c, after[i], after[j])
  {
    var after := ps + Written(Verdicts(c, units, rows), ExistingNames(c, ps));
    forall i, j | 0 <= i < j < |ps| ensures KeyOf(c, ps[i]) != KeyOf(c, ps[j]) { KeysTellNames(c, ps[i], ps[j]); }
    NamesStayDistinct(c, units, ps, rows);
    forall i, j | 0 <= i < j < |after| ensures !SameName(c, after[i], after[j]) {
      KeysTellNames(c, after[i], after[j]);
    }
  }
}
