/** internal/modules/contacts/app/import.go: customers and suppliers from spreadsheet rows. */
module ContactsImport {
  import opened Wrappers
  import opened Importer

  datatype Party = Party(kind: string, legalName: string, phone: string, email: string, currency: string)

  datatype ImportError = Forbidden | StorageRejected

  predicate ValidPartyType(t: string) {
    t == "CUSTOMER" || t == "SUPPLIER" || t == "BOTH"
  }

  function DedupeKey(c: Cases, kind: string, legalName: string): string {
    kind + "|" + c.Lower(Trim(legalName))
  }

  function KeyOf(c: Cases, p: Party): string {
    DedupeKey(c, p.kind, p.legalName)
  }

  /** The currency_code column is a varchar(3). */
  predicate Storable(p: Party) {
    |p.currency| <= 3
  }

  predicate AllStorable(ps: seq<Party>) {
    forall p <- ps :: Storable(p)
  }

  function ExistingKeys(c: Cases, ps: seq<Party>): set<string> {
    if ps == [] then {} else ExistingKeys(c, ps[..|ps| - 1]) + {KeyOf(c, ps[|ps| - 1])}
  }

  /** What validation alone says of a row; the currency's length is not looked at. */
  function VerdictOf(c: Cases, row: Row): Verdict<Party> {
    var kind, name := c.Upper(Trim(Field(row, "party_type"))), Trim(Field(row, "legal_name"));
    var currency := c.Upper(Trim(Field(row, "currency_code")));
    if !ValidPartyType(kind) then
      Rejected(row.number, About("party_type must be CUSTOMER, SUPPLIER, or BOTH", Field(row, "party_type")))
    else if name == "" then Rejected(row.number, About("legal_name is required", ""))
    else if currency == "" then Rejected(row.number, About("currency_code is required", ""))
    else Accepted(row.number, DedupeKey(c, kind, name),
                  Party(kind, name, Trim(Field(row, "phone")), Trim(Field(row, "email")), currency),
                  About("a party of this type and name already exists", name))
  }

  function Verdicts(c: Cases, rows: seq<Row>): (vs: seq<Verdict<Party>>)
    ensures |vs| == |rows| && forall i | 0 <= i < |rows| :: vs[i] == VerdictOf(c, rows[i])
  {
    seq(|rows|, i requires 0 <= i < |rows| => VerdictOf(c, rows[i]))
  }

  class Contacts {
    const cases: Cases
    var parties: seq<Party>

    constructor (cases: Cases)
      ensures this.cases == cases && parties == []
    {
      this.cases := cases;
      parties := [];
    }

    method LoadKeys() returns (seen: set<string>)
      ensures seen == ExistingKeys(cases, parties)
    {
      seen := {};
      for i := 0 to |parties|
        invariant seen == ExistingKeys(cases, parties[..i])
      {
        assert parties[..i + 1][..i] == parties[..i];
        seen := seen + {DedupeKey(cases, parties[i].kind, parties[i].legalName)};
      }
      assert parties[..|parties|] == parties;
    }

    /** One row of the loop; a row the table refuses ends the import. */
    method ImportRow(b: Builder, seen: set<string>, row: Row, dryRun: bool,
                     ghost before: seq<Verdict<Party>>, ghost existing: set<string>)
      returns (seen': set<string>, stored: bool)
      requires forall k :: k in seen <==> Taken(before, existing, k)
      modifies this`parties, b
      ensures var v := VerdictOf(cases, row);
              var writes := Fresh(before, existing, v) && !dryRun;
        && (stored <==> (writes ==> Storable(v.entity)))
        && (stored ==> b.results == old(b.results) + [ResultOf(before, existing, v, dryRun)])
        && (stored ==> parties == old(parties) + if writes then [v.entity] else [])
        && (stored ==> seen' == seen + if v.Accepted? then {v.key} else {})
    {
      seen', stored := seen, true;
      var kind := cases.Upper(Trim(Field(row, "party_type")));
      var legalName := Trim(Field(row, "legal_name"));
      var phone := Trim(Field(row, "phone"));
      var email := Trim(Field(row, "email"));
      var currency := cases.Upper(Trim(Field(row, "currency_code")));
      if !ValidPartyType(kind) {
        b.Append(RowResult(row.number, Error,
                           About("party_type must be CUSTOMER, SUPPLIER, or BOTH", Field(row, "party_type"))));
        return;
      }
      if legalName == "" {
        b.Append(RowResult(row.number, Error, About("legal_name is required", "")));
        return;
      }
      if currency == "" {
        b.Append(RowResult(row.number, Error, About("currency_code is required", "")));
        return;
      }
      var key := DedupeKey(cases, kind, legalName);
      if key in seen {
        b.Append(RowResult(row.number, Duplicate, About("a party of this type and name already exists", legalName)));
        return;
      }
      seen' := seen + {key};
      if dryRun {
        b.Append(RowResult(row.number, Valid, NoMessage));
        return;
      }
      var party := Party(kind, legalName, phone, email, currency);
      if !Storable(party) { return seen, false; }
      parties := parties + [party];
      b.Append(RowResult(row.number, Committed, NoMessage));
    }

    method ImportParties(mayManage: bool, rows: seq<Row>, dryRun: bool) returns (r: Result<Report, ImportError>)
      modifies this`parties
      ensures var vs, existing := Verdicts(cases, rows), ExistingKeys(cases, old(parties));
        && (r.Ok? <==> mayManage && (dryRun || AllStorable(Written(vs, existing))))
        && (r.Err? ==> r.error == (if mayManage then StorageRejected else Forbidden) && parties == old(parties))
        && (r.Ok? ==> IsReport(r.value, dryRun, Results(vs, existing, dryRun)))
        && (r.Ok? ==> parties == old(parties) + if dryRun then [] else Written(vs, existing))
    {
      if !mayManage { return Err(Forbidden); }
      var b := new Builder(dryRun);
      var saved := parties;
      var seen := LoadKeys();
      ghost var vs, existing := Verdicts(cases, rows), seen;
      ghost var written: seq<Party> := [];
      for i := 0 to |rows|
        invariant fresh(b) && parties == old(parties) + written
        invariant Progress(vs, existing, dryRun, i, b.results, seen, written)
        invariant dryRun || AllStorable(Written(vs[..i], existing))
      {
        ProgressStep(vs, existing, dryRun, i, b.results, seen, written);
        ghost var more := if Fresh(vs[..i], existing, vs[i]) && !dryRun then [vs[i].entity] else [];
        Regroup(old(parties), written, more);
        var stored;
        seen, stored := ImportRow(b, seen, rows[i], dryRun, vs[..i], existing);
        if !stored {
          Refused(vs, existing, i);
          parties := saved;
          return Err(StorageRejected);
        }
        written := written + more;
      }
      assert vs[..|rows|] == vs;
      var report := b.Report();
      return Ok(report);
    }
  }

  lemma {:induction false} Refused(vs: seq<Verdict<Party>>, existing: set<string>, i: nat)
    requires i < |vs| && Fresh(vs[..i], existing, vs[i]) && !Storable(vs[i].entity)
    ensures !AllStorable(Written(vs, existing))
  {
    Advance(vs, existing, i, false);
    WrittenPrefix(vs, existing, i + 1);
    var n := |Written(vs[..i], existing)|;
    assert Written(vs, existing)[n] == vs[i].entity;
  }

  // ---------- Laws ----------

  /** Every row that a dry run calls valid has a currency code of at most three characters. */
  predicate ValidRowsFit(vs: seq<Verdict<Party>>, existing: set<string>) {
    var rehearsed := Results(vs, existing, true);
    forall i | 0 <= i < |vs| && rehearsed[i].outcome == Valid :: vs[i].Accepted? && |vs[i].entity.currency| <= 3
  }

  lemma {:induction false} ValidRowsFitStep(vs: seq<Verdict<Party>>, existing: set<string>)
    requires vs != []
    ensures var n := |vs| - 1;
            ValidRowsFit(vs, existing) <==>
            ValidRowsFit(vs[..n], existing) && (Fresh(vs[..n], existing, vs[n]) ==> Storable(vs[n].entity))
  {
    var n, rehearsed := |vs| - 1, Results(vs, existing, true);
    assert forall i | 0 <= i < n :: rehearsed[i] == Results(vs[..n], existing, true)[i] && vs[..n][i] == vs[i];
    assert rehearsed[n].outcome == Valid <==> Fresh(vs[..n], existing, vs[n]);
  }

  lemma {:induction false} AllStorableAppend(ps: seq<Party>, p: Party)
    ensures AllStorable(ps + [p]) <==> AllStorable(ps) && Storable(p)
  {
    assert p in ps + [p] && forall q <- ps :: q in ps + [p];
  }

  /** A committing import goes through exactly if every row that a dry run calls valid has a currency
    * code that fits. */
  lemma {:induction false} CommitsWhatWasValid(vs: seq<Verdict<Party>>, existing: set<string>)
    ensures AllStorable(Written(vs, existing)) <==> ValidRowsFit(vs, existing)
    decreases |vs|
  {
    if vs != [] {
      var n := |vs| - 1;
      CommitsWhatWasValid(vs[..n], existing);
      ValidRowsFitStep(vs, existing);
      AllStorableAppend(Written(vs[..n], existing),
                        if vs[n].Accepted? then vs[n].entity else Party("", "", "", "", ""));
    }
  }

  /** A dry run can promise a row that the committing import then refuses, and all others with it. */
  lemma {:induction false} ValidRowCanFail(c: Cases, row: Row)
    requires VerdictOf(c, row).Accepted? && |Trim(Field(row, "currency_code"))| > 3
    ensures Results(Verdicts(c, [row]), {}, true)[0].outcome == Valid && !AllStorable(Written(Verdicts(c, [row]), {}))
  {
    var vs := Verdicts(c, [row]);
    assert vs[..0] == [] && vs == [VerdictOf(c, row)];
    assert Fresh(vs[..0], {}, vs[0]);
    Refused(vs, {}, 0);
  }

  lemma {:induction false} VerdictsKeyed(c: Cases, rows: seq<Row>)
    ensures KeyedBy(Verdicts(c, rows), p => KeyOf(c, p))
  {
    forall i | 0 <= i < |rows| && VerdictOf(c, rows[i]).Accepted?
      ensures KeyOf(c, VerdictOf(c, rows[i]).entity) == VerdictOf(c, rows[i]).key
    {
      TrimTwice(Field(rows[i], "legal_name"));
    }
  }

  lemma {:induction false} ExistingHasKey(c: Cases, ps: seq<Party>, key: string)
    ensures key in ExistingKeys(c, ps) <==> HasKey(ps, p => KeyOf(c, p), key)
  {
    if ps != [] {
      var n := |ps| - 1;
      ExistingHasKey(c, ps[..n], key);
      HasKeyAppend(ps[..n], ps[n], p => KeyOf(c, p), key);
      assert ps[..n] + [ps[n]] == ps;
    }
  }

  /** Importing the same rows again, in either mode, writes nothing. */
  lemma {:induction false} ReimportCommitsNothing(c: Cases, ps: seq<Party>, rows: seq<Row>, dryRun: bool)
    ensures var vs := Verdicts(c, rows);
            var after := ps + Written(vs, ExistingKeys(c, ps));
      && Written(vs, ExistingKeys(c, after)) == []
      && forall i | 0 <= i < |rows|
          :: Results(vs, ExistingKeys(c, after), dryRun)[i].outcome == if vs[i].Accepted? then Duplicate else Error
  {
    var vs := Verdicts(c, rows);
    var written := Written(vs, ExistingKeys(c, ps));
    VerdictsKeyed(c, rows);
    forall v <- vs | v.Accepted? ensures v.key in ExistingKeys(c, ps + written) {
      var i :| 0 <= i < |vs| && vs[i] == v;
      assert Taken(vs, ExistingKeys(c, ps), v.key);
      WrittenKeys(vs, ExistingKeys(c, ps), p => KeyOf(c, p), v.key);
      ExistingHasKey(c, ps, v.key);
      ExistingHasKey(c, ps + written, v.key);
      HasKeyConcat(ps, written, p => KeyOf(c, p), v.key);
    }
    NothingLeft(vs, ExistingKeys(c, ps + written), dryRun);
  }

  /** An import never gives two parties of a type the same name, up to case and surrounding space. */
  lemma {:induction false} KeysStayDistinct(c: Cases, ps: seq<Party>, rows: seq<Row>)
    requires DistinctKeys(ps, p => KeyOf(c, p))
    ensures DistinctKeys(ps + Written(Verdicts(c, rows), ExistingKeys(c, ps)), p => KeyOf(c, p))
  {
    var vs, existing := Verdicts(c, rows), ExistingKeys(c, ps);
    var ws := Written(vs, existing);
    VerdictsKeyed(c, rows);
    WrittenAreDistinct(vs, existing, p => KeyOf(c, p));
    forall j | 0 <= j < |ws| ensures !HasKey(ps, p => KeyOf(c, p), KeyOf(c, ws[j])) {
      WrittenKeys(vs, existing, p => KeyOf(c, p), KeyOf(c, ws[j]));
      ExistingHasKey(c, ps, KeyOf(c, ws[j]));
    }
  }

  // ---------- What is accepted, and what is the same ----------

  /** A row is acceptable exactly if its type is one of the three, in any case, and it has a name and a
    * currency; it becomes the party of its trimmed cells. */
  lemma {:induction false} AcceptedExactly(c: Cases, row: Row)
    ensures var v, kind := VerdictOf(c, row), c.Upper(Text(row, "party_type"));
      && v.number == row.number
      && (v.Accepted? <==> kind in {"CUSTOMER", "SUPPLIER", "BOTH"} && Text(row, "legal_name") != ""
                           && c.Upper(Text(row, "currency_code")) != "")
      && (v.Accepted? ==> v.entity == Party(kind, Text(row, "legal_name"), Text(row, "phone"), Text(row, "email"),
                                            c.Upper(Text(row, "currency_code"))))
  {
    assert Trim("") == "";
  }

  /** Both are of one type, and their names are alike but for case and surrounding space. */
  predicate SameParty(c: Cases, p: Party, q: Party) {
    p.kind == q.kind && AlikeButCase(c, Trim(p.legalName), Trim(q.legalName))
  }

  lemma {:induction false} KeysTellParties(c: Cases, p: Party, q: Party)
    requires p.kind in {"CUSTOMER", "SUPPLIER", "BOTH"} && q.kind in {"CUSTOMER", "SUPPLIER", "BOTH"}
    ensures KeyOf(c, p) == KeyOf(c, q) <==> SameParty(c, p, q)
  {
    var a, b := c.Lower(Trim(p.legalName)), c.Lower(Trim(q.legalName));
    SameLower(c, Trim(p.legalName), Trim(q.legalName));
    hide Trim, Cases.Lower;
    if KeyOf(c, p) == KeyOf(c, q) {
      SplitsAtBar(p.kind, a, q.kind, b);
    }
  }

  lemma {:induction false} SplitsAtBar(s: string, a: string, t: string, b: string)
    requires s in {"CUSTOMER", "SUPPLIER", "BOTH"} && t in {"CUSTOMER", "SUPPLIER", "BOTH"}
    requires s + "|" + a == t + "|" + b
    ensures s == t && a == b
  {
    var x := s + "|" + a;
    assert x[0] == s[0] == t[0];
    assert s == t;
    assert x[|s| + 1..] == a && x[|t| + 1..] == b;
  }

  /** If no two parties are the same, none are after an import: it adds no party that is one of them, and
    * none twice. */
  lemma {:induction false} PartiesStayDistinct(c: Cases, ps: seq<Party>, rows: seq<Row>)
    requires forall p <- ps :: p.kind in {"CUSTOMER", "SUPPLIER", "BOTH"}
    requires forall i, j | 0 <= i < j < |ps| :: !SameParty(c, ps[i], ps[j])
    ensures var after := ps + Written(Verdicts(c, rows), ExistingKeys(c, ps));
            forall i, j | 0 <= i < j < |after| :: !SameParty(c, after[i], after[j])
  {
    var ws := Written(Verdicts(c, rows), ExistingKeys(c, ps));
    var after := ps + ws;
    forall i, j | 0 <= i < j < |ps| ensures KeyOf(c, ps[i]) != KeyOf(c, ps[j]) { KeysTellParties(c, ps[i], ps[j]); }
    KeysStayDistinct(c, ps, rows);
    WrittenKinds(c, rows, ExistingKeys(c, ps));
    forall i, j | 0 <= i < j < |after| ensures !SameParty(c, after[i], after[j]) {
      assert after[i] in ps || after[i] in ws;
      assert after[j] in ps || after[j] in ws;
      KeysTellParties(c, after[i], after[j]);
    }
  }

  lemma {:induction false} WrittenKinds(c: Cases, rows: seq<Row>, existing: set<string>)
    ensures forall p <- Written(Verdicts(c, rows), existing) :: p.kind in {"CUSTOMER", "SUPPLIER", "BOTH"}
    decreases |rows|
  {
    if rows != [] {
      var n := |rows| - 1;
      WrittenKinds(c, rows[..n], existing);
      AcceptedExactly(c, rows[n]);
      assert Verdicts(c, rows)[..n] == Verdicts(c, rows[..n]);
    }
  }
}
