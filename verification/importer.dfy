/** internal/platform/importer: spreadsheet rows, and a report with one result per row. */
module Importer {
  import opened Wrappers

  // ---------- Text ----------

  /** White space as the Unicode standard lists it. */
  predicate IsSpace(c: char) {
    || c in {' ', '\t', '\n', '\r', '\U{000B}', '\U{000C}', '\U{0085}', '\U{00A0}', '\U{1680}'}
    || '\U{2000}' <= c <= '\U{200A}'
    || c in {'\U{2028}', '\U{2029}', '\U{202F}', '\U{205F}', '\U{3000}'}
  }

  function TrimLeft(s: string): (r: string)
    ensures r == [] || !IsSpace(r[0])
  {
    if s != [] && IsSpace(s[0]) then TrimLeft(s[1..]) else s
  }

  function TrimRight(s: string): (r: string)
    ensures r <= s && (r == [] || !IsSpace(r[|r| - 1]))
  {
    if s != [] && IsSpace(s[|s| - 1]) then TrimRight(s[..|s| - 1]) else s
  }

  function Trim(s: string): string {
    TrimRight(TrimLeft(s))
  }

  lemma {:induction false} TrimTwice(s: string)
    ensures Trim(Trim(s)) == Trim(s)
  {
    assert Trim(s) == [] || Trim(s)[0] == TrimLeft(s)[0];
  }

  /** Trimming drops white space from both ends, and only that. */
  lemma {:induction false} TrimKeepsTheMiddle(s: string) returns (before: string, after: string)
    ensures s == before + Trim(s) + after
    ensures (forall c <- before :: IsSpace(c)) && (forall c <- after :: IsSpace(c))
    ensures Trim(s) != [] ==> !IsSpace(Trim(s)[0]) && !IsSpace(Trim(s)[|Trim(s)| - 1])
  {
    before := LeftSpace(s);
    after := RightSpace(TrimLeft(s));
    assert Trim(s) != [] ==> Trim(s)[0] == TrimLeft(s)[0];
    assert before + (Trim(s) + after) == before + Trim(s) + after;
  }

  lemma {:induction false} LeftSpace(s: string) returns (before: string)
    ensures s == before + TrimLeft(s) && forall c <- before :: IsSpace(c)
  {
    before := [];
    if s != [] && IsSpace(s[0]) {
      before := LeftSpace(s[1..]);
      before := [s[0]] + before;
    }
  }

  lemma {:induction false} RightSpace(s: string) returns (after: string)
    ensures s == TrimRight(s) + after && forall c <- after :: IsSpace(c)
  {
    after := [];
    if s != [] && IsSpace(s[|s| - 1]) {
      after := RightSpace(s[..|s| - 1]);
      after := after + [s[|s| - 1]];
    }
  }

  /** Below 128 white space is tab, line feed, vertical tab, form feed, carriage return and space; above,
    * the next-line and no-break characters, the spaces of general punctuation and the two separators,
    * and the Ogham and ideographic spaces. */
  lemma {:induction false} SpacesByCode(c: char)
    ensures IsSpace(c) <==> var n := c as int;
      || 9 <= n <= 13 || n == 32 || n == 0x85 || n == 0xA0 || n == 0x1680 || 0x2000 <= n <= 0x200A
      || n == 0x2028 || n == 0x2029 || n == 0x202F || n == 0x205F || n == 0x3000
  {
    assert ('\U{000B}' as int) == 11 && ('\U{000C}' as int) == 12 && ('\U{0085}' as int) == 0x85;
  }

  /** Letter case, character by character. */
  datatype Cases = Cases(lower: char -> char, upper: char -> char) {
    function Lower(s: string): string { seq(|s|, i requires 0 <= i < |s| => lower(s[i])) }

    function Upper(s: string): string { seq(|s|, i requires 0 <= i < |s| => upper(s[i])) }
  }

  /** Lower and upper case are taken letter by letter. */
  lemma {:induction false} CasesByLetter(c: Cases, s: string)
    ensures |c.Lower(s)| == |s| && forall i | 0 <= i < |s| :: c.Lower(s)[i] == c.lower(s[i])
    ensures |c.Upper(s)| == |s| && forall i | 0 <= i < |s| :: c.Upper(s)[i] == c.upper(s[i])
  {
  }

  /** Two texts differ at most in letter case. */
  predicate AlikeButCase(c: Cases, a: string, b: string) {
    |a| == |b| && forall i | 0 <= i < |a| :: c.lower(a[i]) == c.lower(b[i])
  }

  lemma {:induction false} SameLower(c: Cases, a: string, b: string)
    ensures c.Lower(a) == c.Lower(b) <==> AlikeButCase(c, a, b)
  {
    CasesByLetter(c, a);
    CasesByLetter(c, b);
    if AlikeButCase(c, a, b) {
      assert forall i | 0 <= i < |a| :: c.Lower(a)[i] == c.Lower(b)[i];
    }
    if c.Lower(a) == c.Lower(b) {
      forall i | 0 <= i < |a| ensures c.lower(a[i]) == c.lower(b[i]) { assert c.Lower(a)[i] == c.Lower(b)[i]; }
    }
  }

  // ---------- Rows ----------

  /** A data row; rows are numbered from 1. */
  datatype Row = Row(number: nat, fields: map<string, string>)

  /** A missing column reads as empty. */
  function Field(row: Row, name: string): string {
    if name in row.fields then row.fields[name] else ""
  }

  /** A row's cell without surrounding white space; a missing one is empty. */
  function Text(row: Row, name: string): string {
    if name in row.fields then Trim(row.fields[name]) else ""
  }

  function Cell(rec: seq<string>, col: nat): string {
    if col < |rec| then Trim(rec[col]) else ""
  }

  /** A record's cells under the trimmed header names; a later column of the same name wins. */
  function FieldsOf(header: seq<string>, rec: seq<string>): map<string, string> {
    if header == [] then map[]
    else
      var col := |header| - 1;
      var before := FieldsOf(header[..col], rec);
      if Trim(header[col]) == "" then before else before[Trim(header[col]) := Cell(rec, col)]
  }

  /** Every named column is a field of every row, however short the row, and holds its trimmed cell
    * unless a later column bears the same name. */
  lemma {:induction false} FieldHoldsItsCell(header: seq<string>, rec: seq<string>, col: nat)
    requires col < |header| && Trim(header[col]) != ""
    ensures Trim(header[col]) in FieldsOf(header, rec)
    ensures (forall j | col < j < |header| :: Trim(header[j]) != Trim(header[col]))
            ==> FieldsOf(header, rec)[Trim(header[col])] == if col < |rec| then Trim(rec[col]) else ""
  {
    if col < |header| - 1 { FieldHoldsItsCell(header[..|header| - 1], rec, col); }
  }

  method TrimHeader(header: seq<string>) returns (trimmed: seq<string>)
    ensures |trimmed| == |header| && forall j | 0 <= j < |header| :: trimmed[j] == Trim(header[j])
  {
    trimmed := [];
    for i := 0 to |header|
      invariant |trimmed| == i && forall j | 0 <= j < i :: trimmed[j] == Trim(header[j])
    {
      trimmed := trimmed + [Trim(header[i])];
    }
  }

  method RowFields(trimmed: seq<string>, rec: seq<string>, ghost header: seq<string>)
      returns (fields: map<string, string>)
    requires |trimmed| == |header| && forall j | 0 <= j < |header| :: trimmed[j] == Trim(header[j])
    ensures fields == FieldsOf(header, rec)
  {
    fields := map[];
    for col := 0 to |trimmed|
      invariant fields == FieldsOf(header[..col], rec)
    {
      assert header[..col + 1][..col] == header[..col];
      if trimmed[col] != "" {
        fields := fields[trimmed[col] := if col < |rec| then Trim(rec[col]) else ""];
      }
    }
    assert header[..|header|] == header;
  }

  method ToRows(header: seq<string>, dataRows: seq<seq<string>>) returns (rows: seq<Row>)
    ensures |rows| == |dataRows|
    ensures forall i | 0 <= i < |rows| :: rows[i] == Row(i + 1, FieldsOf(header, dataRows[i]))
  {
    var trimmedHeader := TrimHeader(header);
    rows := [];
    for i := 0 to |dataRows|
      invariant |rows| == i && forall j | 0 <= j < i :: rows[j] == Row(j + 1, FieldsOf(header, dataRows[j]))
    {
      var fields := RowFields(trimmedHeader, dataRows[i], header);
      rows := rows + [Row(i + 1, fields)];
    }
  }

  // ---------- Reports ----------

  datatype Outcome = Committed | Valid | Error | Duplicate

  datatype Message = NoMessage | About(template: string, argument: string)

  datatype RowResult = RowResult(number: nat, outcome: Outcome, message: Message)

  datatype Report = Summary(dryRun: bool, total: nat, committed: nat, valid: nat, errors: nat, duplicates: nat,
                            results: seq<RowResult>)

  function Count(rs: seq<RowResult>, o: Outcome): nat {
    if rs == [] then 0 else Count(rs[..|rs| - 1], o) + if rs[|rs| - 1].outcome == o then 1 else 0
  }

  lemma {:induction false} CountsAddUp(rs: seq<RowResult>)
    ensures Count(rs, Committed) + Count(rs, Valid) + Count(rs, Error) + Count(rs, Duplicate) == |rs|
  {
    if rs != [] { CountsAddUp(rs[..|rs| - 1]); }
  }

  /** The four counts partition the rows. */
  predicate IsReport(r: Report, dryRun: bool, results: seq<RowResult>) {
    && r.dryRun == dryRun && r.results == results && r.total == |results|
    && r.committed == Count(results, Committed) && r.valid == Count(results, Valid)
    && r.errors == Count(results, Error) && r.duplicates == Count(results, Duplicate)
    && r.committed + r.valid + r.errors + r.duplicates == r.total
  }

  class Builder {
    const dryRun: bool
    var results: seq<RowResult>

    constructor (dryRun: bool)
      ensures this.dryRun == dryRun && results == []
    {
      this.dryRun := dryRun;
      results := [];
    }

    method Append(r: RowResult)
      modifies this
      ensures results == old(results) + [r]
    {
      results := results + [r];
    }

    method Report() returns (r: Report)
      ensures IsReport(r, dryRun, results)
    {
      var committed, valid, errors, duplicates := 0, 0, 0, 0;
      for i := 0 to |results|
        invariant committed == Count(results[..i], Committed) && valid == Count(results[..i], Valid)
        invariant errors == Count(results[..i], Error) && duplicates == Count(results[..i], Duplicate)
      {
        assert results[..i + 1][..i] == results[..i];
        match results[i].outcome {
          case Committed => committed := committed + 1;
          case Valid => valid := valid + 1;
          case Error => errors := errors + 1;
          case Duplicate => duplicates := duplicates + 1;
        }
      }
      assert results[..|results|] == results;
      CountsAddUp(results);
      return Summary(dryRun, |results|, committed, valid, errors, duplicates, results);
    }
  }

  // ---------- One import pass ----------

  /** What validation alone makes of a row: a reason to reject it, or an entity and the key under which
    * another of the kind would be its duplicate. */
  datatype Verdict<T> =
    | Rejected(number: nat, reason: Message)
    | Accepted(number: nat, key: string, entity: T, ifTaken: Message)

  /** The key is taken by an existing entity or by an earlier row. */
  predicate Taken<T>(before: seq<Verdict<T>>, existing: set<string>, key: string) {
    key in existing || exists j | 0 <= j < |before| :: before[j].Accepted? && before[j].key == key
  }

  /** The row would be written: it is acceptable and the first to bring its key. */
  predicate Fresh<T>(before: seq<Verdict<T>>, existing: set<string>, v: Verdict<T>) {
    v.Accepted? && !Taken(before, existing, v.key)
  }

  function ResultOf<T>(before: seq<Verdict<T>>, existing: set<string>, v: Verdict<T>, dryRun: bool): RowResult {
    if v.Rejected? then RowResult(v.number, Error, v.reason)
    else if Taken(before, existing, v.key) then RowResult(v.number, Duplicate, v.ifTaken)
    else RowResult(v.number, if dryRun then Valid else Committed, NoMessage)
  }

  function Results<T>(vs: seq<Verdict<T>>, existing: set<string>, dryRun: bool): (rs: seq<RowResult>)
    ensures |rs| == |vs|
    decreases |vs|
  {
    if vs == [] then []
    else Results(vs[..|vs| - 1], existing, dryRun) + [ResultOf(vs[..|vs| - 1], existing, vs[|vs| - 1], dryRun)]
  }

  /** The entities a committing pass writes. */
  function Written<T>(vs: seq<Verdict<T>>, existing: set<string>): seq<T>
    decreases |vs|
  {
    if vs == [] then []
    else Written(vs[..|vs| - 1], existing)
         + if Fresh(vs[..|vs| - 1], existing, vs[|vs| - 1]) then [vs[|vs| - 1].entity] else []
  }

  lemma {:induction false} Advance<T>(vs: seq<Verdict<T>>, existing: set<string>, i: nat, dryRun: bool)
    requires i < |vs|
    ensures Results(vs[..i + 1], existing, dryRun)
            == Results(vs[..i], existing, dryRun) + [ResultOf(vs[..i], existing, vs[i], dryRun)]
    ensures Written(vs[..i + 1], existing) == Written(vs[..i], existing) +
            if Fresh(vs[..i], existing, vs[i]) then [vs[i].entity] else []
  {
    assert vs[..i + 1][..i] == vs[..i];
  }

  lemma {:induction false} TakenNext<T>(vs: seq<Verdict<T>>, existing: set<string>, i: nat, key: string)
    requires i < |vs|
    ensures Taken(vs[..i + 1], existing, key)
            <==> Taken(vs[..i], existing, key) || (vs[i].Accepted? && vs[i].key == key)
  {
    if key !in existing && Taken(vs[..i + 1], existing, key) {
      var j :| 0 <= j < i + 1 && vs[..i + 1][j].Accepted? && vs[..i + 1][j].key == key;
      assert j < i ==> vs[..i][j] == vs[j];
    }
    if key !in existing && Taken(vs[..i], existing, key) {
      var j :| 0 <= j < i && vs[..i][j].Accepted? && vs[..i][j].key == key;
      assert vs[..i + 1][j] == vs[j];
    }
    assert vs[..i + 1][i] == vs[i];
  }

  lemma {:induction false} WrittenPrefix<T>(vs: seq<Verdict<T>>, existing: set<string>, i: nat)
    requires i <= |vs|
    ensures Written(vs[..i], existing) <= Written(vs, existing)
    decreases |vs|
  {
    if i < |vs| {
      WrittenPrefix(vs[..|vs| - 1], existing, i);
      assert vs[..|vs| - 1][..i] == vs[..i];
    } else {
      assert vs[..i] == vs;
    }
  }

  lemma {:induction false} Regroup<T>(a: seq<T>, b: seq<T>, c: seq<T>)
    ensures (a + b) + c == a + (b + c)
  {
  }

  /** How far a pass has come after i rows: its results, the keys it has seen and what it has written. */
  ghost predicate Progress<T>(vs: seq<Verdict<T>>, existing: set<string>, dryRun: bool, i: nat,
                              results: seq<RowResult>, seen: set<string>, written: seq<T>) {
    && i <= |vs|
    && results == Results(vs[..i], existing, dryRun)
    && (forall k :: k in seen <==> Taken(vs[..i], existing, k))
    && written == if dryRun then [] else Written(vs[..i], existing)
  }

  /** What the next row adds. */
  lemma {:induction false} ProgressStep<T>(vs: seq<Verdict<T>>, existing: set<string>, dryRun: bool, i: nat,
                        results: seq<RowResult>, seen: set<string>, written: seq<T>)
    requires Progress(vs, existing, dryRun, i, results, seen, written) && i < |vs|
    ensures Progress(vs, existing, dryRun, i + 1,
                     results + [ResultOf(vs[..i], existing, vs[i], dryRun)],
                     seen + (if vs[i].Accepted? then {vs[i].key} else {}),
                     written + if Fresh(vs[..i], existing, vs[i]) && !dryRun then [vs[i].entity] else [])
  {
    Advance(vs, existing, i, dryRun);
    forall k ensures Taken(vs[..i + 1], existing, k)
        <==> Taken(vs[..i], existing, k) || (vs[i].Accepted? && vs[i].key == k) {
      TakenNext(vs, existing, i, k);
    }
  }

  /** A dry run and a committing pass over the same rows say the same of each row, with VALID in place
    * of COMMITTED; a dry run commits nothing and leaves no row valid in the other. */
  lemma {:induction false} DryRunPredicts<T>(vs: seq<Verdict<T>>, existing: set<string>)
    ensures var rehearsed, done := Results(vs, existing, true), Results(vs, existing, false);
      && (forall i | 0 <= i < |vs|
          :: done[i] == if rehearsed[i].outcome.Valid? then rehearsed[i].(outcome := Committed) else rehearsed[i])
      && Count(done, Committed) == Count(rehearsed, Valid) == |Written(vs, existing)|
      && Count(done, Valid) == Count(rehearsed, Committed) == 0
      && Count(done, Error) == Count(rehearsed, Error) && Count(done, Duplicate) == Count(rehearsed, Duplicate)
    decreases |vs|
  {
    if vs != [] { DryRunPredicts(vs[..|vs| - 1], existing); }
  }

  predicate KeyedBy<T>(vs: seq<Verdict<T>>, keyOf: T -> string) {
    forall i | 0 <= i < |vs| && vs[i].Accepted? :: keyOf(vs[i].entity) == vs[i].key
  }

  predicate HasKey<T>(ws: seq<T>, keyOf: T -> string, key: string) {
    exists i | 0 <= i < |ws| :: keyOf(ws[i]) == key
  }

  /** A pass writes an entity under a key exactly if some acceptable row brings it and it was free. */
  lemma {:induction false} WrittenKeys<T>(vs: seq<Verdict<T>>, existing: set<string>, keyOf: T -> string, key: string)
    requires KeyedBy(vs, keyOf)
    ensures HasKey(Written(vs, existing), keyOf, key) <==> key !in existing && Taken(vs, existing, key)
    decreases |vs|
  {
    if vs != [] {
      var n := |vs| - 1;
      assert vs[..n + 1] == vs;
      WrittenKeys(vs[..n], existing, keyOf, key);
      TakenNext(vs, existing, n, key);
      var before := Written(vs[..n], existing);
      if Fresh(vs[..n], existing, vs[n]) {
        HasKeyAppend(before, vs[n].entity, keyOf, key);
      } else {
        assert Written(vs, existing) == before;
      }
    }
  }

  lemma {:induction false} HasKeyAppend<T>(ws: seq<T>, w: T, keyOf: T -> string, key: string)
    ensures HasKey(ws + [w], keyOf, key) <==> HasKey(ws, keyOf, key) || keyOf(w) == key
  {
    var all := ws + [w];
    assert all[|ws|] == w && forall i | 0 <= i < |ws| :: all[i] == ws[i];
  }

  lemma {:induction false} HasKeyConcat<T>(ps: seq<T>, ws: seq<T>, keyOf: T -> string, key: string)
    ensures HasKey(ps + ws, keyOf, key) <==> HasKey(ps, keyOf, key) || HasKey(ws, keyOf, key)
  {
    var all := ps + ws;
    assert forall i | 0 <= i < |ps| :: all[i] == ps[i];
    assert forall i | 0 <= i < |ws| :: all[|ps| + i] == ws[i];
  }

  predicate DistinctKeys<T>(ws: seq<T>, keyOf: T -> string) {
    forall i, j | 0 <= i < j < |ws| :: keyOf(ws[i]) != keyOf(ws[j])
  }

  /** No two entities a pass writes bear the same key. */
  lemma {:induction false} WrittenAreDistinct<T>(vs: seq<Verdict<T>>, existing: set<string>, keyOf: T -> string)
    requires KeyedBy(vs, keyOf)
    ensures DistinctKeys(Written(vs, existing), keyOf)
    decreases |vs|
  {
    if vs != [] {
      var n := |vs| - 1;
      WrittenAreDistinct(vs[..n], existing, keyOf);
      if Fresh(vs[..n], existing, vs[n]) { WrittenKeys(vs[..n], existing, keyOf, vs[n].key); }
    }
  }

  /** Once every acceptable row's key exists, a pass writes nothing: its rows are duplicates or errors. */
  lemma {:induction false} NothingLeft<T>(vs: seq<Verdict<T>>, existing: set<string>, dryRun: bool)
    requires forall v <- vs :: v.Accepted? ==> v.key in existing
    ensures Written(vs, existing) == []
    ensures forall i | 0 <= i < |vs|
            :: Results(vs, existing, dryRun)[i].outcome == if vs[i].Accepted? then Duplicate else Error
    decreases |vs|
  {
    if vs != [] {
      assert vs[|vs| - 1] in vs && forall v <- vs[..|vs| - 1] :: v in vs;
      NothingLeft(vs[..|vs| - 1], existing, dryRun);
    }
  }
}
