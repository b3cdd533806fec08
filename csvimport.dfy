/**
 * Importing patients from a CSV file: splitting the text into non-blank
 * lines, recognising a header line, naming the columns of a file without
 * one, turning each line into a row keyed by column name, and the preview
 * filter that maps columns to patient fields and keeps only the rows with a
 * name and a phone number.
 */
module CsvImport {
  import opened Wrappers
  import opened Text

  /** `v.trim().replace(/"/g, '')`. */
  function CleanCell(v: string): (r: string)
    ensures '"' !in r
    ensures r == RemoveAll(Trim(v), '"')
  {
    RemoveAll(Trim(v), '"')
  }

  /** A line's cells: split at every comma, each cell cleaned. */
  function CellsOf(line: string): (r: seq<string>)
    ensures |r| == |Split(line, ',')| >= 1
  {
    var parts := Split(line, ',');
    seq(|parts|, k requires 0 <= k < |parts| => CleanCell(parts[k]))
  }

  lemma {:induction false} RemoveAllKeepsOthers(s: string, c: char)
    ensures forall x :: x in RemoveAll(s, c) ==> x in s
  {
    if s != [] {
      RemoveAllKeepsOthers(s[1..], c);
    }
  }

  /** Each cell is the cleaned piece between two commas, so no cell holds a comma or a quote. */
  lemma CellsOfPieces(line: string)
    ensures forall k :: 0 <= k < |CellsOf(line)| ==> CellsOf(line)[k] == CleanCell(Split(line, ',')[k])
    ensures forall k :: 0 <= k < |CellsOf(line)| ==> '"' !in CellsOf(line)[k] && ',' !in CellsOf(line)[k]
  {
    var parts := Split(line, ',');
    forall k | 0 <= k < |parts| ensures ',' !in CellsOf(line)[k] {
      assert ',' !in parts[k];
      var t := TrimStart(parts[k]);
      assert forall x :: x in Trim(parts[k]) ==> x in t;
      assert forall x :: x in t ==> x in parts[k];
      RemoveAllKeepsOthers(Trim(parts[k]), '"');
    }
  }

  /** `lines.filter(line => line.trim())`: the lines that are not blank, in order. */
  function NonBlankLines(lines: seq<string>): (r: seq<string>)
    ensures forall l :: l in r <==> l in lines && !AllSpaces(l)
    ensures |r| <= |lines|
  {
    if lines == [] then []
    else
      var rest := NonBlankLines(lines[1..]);
      assert forall l :: l in lines <==> l == lines[0] || l in lines[1..];
      TrimEmptyIffBlank(lines[0]);
      if Trim(lines[0]) != [] then [lines[0]] + rest else rest
  }

  /** Every non-blank line is kept as often as it occurs, and no blank one. */
  lemma {:induction false} NonBlankLinesCounts(lines: seq<string>)
    ensures forall l :: multiset(NonBlankLines(lines))[l] == if !AllSpaces(l) then multiset(lines)[l] else 0
    decreases |lines|
  {
    if lines != [] {
      assert lines == [lines[0]] + lines[1..];
      TrimEmptyIffBlank(lines[0]);
      NonBlankLinesCounts(lines[1..]);
    }
  }

  /** The filter keeps line order: the lines of `a + b` are those of `a`, then those of `b`. */
  lemma {:induction false} NonBlankLinesConcat(a: seq<string>, b: seq<string>)
    ensures NonBlankLines(a + b) == NonBlankLines(a) + NonBlankLines(b)
    decreases |a|
  {
    if a == [] {
      assert a + b == b;
    } else {
      assert (a + b)[1..] == a[1..] + b;
      NonBlankLinesConcat(a[1..], b);
    }
  }

  /** The first line is a header line when, lower-cased, it names one of the usual columns. */
  predicate LooksLikeHeader(line: string) {
    var l := Lower(line);
    Contains(l, "nombre") || Contains(l, "apellido") || Contains(l, "paciente")
    || Contains(l, "telefono") || Contains(l, "cedula")
  }

  /** The fixed columns of the clinic's legacy export, which has no header line. */
  const LegacyHeaders: seq<string> := [
    "Apellido", "Nombre", "Sexo", "Col4", "Fecha1", "Fecha2",
    "Direcci\U{F3}n", "Col8", "Tel\U{E9}fono1", "Tel\U{E9}fono2"]

  /** `Columna1`, `Columna2`, …: one name per cell of the first line. */
  function GenericHeaders(n: nat): (r: seq<string>)
    ensures |r| == n
    ensures forall i :: 0 <= i < n ==> r[i] == "Columna" + DecimalString(i + 1)
  {
    seq(n, i requires 0 <= i < n => "Columna" + DecimalString(i + 1))
  }

  /** No two columns share a name when the names are generated. */
  lemma GenericHeadersDistinct(n: nat)
    ensures forall i, j :: 0 <= i < j < n ==> GenericHeaders(n)[i] != GenericHeaders(n)[j]
  {
    var h := GenericHeaders(n);
    forall i, j | 0 <= i < j < n ensures h[i] != h[j] {
      assert h[i][7..] == DecimalString(i + 1);
      assert h[j][7..] == DecimalString(j + 1);
    }
  }

  /**
   * The column names and the index of the first data line: a header line
   * names the columns itself; otherwise a line of at least ten cells is the
   * legacy export, and any other gets generic names.
   */
  function HeadersFor(first: string): (r: (seq<string>, nat))
    ensures r.1 == if LooksLikeHeader(first) then 1 else 0
    ensures LooksLikeHeader(first) ==> r.0 == CellsOf(first)
    ensures !LooksLikeHeader(first) && |CellsOf(first)| >= 10 ==> r.0 == LegacyHeaders
    ensures !LooksLikeHeader(first) && |CellsOf(first)| < 10 ==> |r.0| == |CellsOf(first)|
    ensures !LooksLikeHeader(first) && |CellsOf(first)| < 10 ==> r.0 == GenericHeaders(|CellsOf(first)|)
    ensures !LooksLikeHeader(first) ==> forall i, j :: 0 <= i < j < |r.0| ==> r.0[i] != r.0[j]
  {
    if LooksLikeHeader(first) then (CellsOf(first), 1)
    else if |CellsOf(first)| >= 10 then (LegacyHeaders, 0)
    else
      GenericHeadersDistinct(|CellsOf(first)|);
      (GenericHeaders(|CellsOf(first)|), 0)
  }

  /** `values[index] || ''`: a missing cell reads as empty. */
  function CellAt(values: seq<string>, k: nat): string {
    if k < |values| then values[k] else ""
  }

  /** The row after the first `n` columns were assigned; a repeated name keeps the later cell. */
  function RowPrefix(headers: seq<string>, values: seq<string>, n: nat): map<string, string>
    requires n <= |headers|
  {
    if n == 0 then map[] else RowPrefix(headers, values, n - 1)[headers[n - 1] := CellAt(values, n - 1)]
  }

  lemma {:induction false} RowPrefixKeys(headers: seq<string>, values: seq<string>, n: nat)
    requires n <= |headers|
    ensures RowPrefix(headers, values, n).Keys == set k | 0 <= k < n :: headers[k]
  {
    if n > 0 {
      RowPrefixKeys(headers, values, n - 1);
      assert (set k | 0 <= k < n :: headers[k]) == (set k | 0 <= k < n - 1 :: headers[k]) + {headers[n - 1]};
    }
  }

  lemma {:induction false} RowPrefixValues(headers: seq<string>, values: seq<string>, n: nat, k: nat)
    requires k < n <= |headers|
    requires headers[k] !in headers[k + 1..n]
    ensures headers[k] in RowPrefix(headers, values, n)
    ensures RowPrefix(headers, values, n)[headers[k]] == CellAt(values, k)
  {
    if k < n - 1 {
      assert headers[n - 1] in headers[k + 1..n];
      assert headers[k + 1..n] == headers[k + 1..n - 1] + [headers[n - 1]];
      RowPrefixValues(headers, values, n - 1, k);
    }
  }

  /** The row object of one line: column names to cells. */
  function MakeRow(headers: seq<string>, values: seq<string>): map<string, string> {
    RowPrefix(headers, values, |headers|)
  }

  /**
   * A row has a key per column name; each name holds the cell of its last
   * column, or "" past the end of the line.
   */
  lemma MakeRowMeaning(headers: seq<string>, values: seq<string>)
    ensures MakeRow(headers, values).Keys == set h | h in headers
    ensures forall k :: 0 <= k < |headers| && headers[k] !in headers[k + 1..] ==>
              MakeRow(headers, values)[headers[k]] == CellAt(values, k)
  {
    var n := |headers|;
    RowPrefixKeys(headers, values, n);
    assert (set k | 0 <= k < n :: headers[k]) == set h | h in headers;
    forall k | 0 <= k < n && headers[k] !in headers[k + 1..]
      ensures RowPrefix(headers, values, n)[headers[k]] == CellAt(values, k)
    {
      assert headers[k + 1..] == headers[k + 1..n];
      RowPrefixValues(headers, values, n, k);
    }
  }

  /** The `forEach` that fills one row object, column by column. */
  method BuildRow(headers: seq<string>, values: seq<string>) returns (row: map<string, string>)
    ensures row == MakeRow(headers, values)
  {
    row := map[];
    var j := 0;
    while j < |headers|
      invariant 0 <= j <= |headers|
      invariant row == RowPrefix(headers, values, j)
    {
      row := row[headers[j] := CellAt(values, j)];
      j := j + 1;
    }
  }

  datatype CsvError = EmptyFile

  datatype Table = Table(headers: seq<string>, rows: seq<map<string, string>>)

  /** The rows of the data lines `lines[start..]`, in order. */
  function DataRows(lines: seq<string>, headers: seq<string>, start: nat): (rows: seq<map<string, string>>)
    requires start <= |lines|
    ensures |rows| == |lines| - start
  {
    seq(|lines| - start, i requires 0 <= i < |lines| - start => MakeRow(headers, CellsOf(lines[start + i])))
  }

  /**
   * What `parsearCSV` produces from the file's text: nothing for a file
   * without a non-blank line; otherwise the columns chosen from the first
   * line and one row per data line, the header line (if any) excluded.
   */
  function ParseResult(text: string): (r: Result<Table, CsvError>)
    ensures r.Err? <==> NonBlankLines(Split(text, '\n')) == []
    ensures r.Ok? ==>
              var lines := NonBlankLines(Split(text, '\n'));
              var h := HeadersFor(lines[0]);
              && r.value.headers == h.0
              && |r.value.rows| == |lines| - (if LooksLikeHeader(lines[0]) then 1 else 0)
              && r.value.rows == DataRows(lines, h.0, h.1)
  {
    var lines := NonBlankLines(Split(text, '\n'));
    if lines == [] then Err(EmptyFile)
    else
      var h := HeadersFor(lines[0]);
      Ok(Table(h.0, DataRows(lines, h.0, h.1)))
  }

  /** The loop of `parsearCSV` over the data lines. */
  method ReadRows(lines: seq<string>, headers: seq<string>, start: nat) returns (data: seq<map<string, string>>)
    requires start <= |lines|
    ensures data == DataRows(lines, headers, start)
  {
    ghost var all := DataRows(lines, headers, start);
    data := [];
    var i := start;
    while i < |lines|
      invariant start <= i <= |lines|
      invariant data == all[..i - start]
    {
      var row := BuildRow(headers, CellsOf(lines[i]));
      assert all[..i + 1 - start] == all[..i - start] + [all[i - start]];
      data := data + [row];
      i := i + 1;
    }
    assert all[..i - start] == all;
  }

  /**
   * `parsearCSV`: an empty file (no non-blank line) is refused; otherwise
   * the headers are chosen from the first line and every data line becomes a row.
   */
  method ParseCsv(text: string) returns (r: Result<Table, CsvError>)
    ensures r == ParseResult(text)
  {
    var lines := NonBlankLines(Split(text, '\n'));
    if |lines| < 1 {
      return Err(EmptyFile);
    }
    var h := HeadersFor(lines[0]);
    var data := ReadRows(lines, h.0, h.1);
    return Ok(Table(h.0, data));
  }

  /** Each data row holds, under each column name, that line's cell in the column's position. */
  lemma DataRowsMeaning(lines: seq<string>, headers: seq<string>, start: nat)
    requires start <= |lines|
    ensures forall i :: 0 <= i < |lines| - start ==>
              forall k :: 0 <= k < |headers| && headers[k] !in headers[k + 1..] ==>
                && headers[k] in DataRows(lines, headers, start)[i]
                && DataRows(lines, headers, start)[i][headers[k]] == CellAt(CellsOf(lines[start + i]), k)
  {
    var rows := DataRows(lines, headers, start);
    forall i | 0 <= i < |lines| - start
      ensures forall k :: 0 <= k < |headers| && headers[k] !in headers[k + 1..] ==>
                headers[k] in rows[i] && rows[i][headers[k]] == CellAt(CellsOf(lines[start + i]), k)
    {
      assert rows[i] == MakeRow(headers, CellsOf(lines[start + i]));
      MakeRowMeaning(headers, CellsOf(lines[start + i]));
    }
  }

  // ---------------------------------------------------------------------
  // The import preview
  // ---------------------------------------------------------------------

  /** The patient fields besides name and phone that a column can be mapped to. */
  datatype Field =
    | Cedula | Email | FechaNacimiento | Sexo | GrupoSanguineo | Direccion | Alergias
    | CondicionesMedicas | SeguroMedico | ContactoEmergenciaNombre | ContactoEmergenciaTelefono

  const AllFields: set<Field> := {
    Cedula, Email, FechaNacimiento, Sexo, GrupoSanguineo, Direccion, Alergias,
    CondicionesMedicas, SeguroMedico, ContactoEmergenciaNombre, ContactoEmergenciaTelefono}

  /** The column chosen for each field; "" (or no entry) means not mapped. */
  datatype Mapping = Mapping(nombre: string, telefono: string, otros: map<Field, string>)

  datatype ImportedPatient = ImportedPatient(nombre: string, telefono: string, otros: map<Field, string>)

  /** `row[key] || ''`. */
  function Get(row: map<string, string>, key: string): string {
    if key in row then row[key] else ""
  }

  /** The legacy export keeps surname and given name apart; they are joined as "Nombre Apellido". */
  function FullName(row: map<string, string>, headers: seq<string>, m: Mapping): string {
    if m.nombre == "Apellido" && "Nombre" in headers then Trim(Get(row, "Nombre") + " " + Get(row, "Apellido"))
    else Get(row, m.nombre)
  }

  /** An empty phone falls back to the second phone column when there is one. */
  function Phone(row: map<string, string>, headers: seq<string>, m: Mapping): string {
    var t := Get(row, m.telefono);
    if t == "" && "Tel\U{E9}fono2" in headers then Get(row, "Tel\U{E9}fono2") else t
  }

  function ToPatient(row: map<string, string>, headers: seq<string>, m: Mapping): (p: ImportedPatient)
    ensures m.nombre == "Apellido" && "Nombre" in headers ==>
              p.nombre == Trim(Get(row, "Nombre") + " " + Get(row, "Apellido"))
    ensures !(m.nombre == "Apellido" && "Nombre" in headers) ==> p.nombre == Get(row, m.nombre)
    ensures p.telefono == if Get(row, m.telefono) == "" && "Tel\U{E9}fono2" in headers
                          then Get(row, "Tel\U{E9}fono2") else Get(row, m.telefono)
    ensures p.otros.Keys == AllFields
    ensures forall f :: f in AllFields ==> p.otros[f] == Get(row, if f in m.otros then m.otros[f] else "")
  {
    ImportedPatient(
      FullName(row, headers, m), Phone(row, headers, m),
      map f | f in AllFields :: Get(row, if f in m.otros then m.otros[f] else ""))
  }

  function ToPatients(rows: seq<map<string, string>>, headers: seq<string>, m: Mapping): (r: seq<ImportedPatient>)
    ensures |r| == |rows|
    ensures forall k :: 0 <= k < |rows| ==> r[k] == ToPatient(rows[k], headers, m)
  {
    seq(|rows|, k requires 0 <= k < |rows| => ToPatient(rows[k], headers, m))
  }

  /** `pacientes.filter(p => p.nombre && p.telefono)`. */
  function KeepComplete(ps: seq<ImportedPatient>): (r: seq<ImportedPatient>)
    ensures forall p :: p in r <==> p in ps && p.nombre != "" && p.telefono != ""
    ensures |r| <= |ps|
  {
    if ps == [] then []
    else
      var rest := KeepComplete(ps[1..]);
      assert forall p :: p in ps <==> p == ps[0] || p in ps[1..];
      if ps[0].nombre != "" && ps[0].telefono != "" then [ps[0]] + rest else rest
  }

  /** Every complete patient is kept as often as it occurs, and no incomplete one. */
  lemma {:induction false} KeepCompleteCounts(ps: seq<ImportedPatient>)
    ensures forall p :: multiset(KeepComplete(ps))[p] == if p.nombre != "" && p.telefono != "" then multiset(ps)[p] else 0
    decreases |ps|
  {
    if ps != [] {
      assert ps == [ps[0]] + ps[1..];
      KeepCompleteCounts(ps[1..]);
    }
  }

  /** The filter keeps row order: the patients of `a + b` are those of `a`, then those of `b`. */
  lemma {:induction false} KeepCompleteConcat(a: seq<ImportedPatient>, b: seq<ImportedPatient>)
    ensures KeepComplete(a + b) == KeepComplete(a) + KeepComplete(b)
    decreases |a|
  {
    if a == [] {
      assert a + b == b;
    } else {
      assert (a + b)[1..] == a[1..] + b;
      KeepCompleteConcat(a[1..], b);
    }
  }

  datatype ImportError = NameOrPhoneNotMapped

  /**
   * The filter of `generarVistaPrevia`: name and phone must be mapped; then
   * the patients to import are exactly the converted rows having both.
   */
  function ImportPreview(t: Table, m: Mapping): (r: Result<seq<ImportedPatient>, ImportError>)
    ensures r.Err? <==> m.nombre == "" || m.telefono == ""
    ensures r.Ok? ==> forall p :: p in r.value <==>
              (exists k :: 0 <= k < |t.rows| && p == ToPatient(t.rows[k], t.headers, m))
              && p.nombre != "" && p.telefono != ""
  {
    if m.nombre == "" || m.telefono == "" then Err(NameOrPhoneNotMapped)
    else
      var ps := ToPatients(t.rows, t.headers, m);
      assert forall p :: p in ps <==> exists k :: 0 <= k < |t.rows| && p == ToPatient(t.rows[k], t.headers, m);
      Ok(KeepComplete(ps))
  }

  /**
   * The preview follows the rows: a complete converted row is listed as often
   * as it occurs, and splitting the rows splits the preview in the same order.
   */
  lemma ImportPreviewCounts(t: Table, m: Mapping)
    requires m.nombre != "" && m.telefono != ""
    ensures var ps := ToPatients(t.rows, t.headers, m);
            forall p :: multiset(ImportPreview(t, m).value)[p] == if p.nombre != "" && p.telefono != "" then multiset(ps)[p] else 0
  {
    KeepCompleteCounts(ToPatients(t.rows, t.headers, m));
  }

  lemma ImportPreviewRowsConcat(t: Table, a: seq<map<string, string>>, b: seq<map<string, string>>, m: Mapping)
    requires t.rows == a + b
    requires m.nombre != "" && m.telefono != ""
    ensures ImportPreview(t, m).value == ImportPreview(t.(rows := a), m).value + ImportPreview(t.(rows := b), m).value
  {
    var pa, pb := ToPatients(a, t.headers, m), ToPatients(b, t.headers, m);
    var ps := ToPatients(t.rows, t.headers, m);
    assert |ps| == |pa + pb|;
    forall k | 0 <= k < |ps| ensures ps[k] == (pa + pb)[k] {
      if k < |a| {
        assert t.rows[k] == a[k];
      } else {
        assert t.rows[k] == b[k - |a|];
      }
    }
    assert ps == pa + pb;
    KeepCompleteConcat(pa, pb);
  }

  lemma LegacyHeadersDistinct()
    ensures forall i, j :: 0 <= i < j < |LegacyHeaders| ==> LegacyHeaders[i] != LegacyHeaders[j]
  {
  }

  /**
   * A line of the legacy export mapped by surname: the name becomes given
   * name then surname, and an empty first phone falls back to the second.
   */
  lemma LegacyRowNameAndPhone(values: seq<string>, m: Mapping)
    requires m.nombre == "Apellido" && m.telefono == "Tel\U{E9}fono1"
    ensures var row := MakeRow(LegacyHeaders, values);
            && FullName(row, LegacyHeaders, m) == Trim(CellAt(values, 1) + " " + CellAt(values, 0))
            && Phone(row, LegacyHeaders, m) == if CellAt(values, 8) == "" then CellAt(values, 9) else CellAt(values, 8)
  {
    var row := MakeRow(LegacyHeaders, values);
    MakeRowMeaning(LegacyHeaders, values);
    assert LegacyHeaders[0] == "Apellido" && LegacyHeaders[1] == "Nombre";
    assert LegacyHeaders[8] == "Tel\U{E9}fono1" && LegacyHeaders[9] == "Tel\U{E9}fono2";
    LegacyHeadersDistinct();
    assert forall k :: 0 <= k < 10 ==> LegacyHeaders[k] !in LegacyHeaders[k + 1..];
  }
}
